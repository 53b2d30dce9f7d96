/** Lowercase hexadecimal, as the `%x` verb of `fmt.Sprintf` writes a byte array. */
module Hex {
  import opened Prelude

  type nibble = x: int | 0 <= x < 16

  function Digit(n: nibble): char {
    if n < 10 then '0' + n as char else 'a' + (n - 10) as char
  }

  function Encode(bytes: seq<byte>): string {
    if bytes == [] then "" else [Digit(bytes[0] / 16), Digit(bytes[0] % 16)] + Encode(bytes[1..])
  }

  predicate IsDigit(c: char) {
    '0' <= c <= '9' || 'a' <= c <= 'f'
  }

  /** Two lowercase digits a byte. */
  lemma {:induction false} Shape(bytes: seq<byte>)
    ensures |Encode(bytes)| == 2 * |bytes|
    ensures forall i :: 0 <= i < |Encode(bytes)| ==> IsDigit(Encode(bytes)[i])
  {
    if bytes != [] {
      Shape(bytes[1..]);
      forall i | 0 <= i < |Encode(bytes)| ensures IsDigit(Encode(bytes)[i]) {
        if i >= 2 {
          assert Encode(bytes)[i] == Encode(bytes[1..])[i - 2];
        }
      }
    }
  }

  lemma DigitOf(n: nibble)
    ensures Digit(n) == "0123456789abcdef"[n]
  {}

  /** The two digits of each byte, the higher one first. */
  lemma {:induction false} DigitsAt(bytes: seq<byte>, i: nat)
    requires i < |bytes|
    ensures |Encode(bytes)| == 2 * |bytes|
    ensures Encode(bytes)[2 * i] == "0123456789abcdef"[bytes[i] / 16]
    ensures Encode(bytes)[2 * i + 1] == "0123456789abcdef"[bytes[i] % 16]
  {
    Shape(bytes);
    if i == 0 {
      DigitOf(bytes[0] / 16);
      DigitOf(bytes[0] % 16);
    } else {
      hide Digit;
      DigitsAt(bytes[1..], i - 1);
      assert Encode(bytes)[2..] == Encode(bytes[1..]);
    }
  }

  lemma {:induction false} Injective(x: seq<byte>, y: seq<byte>)
    requires Encode(x) == Encode(y)
    ensures x == y
    decreases |x|
  {
    Shape(x);
    Shape(y);
    if x != [] {
      var ex, ey := Encode(x), Encode(y);
      assert ex[0] == ey[0] && ex[1] == ey[1];
      assert x[0] == y[0];
      assert ex[2..] == Encode(x[1..]) && ey[2..] == Encode(y[1..]);
      Injective(x[1..], y[1..]);
      assert x == [x[0]] + x[1..] && y == [y[0]] + y[1..];
    }
  }
}
