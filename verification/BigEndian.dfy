/** The minimal big-endian bytes of a number, as `(*big.Int).Bytes` returns them. */
module BigEndian {
  import opened Prelude

  function Bytes(n: nat): seq<byte> {
    if n == 0 then [] else Bytes(n / 256) + [n % 256]
  }

  function Value(bytes: seq<byte>): nat {
    if bytes == [] then 0 else 256 * Value(bytes[..|bytes| - 1]) + bytes[|bytes| - 1]
  }

  /** Reading the bytes back gives the number, and no shorter byte string would do: the first byte
      is never zero (the Base64urlUInt rule of section 2 of RFC 7518). */
  lemma {:induction false} RoundTrip(n: nat)
    ensures Value(Bytes(n)) == n
    ensures n > 0 ==> Bytes(n) != [] && Bytes(n)[0] != 0
  {
    if n > 0 {
      RoundTrip(n / 256);
      var all := Bytes(n);
      assert all[..|all| - 1] == Bytes(n / 256);
    }
  }

  lemma Append(n: nat, last: byte)
    requires n > 0 || last > 0
    ensures Bytes(256 * n + last) == Bytes(n) + [last]
  {
    assert (256 * n + last) / 256 == n;
  }

  lemma ValueOfAppend(front: seq<byte>, last: byte)
    ensures Value(front + [last]) == 256 * Value(front) + last
    ensures Value([]) == 0 && Bytes(0) == []
  {
    assert (front + [last])[..|front + [last]| - 1] == front;
  }

  /** Minimality from the other side: a byte string without a leading zero is the one written for
      its value. */
  lemma {:induction false} OnlyMinimal(bytes: seq<byte>)
    requires bytes != [] ==> bytes[0] != 0
    ensures Bytes(Value(bytes)) == bytes
    decreases bytes, 1
  {
    if bytes != [] {
      OnlyMinimalStep(bytes);
    }
  }

  lemma {:induction false} OnlyMinimalStep(bytes: seq<byte>)
    requires bytes != [] && bytes[0] != 0
    ensures Bytes(Value(bytes)) == bytes
    decreases bytes, 0
  {
    hide Bytes, Value;
    var front, last := bytes[..|bytes| - 1], bytes[|bytes| - 1];
    assert bytes == front + [last];
    ValueOfAppend(front, last);
    OnlyMinimal(front);
    Append(Value(front), last);
  }
}
