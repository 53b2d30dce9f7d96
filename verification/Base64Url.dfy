/** Base64url without padding (section 5 of RFC 4648), as `base64.RawURLEncoding` writes it. */
module Base64Url {
  import opened Prelude

  type sextet = x: int | 0 <= x < 64

  function Symbol(i: sextet): char {
    if i < 26 then 'A' + i as char
    else if i < 52 then 'a' + (i - 26) as char
    else if i < 62 then '0' + (i - 52) as char
    else if i == 62 then '-'
    else '_'
  }

  function Sextet(c: char): Option<sextet> {
    if 'A' <= c <= 'Z' then Some((c - 'A') as int)
    else if 'a' <= c <= 'z' then Some((c - 'a') as int + 26)
    else if '0' <= c <= '9' then Some((c - '0') as int + 52)
    else if c == '-' then Some(62)
    else if c == '_' then Some(63)
    else None
  }

  predicate IsSymbol(c: char) {
    Sextet(c).Some?
  }

  lemma SymbolsAreCodes(i: sextet, c: char)
    ensures Sextet(Symbol(i)) == Some(i)
    ensures Sextet(c) == Some(i) ==> Symbol(i) == c
  {}

  // The four sextets of a group of three bytes, and back.
  function Sextet0(a: byte): sextet { a / 4 }
  function Sextet1(a: byte, b: byte): sextet { a % 4 * 16 + b / 16 }
  function Sextet2(b: byte, c: byte): sextet { b % 16 * 4 + c / 64 }
  function Sextet3(c: byte): sextet { c % 64 }

  function Byte0(p: sextet, q: sextet): byte { p as int * 4 + q as int / 16 }
  function Byte1(q: sextet, r: sextet): byte { q as int % 16 * 16 + r as int / 4 }
  function Byte2(r: sextet, t: sextet): byte { r as int % 4 * 64 + t as int }

  lemma GroupRoundTrip(a: byte, b: byte, c: byte)
    ensures Byte0(Sextet0(a), Sextet1(a, b)) == a
    ensures Byte1(Sextet1(a, b), Sextet2(b, c)) == b
    ensures Byte2(Sextet2(b, c), Sextet3(c)) == c
    ensures Sextet2(0, 0) == 0 && Sextet3(0) == 0
  {}

  lemma SextetsRoundTrip(p: sextet, q: sextet, r: sextet, t: sextet)
    ensures Sextet0(Byte0(p, q)) == p
    ensures Sextet1(Byte0(p, q), Byte1(q, r)) == q
    ensures Sextet2(Byte1(q, r), Byte2(r, t)) == r
    ensures Sextet3(Byte2(r, t)) == t
  {}

  // Bytes to sextets: a whole group of three, or the one or two bytes left over.

  function Regroup(bytes: seq<byte>): seq<sextet> {
    if |bytes| == 0 then []
    else if |bytes| == 1 then [Sextet0(bytes[0]), Sextet1(bytes[0], 0)]
    else if |bytes| == 2 then [Sextet0(bytes[0]), Sextet1(bytes[0], bytes[1]), Sextet2(bytes[1], 0)]
    else Group(bytes[0], bytes[1], bytes[2]) + Regroup(bytes[3..])
  }

  function Group(a: byte, b: byte, c: byte): seq<sextet> {
    [Sextet0(a), Sextet1(a, b), Sextet2(b, c), Sextet3(c)]
  }

  function Ungroup(codes: seq<sextet>): Option<seq<byte>> {
    if |codes| == 0 then Some([])
    else if |codes| == 1 then None
    else if |codes| == 2 then
      if Byte1(codes[1], 0) == 0 then Some([Byte0(codes[0], codes[1])]) else None
    else if |codes| == 3 then
      if Byte2(codes[2], 0) == 0 then Some([Byte0(codes[0], codes[1]), Byte1(codes[1], codes[2])]) else None
    else
      match Ungroup(codes[4..])
      case Some(rest) =>
        Some([Byte0(codes[0], codes[1]), Byte1(codes[1], codes[2]), Byte2(codes[2], codes[3])] + rest)
      case None => None
  }

  function Symbols(codes: seq<sextet>): string {
    seq(|codes|, i requires 0 <= i < |codes| => Symbol(codes[i]))
  }

  predicate InAlphabet(s: string) {
    forall i :: 0 <= i < |s| ==> IsSymbol(s[i])
  }

  function Codes(s: string): seq<sextet>
    requires InAlphabet(s)
  {
    seq(|s|, i requires 0 <= i < |s| => Sextet(s[i]).value)
  }

  function Encode(bytes: seq<byte>): string {
    Symbols(Regroup(bytes))
  }

  /** The strict inverse of `Encode`: alphabet characters only, no dangling character, and unused
      trailing bits must be zero. The service never decodes; this is the reference the encoder is
      measured against. */
  function Decode(s: string): Option<seq<byte>> {
    if InAlphabet(s) then Ungroup(Codes(s)) else None
  }

  lemma SymbolsRoundTrip(codes: seq<sextet>)
    ensures InAlphabet(Symbols(codes)) && Codes(Symbols(codes)) == codes
  {
    forall i | 0 <= i < |codes| ensures Sextet(Symbols(codes)[i]) == Some(codes[i]) {
      SymbolsAreCodes(codes[i], 'A');
    }
  }

  lemma CodesRoundTrip(s: string)
    requires InAlphabet(s)
    ensures Symbols(Codes(s)) == s
  {
    forall i | 0 <= i < |s| ensures Symbol(Codes(s)[i]) == s[i] {
      SymbolsAreCodes(Codes(s)[i], s[i]);
    }
  }

  lemma {:induction false} RegroupRoundTrip(bytes: seq<byte>)
    ensures Ungroup(Regroup(bytes)) == Some(bytes)
  {
    hide Byte0, Byte1, Byte2, Sextet0, Sextet1, Sextet2, Sextet3;
    if |bytes| == 0 {
    } else if |bytes| == 1 {
      GroupRoundTrip(bytes[0], 0, 0);
      assert bytes == [bytes[0]];
    } else if |bytes| == 2 {
      GroupRoundTrip(bytes[0], bytes[1], 0);
      assert bytes == [bytes[0], bytes[1]];
    } else {
      var group, rest := Group(bytes[0], bytes[1], bytes[2]), Regroup(bytes[3..]);
      GroupRoundTrip(bytes[0], bytes[1], bytes[2]);
      RegroupRoundTrip(bytes[3..]);
      assert (group + rest)[4..] == rest;
      assert bytes == [bytes[0], bytes[1], bytes[2]] + bytes[3..];
    }
  }

  lemma {:induction false} UngroupRoundTrip(codes: seq<sextet>)
    requires Ungroup(codes).Some?
    ensures Regroup(Ungroup(codes).value) == codes
  {
    hide Byte0, Byte1, Byte2, Sextet0, Sextet1, Sextet2, Sextet3;
    if |codes| == 0 {
    } else if |codes| == 2 {
      SextetsRoundTrip(codes[0], codes[1], 0, 0);
    } else if |codes| == 3 {
      SextetsRoundTrip(codes[0], codes[1], codes[2], 0);
    } else {
      var p, q, r, t := codes[0], codes[1], codes[2], codes[3];
      UngroupRoundTrip(codes[4..]);
      SextetsRoundTrip(p, q, r, t);
      var rest := Ungroup(codes[4..]).value;
      var front := [Byte0(p, q), Byte1(q, r), Byte2(r, t)];
      assert (front + rest)[3..] == rest;
      assert codes == [p, q, r, t] + codes[4..];
    }
  }

  /** Decoding an encoding gives the bytes back: no two byte strings share an encoding. */
  lemma RoundTrip(bytes: seq<byte>)
    ensures Decode(Encode(bytes)) == Some(bytes)
  {
    SymbolsRoundTrip(Regroup(bytes));
    RegroupRoundTrip(bytes);
  }

  /** A string is the encoding of `bytes` exactly when the strict decoder reads `bytes` from it. */
  lemma DecodeIsInverse(s: string, bytes: seq<byte>)
    ensures Decode(s) == Some(bytes) <==> s == Encode(bytes)
  {
    RoundTrip(bytes);
    if Decode(s) == Some(bytes) {
      UngroupRoundTrip(Codes(s));
      CodesRoundTrip(s);
    }
  }

  lemma {:induction false} RegroupLength(bytes: seq<byte>)
    ensures |Regroup(bytes)| == (4 * |bytes| + 2) / 3
  {
    if |bytes| >= 3 {
      RegroupLength(bytes[3..]);
    }
  }

  /** n bytes take ceil(4n/3) characters, all of them from the 64-symbol alphabet. */
  lemma Shape(bytes: seq<byte>)
    ensures |Encode(bytes)| == (4 * |bytes| + 2) / 3
    ensures InAlphabet(Encode(bytes))
  {
    RegroupLength(bytes);
    SymbolsRoundTrip(Regroup(bytes));
  }

  /** The byte at position `i`, or a zero of the padding. */
  function ByteAt(bytes: seq<byte>, i: nat): byte {
    if i < |bytes| then bytes[i] else 0
  }

  // The four sextets of a group, each cut out of two adjacent bytes.

  lemma HighBits(a: byte, b: byte)
    ensures Sextet0(a) == (256 * a + b) / 1024 % 64
  {
    assert 256 * a + b == 1024 * (a / 4) + (256 * (a % 4) + b);
  }

  lemma MiddleBits(a: byte, b: byte)
    ensures Sextet1(a, b) == (256 * a + b) / 16 % 64
  {
    assert 256 * a + b == 16 * (64 * (a / 4) + (16 * (a % 4) + b / 16)) + b % 16;
  }

  lemma LowerBits(b: byte, c: byte)
    ensures Sextet2(b, c) == (256 * b + c) / 64 % 64
  {
    var q, r := b / 16, 4 * (b % 16) + c / 64;
    assert r < 64;
    assert 256 * b + c == 64 * (64 * q + r) + c % 64;
    assert (256 * b + c) / 64 == 64 * q + r;
  }

  lemma LastBits(c: byte, d: byte)
    ensures Sextet3(c) == (256 * c + d) / 256 % 64
  {
    assert 256 * c + d == 256 * (64 * (c / 64) + c % 64) + d;
  }

  lemma {:induction false} SextetsAt(bytes: seq<byte>, g: nat)
    requires 3 * g < |bytes|
    ensures var a, b, c := ByteAt(bytes, 3 * g), ByteAt(bytes, 3 * g + 1), ByteAt(bytes, 3 * g + 2);
            forall j :: 4 * g <= j < 4 * g + 4 && j < |Regroup(bytes)| ==>
              Regroup(bytes)[j] == [Sextet0(a), Sextet1(a, b), Sextet2(b, c), Sextet3(c)][j - 4 * g]
  {
    hide Sextet0, Sextet1, Sextet2, Sextet3;
    if g > 0 {
      SextetsAt(bytes[3..], g - 1);
      assert Regroup(bytes)[4..] == Regroup(bytes[3..]);
      assert forall i :: 3 <= i ==> ByteAt(bytes, i) == ByteAt(bytes[3..], i - 3);
      forall j | 4 * g <= j < 4 * g + 4 && j < |Regroup(bytes)|
        ensures Regroup(bytes)[j] == Regroup(bytes)[4..][j - 4]
      {}
    }
  }

  lemma PositionOf(g: nat, r: nat)
    requires r < 4
    ensures 6 * (4 * g + r) / 8 == 3 * g + (if r == 0 then 0 else r - 1)
  {
    assert 6 * (4 * g + r) == 8 * (3 * g) + 6 * r;
  }

  lemma {:induction false} SextetAt(bytes: seq<byte>, j: nat)
    requires j < |Regroup(bytes)|
    ensures var pair := 256 * ByteAt(bytes, 6 * j / 8) + ByteAt(bytes, 6 * j / 8 + 1);
            Regroup(bytes)[j] == (if j % 4 == 0 then pair / 1024 else if j % 4 == 1 then pair / 16
                                  else if j % 4 == 2 then pair / 64 else pair / 256) % 64
  {
    var g, r := j / 4, j % 4;
    RegroupLength(bytes);
    SextetsAt(bytes, g);
    PositionOf(g, r);
    hide Regroup, Sextet0, Sextet1, Sextet2, Sextet3, ByteAt;
    var a, b := ByteAt(bytes, 3 * g), ByteAt(bytes, 3 * g + 1);
    var c, d := ByteAt(bytes, 3 * g + 2), ByteAt(bytes, 3 * g + 3);
    if r == 0 { HighBits(a, b); } else if r == 1 { MiddleBits(a, b); }
    else if r == 2 { LowerBits(b, c); } else { LastBits(c, d); }
  }

  /** Character `j` writes the six bits from bit `6 * j` on, the most significant bit of each byte first and
      zeros after the last byte, with the code points of A-Z, a-z, 0-9, the hyphen and the underscore. */
  lemma CharacterAt(bytes: seq<byte>, j: nat)
    requires j < |Encode(bytes)|
    ensures var pair := 256 * ByteAt(bytes, 6 * j / 8) + ByteAt(bytes, 6 * j / 8 + 1);
            var v := (if j % 4 == 0 then pair / 1024 else if j % 4 == 1 then pair / 16
                      else if j % 4 == 2 then pair / 64 else pair / 256) % 64;
            Encode(bytes)[j] as int ==
            if v < 26 then 65 + v else if v < 52 then 97 + v - 26 else if v < 62 then 48 + v - 52
            else if v == 62 then 45 else 95
  {
    SextetAt(bytes, j);
    hide Regroup, ByteAt;
  }

  lemma Injective(x: seq<byte>, y: seq<byte>)
    requires Encode(x) == Encode(y)
    ensures x == y
  {
    RoundTrip(x);
    RoundTrip(y);
  }
}
