/** `TokenService.JWKS` and `rsaThumbprint`: publishing the RSA key (section 6.3.1 of RFC 7518) and
    naming it (section 3 of RFC 7638). */
module Keys {
  import opened Prelude
  import opened Crypto
  import Base64Url
  import BigEndian

  datatype PublicKey = PublicKey(modulus: nat, exponent: nat) {
    predicate Valid() { modulus > 0 && exponent > 0 }
  }

  datatype Jwk = Jwk(kty: string, use: string, alg: string, kid: string, n: string, e: string)

  function Uint(n: nat): string {
    Base64Url.Encode(BigEndian.Bytes(n))
  }

  function Canonical(n: string, e: string): string {
    "{\"e\":\"" + e + "\",\"kty\":\"RSA\",\"n\":\"" + n + "\"}"
  }

  function Thumbprint(k: Primitives, n: string, e: string): string {
    Base64Url.Encode(k.sha256(Canonical(n, e)))
  }

  function JWKS(k: Primitives, key: PublicKey): seq<Jwk> {
    var n, e := Uint(key.modulus), Uint(key.exponent);
    [Jwk("RSA", "sig", "RS256", Thumbprint(k, n, e), n, e)]
  }

  /** What a reader of a published integer does. */
  function ReadUint(s: string): Option<nat> {
    match Base64Url.Decode(s)
    case Some(bytes) => Some(BigEndian.Value(bytes))
    case None => None
  }

  /** A reader recovers the published integer, from octets without a leading zero. */
  lemma UintRoundTrip(n: nat)
    requires n > 0
    ensures ReadUint(Uint(n)) == Some(n)
    ensures Base64Url.Decode(Uint(n)).value != [] && Base64Url.Decode(Uint(n)).value[0] != 0
  {
    Base64Url.RoundTrip(BigEndian.Bytes(n));
    BigEndian.RoundTrip(n);
  }

  lemma CanonicalOfMembers(n: string, e: string)
    ensures Canonical(n, e) == "{\"e\":\"" + e + "\",\"kty\":\"" + "RSA" + "\",\"n\":\"" + n + "\"}"
  {
    assert "\",\"kty\":\"RSA\",\"n\":\"" == "\",\"kty\":\"" + "RSA" + "\",\"n\":\"";
  }

  lemma BytesOfUsualExponent()
    ensures BigEndian.Bytes(65537) == [1, 0, 1]
  {
    BigEndian.Append(0, 1);
    BigEndian.Append(1, 0);
    BigEndian.Append(256, 1);
    assert BigEndian.Bytes(0) == [];
    hide BigEndian.Bytes;
  }

  lemma UsualExponentText()
    ensures Base64Url.Encode([1, 0, 1]) == "AQAB"
  {
    UsualExponentGroup();
    assert Base64Url.Symbol(0) == 'A' && Base64Url.Symbol(16) == 'Q' && Base64Url.Symbol(1) == 'B';
    hide Base64Url.Regroup, Base64Url.Symbol;
    assert Base64Url.Encode([1, 0, 1]) == ['A', 'Q', 'A', 'B'];
  }

  lemma UsualExponentGroup()
    ensures Base64Url.Regroup([1, 0, 1]) == [0, 16, 0, 1]
  {
    var bytes: seq<byte> := [1, 0, 1];
    assert bytes[3..] == [] && Base64Url.Regroup([]) == [];
    assert Base64Url.Group(1, 0, 1) == [0, 16, 0, 1];
    hide Base64Url.Group;
    assert Base64Url.Regroup(bytes) == Base64Url.Group(bytes[0], bytes[1], bytes[2]) + Base64Url.Regroup(bytes[3..]);
  }

  /** The usual exponent, 65537, is published as "AQAB". */
  lemma UsualExponent(k: Primitives, modulus: nat)
    ensures JWKS(k, PublicKey(modulus, 65537))[0].e == "AQAB"
  {
    BytesOfUsualExponent();
    UsualExponentText();
    hide BigEndian.Bytes, Base64Url.Encode, Thumbprint;
  }

  /** A reader of the published set recovers the key it was made from, and recomputes its `kid` from the
      required members of the entry in lexicographic order (section 3 of RFC 7638). */
  lemma ReaderRecoversKey(k: Primitives, key: PublicKey)
    requires key.Valid()
    ensures |JWKS(k, key)| == 1
    ensures ReadUint(JWKS(k, key)[0].n) == Some(key.modulus) && ReadUint(JWKS(k, key)[0].e) == Some(key.exponent)
    ensures var jwk := JWKS(k, key)[0];
            && jwk.kty == "RSA" && jwk.use == "sig" && jwk.alg == "RS256"
            && jwk.kid == Base64Url.Encode(k.sha256(
                            "{\"e\":\"" + jwk.e + "\",\"kty\":\"" + jwk.kty + "\",\"n\":\"" + jwk.n + "\"}"))
  {
    CanonicalOfMembers(JWKS(k, key)[0].n, JWKS(k, key)[0].e);
    UintRoundTrip(key.modulus);
    UintRoundTrip(key.exponent);
  }

  predicate NoQuote(s: string) {
    forall i :: 0 <= i < |s| ==> s[i] != '"'
  }

  /** No quote can occur inside a member, so equal canonical strings have equal members. */
  lemma CanonicalIsUnambiguous(n: string, e: string, n': string, e': string)
    requires NoQuote(e) && NoQuote(e')
    requires Canonical(n, e) == Canonical(n', e')
    ensures e == e' && n == n'
  {
    var c, c' := Canonical(n, e), Canonical(n', e');
    var head, tail := "{\"e\":\"", "\",\"kty\":\"RSA\",\"n\":\"";
    SplitAtQuote(head, e, tail + n + "\"}", e', tail + n' + "\"}", c);
    assert c == head + e + (tail + n + "\"}");
    assert c' == head + e' + (tail + n' + "\"}");
    assert c[|head| + |e|..] == tail + n + "\"}";
    assert c[|head| + |e|..] == tail + n' + "\"}";
    assert n == (tail + n + "\"}")[|tail|..|tail| + |n|];
    assert n' == (tail + n' + "\"}")[|tail|..|tail| + |n'|];
  }

  lemma SplitAtQuote(head: string, e: string, rest: string, e': string, rest': string, whole: string)
    requires NoQuote(e) && NoQuote(e')
    requires rest != "" && rest[0] == '"' && rest' != "" && rest'[0] == '"'
    requires whole == head + e + rest == head + e' + rest'
    ensures e == e'
  {
    assert whole[|head| + |e|] == '"' && whole[|head| + |e'|] == '"';
    assert e == whole[|head|..|head| + |e|];
    assert e' == whole[|head|..|head| + |e'|];
  }

  lemma UintHasNoQuote(n: nat)
    ensures NoQuote(Uint(n))
  {
    Base64Url.Shape(BigEndian.Bytes(n));
  }

  /** Two valid keys that publish the same integers are the same key; and when the digest does not
      collide on their two canonical strings, the same `kid` already means the same key. */
  lemma KidNamesKey(k: Primitives, key: PublicKey, key': PublicKey)
    requires key.Valid() && key'.Valid()
    requires var c, c' := Canonical(Uint(key.modulus), Uint(key.exponent)),
             Canonical(Uint(key'.modulus), Uint(key'.exponent));
             k.sha256(c) == k.sha256(c') ==> c == c'
    ensures JWKS(k, key)[0].kid == JWKS(k, key')[0].kid <==> key == key'
    ensures JWKS(k, key)[0].n == JWKS(k, key')[0].n && JWKS(k, key)[0].e == JWKS(k, key')[0].e <==> key == key'
  {
    UintRoundTrip(key.modulus);
    UintRoundTrip(key.exponent);
    UintRoundTrip(key'.modulus);
    UintRoundTrip(key'.exponent);
    var n, e, n', e' := Uint(key.modulus), Uint(key.exponent), Uint(key'.modulus), Uint(key'.exponent);
    if Thumbprint(k, n, e) == Thumbprint(k, n', e') {
      Base64Url.Injective(k.sha256(Canonical(n, e)), k.sha256(Canonical(n', e')));
      UintHasNoQuote(key.exponent);
      UintHasNoQuote(key'.exponent);
      CanonicalIsUnambiguous(n, e, n', e');
    }
  }
}
