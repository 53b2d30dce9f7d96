/** The cryptographic primitives, as parameters with the few laws the service relies on. */
module Crypto {
  import opened Prelude
  import Base64Url
  import Hex

  /** The number of bytes of `s` in UTF-8. */
  function Utf8Length(s: string): nat {
    if s == "" then 0
    else
      var c := s[|s| - 1];
      Utf8Length(s[..|s| - 1])
      + (if c < '\U{80}' then 1 else if c < '\U{800}' then 2 else if c < '\U{10000}' then 3 else 4)
  }

  /** Every character takes one byte, and one more at each of three code points that it reaches. */
  lemma {:induction false} Utf8Counts(s: string)
    ensures Utf8Length(s) ==
            |s| + |set i | 0 <= i < |s| && s[i] as int >= 0x80|
            + |set i | 0 <= i < |s| && s[i] as int >= 0x800|
            + |set i | 0 <= i < |s| && s[i] as int >= 0x10000|
  {
    if s != "" {
      var front := s[..|s| - 1];
      Utf8Counts(front);
      LastIndex(s, front, 0x80);
      LastIndex(s, front, 0x800);
      LastIndex(s, front, 0x10000);
    }
  }

  lemma LastIndex(s: string, front: string, bound: int)
    requires s != "" && front == s[..|s| - 1]
    ensures |set i | 0 <= i < |s| && s[i] as int >= bound| ==
            |set i | 0 <= i < |front| && front[i] as int >= bound| + if s[|s| - 1] as int >= bound then 1 else 0
  {
    var all, some := set i | 0 <= i < |s| && s[i] as int >= bound,
        set i | 0 <= i < |front| && front[i] as int >= bound;
    assert all == if s[|s| - 1] as int >= bound then some + {|s| - 1} else some;
  }

  const BCRYPT_LIMIT := 72

  /** `hash` is `bcrypt.GenerateFromPassword` with the salt it draws made explicit; it refuses a
      password of more than 72 bytes, so the law says nothing about those. */
  datatype Primitives = Primitives(
    sha256: string -> seq<byte>,
    hash: (string, string) -> string,
    matches: (string, string) -> bool)
  {
    ghost predicate Valid() {
      && (forall s :: |sha256(s)| == 32)
      && (forall password, salt ::
            Utf8Length(password) <= BCRYPT_LIMIT ==>
              hash(password, salt) != "" && matches(hash(password, salt), password))
    }
  }

  /** The laws can be met. */
  lemma LawsAreConsistent()
    ensures exists k: Primitives :: k.Valid()
  {
    var k := Primitives(s => seq(32, i => 0), (password, salt) => "$" + password,
                        (hash, password) => hash == "$" + password);
    assert k.Valid();
  }

  /** `hashToken`: the hex form of the digest, which is what the refresh-token table stores. */
  function HashToken(k: Primitives, raw: string): string {
    Hex.Encode(k.sha256(raw))
  }

  /** The S256 code challenge of a verifier (section 4.2 of RFC 7636). */
  function Challenge(k: Primitives, verifier: string): string {
    Base64Url.Encode(k.sha256(verifier))
  }

  /** The comparison of `authorizationCodeGrant` succeeds exactly when the stored challenge strictly
      decodes to the digest of the verifier, and then it has 43 characters. */
  lemma ChallengeAccepted(k: Primitives, stored: string, verifier: string)
    requires k.Valid()
    ensures stored == Challenge(k, verifier) <==> Base64Url.Decode(stored) == Some(k.sha256(verifier))
    ensures stored == Challenge(k, verifier) ==> |stored| == 43 && Base64Url.InAlphabet(stored)
  {
    Base64Url.DecodeIsInverse(stored, k.sha256(verifier));
    Base64Url.Shape(k.sha256(verifier));
  }

  /** The stored hash has 64 hex digits and separates tokens as well as the digest does. */
  lemma HashTokenSeparates(k: Primitives, raw: string, raw': string)
    requires k.Valid()
    ensures |HashToken(k, raw)| == 64
    ensures HashToken(k, raw) == HashToken(k, raw') <==> k.sha256(raw) == k.sha256(raw')
    ensures forall i :: 0 <= i < 32 ==>
              && HashToken(k, raw)[2 * i] == "0123456789abcdef"[k.sha256(raw)[i] / 16]
              && HashToken(k, raw)[2 * i + 1] == "0123456789abcdef"[k.sha256(raw)[i] % 16]
  {
    forall i | 0 <= i < 32
      ensures |HashToken(k, raw)| == 64
      ensures HashToken(k, raw)[2 * i] == "0123456789abcdef"[k.sha256(raw)[i] / 16]
      ensures HashToken(k, raw)[2 * i + 1] == "0123456789abcdef"[k.sha256(raw)[i] % 16]
    {
      Hex.DigitsAt(k.sha256(raw), i);
    }
    Hex.Shape(k.sha256(raw));
    if HashToken(k, raw) == HashToken(k, raw') {
      Hex.Injective(k.sha256(raw), k.sha256(raw'));
    }
  }

  lemma {:induction false} AsciiLength(s: string)
    requires forall i :: 0 <= i < |s| ==> s[i] < '\U{80}'
    ensures Utf8Length(s) == |s|
  {
    if s != "" {
      AsciiLength(s[..|s| - 1]);
    }
  }

  /** 32 random bytes make a secret of 43 characters, within what bcrypt can hash. */
  lemma SecretFits(raw: seq<byte>)
    requires |raw| == 32
    ensures |Base64Url.Encode(raw)| == 43
    ensures Utf8Length(Base64Url.Encode(raw)) == 43 <= 72
  {
    Base64Url.Shape(raw);
    AsciiLength(Base64Url.Encode(raw));
  }
}
