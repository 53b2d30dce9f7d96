/** Space-delimited lists (section 3.3 of RFC 6749): `strings.Fields` on the way in,
    `strings.Join(_, " ")` on the way out. */
module Scopes {

  /** The white space of `unicode.IsSpace`. */
  predicate IsSpace(c: char) {
    var u := c as int;
    9 <= u <= 13 || u == 0x20 || u == 0x85 || u == 0xa0 || u == 0x1680 || 0x2000 <= u <= 0x200a ||
    u == 0x2028 || u == 0x2029 || u == 0x202f || u == 0x205f || u == 0x3000
  }

  /** The length of the longest prefix without white space. */
  function WordLength(s: string): (n: nat)
    ensures n <= |s|
    ensures forall i :: 0 <= i < n ==> !IsSpace(s[i])
    ensures n < |s| ==> IsSpace(s[n])
  {
    if s == "" || IsSpace(s[0]) then 0 else 1 + WordLength(s[1..])
  }

  function Fields(s: string): seq<string> {
    if s == "" then []
    else if IsSpace(s[0]) then Fields(s[1..])
    else
      var n := WordLength(s);
      assert n > 0;
      [s[..n]] + Fields(s[n..])
  }

  function Join(words: seq<string>): string {
    if |words| == 0 then ""
    else if |words| == 1 then words[0]
    else words[0] + " " + Join(words[1..])
  }

  /** A scope token: at least one character, and no white space. */
  predicate IsToken(s: string) {
    s != "" && forall i :: 0 <= i < |s| ==> !IsSpace(s[i])
  }

  predicate AllTokens(words: seq<string>) {
    forall i :: 0 <= i < |words| ==> IsToken(words[i])
  }

  lemma {:induction false} FieldsAreTokens(s: string)
    ensures AllTokens(Fields(s))
    decreases |s|
  {
    if s == "" {
    } else if IsSpace(s[0]) {
      FieldsAreTokens(s[1..]);
    } else {
      var n := WordLength(s);
      assert n > 0;
      FieldsAreTokens(s[n..]);
    }
  }

  lemma FieldsStep(s: string)
    requires s != ""
    ensures IsSpace(s[0]) ==> Fields(s) == Fields(s[1..])
    ensures !IsSpace(s[0]) ==> WordLength(s) > 0 && Fields(s) == [s[..WordLength(s)]] + Fields(s[WordLength(s)..])
  {}

  lemma SameWord(s: string, i: nat)
    requires i < |s| && IsSpace(s[i])
    ensures WordLength(s[..i]) == WordLength(s)
  {}

  /** White space separates: each side of it is split on its own. */
  lemma {:induction false} FieldsSplit(s: string, i: nat)
    requires i < |s| && IsSpace(s[i])
    ensures Fields(s) == Fields(s[..i]) + Fields(s[i + 1..])
    decreases |s|
  {
    if i > 0 {
      if IsSpace(s[0]) {
        SplitAfterSpace(s, i);
      } else {
        SplitAfterWord(s, i);
      }
    }
  }

  lemma {:induction false} SplitAfterSpace(s: string, i: nat)
    requires 0 < i < |s| && IsSpace(s[i]) && IsSpace(s[0])
    ensures Fields(s) == Fields(s[..i]) + Fields(s[i + 1..])
    decreases |s|, 0
  {
    hide Fields, WordLength, IsSpace;
    var left, rest := s[..i], s[1..];
    FieldsStep(s);
    FieldsStep(left);
    assert rest[i - 1] == s[i];
    FieldsSplit(rest, i - 1);
    assert rest[..i - 1] == left[1..];
    assert rest[i - 1 + 1..] == s[i + 1..];
  }

  lemma {:induction false} SplitAfterWord(s: string, i: nat)
    requires 0 < i < |s| && IsSpace(s[i]) && !IsSpace(s[0])
    ensures Fields(s) == Fields(s[..i]) + Fields(s[i + 1..])
    decreases |s|, 0
  {
    hide Fields, WordLength, IsSpace;
    var left := s[..i];
    FieldsStep(s);
    FieldsStep(left);
    SameWord(s, i);
    var n := WordLength(s);
    var rest := s[n..];
    assert n <= i;
    assert rest[i - n] == s[i];
    FieldsSplit(rest, i - n);
    assert rest[..i - n] == left[n..];
    assert rest[i - n + 1..] == s[i + 1..];
    assert s[..n] == left[..n];
  }

  lemma FieldsOfToken(word: string)
    requires IsToken(word)
    ensures Fields(word) == [word]
  {
    assert WordLength(word) == |word|;
    assert word[..|word|] == word && word[|word|..] == "";
  }

  /** Splitting what was joined gives the list back, so the scope string in a token names exactly
      the granted list. */
  lemma {:induction false} JoinThenFields(words: seq<string>)
    requires AllTokens(words)
    ensures Fields(Join(words)) == words
  {
    if |words| == 1 {
      FieldsOfToken(words[0]);
    } else if |words| > 1 {
      JoinThenFields(words[1..]);
      FieldsOfToken(words[0]);
      var s := Join(words);
      FieldsSplit(s, |words[0]|);
      assert s[..|words[0]|] == words[0] && s[|words[0]| + 1..] == Join(words[1..]);
    }
  }

  // ---------------------------------------------------------------- in terms of code points

  /** Around one of the 25 white-space code points the two sides are split on their own. */
  lemma FieldsAround(x: string, c: char, y: string)
    requires var u := c as int;
             u in {9, 10, 11, 12, 13, 0x20, 0x85, 0xa0, 0x1680, 0x2028, 0x2029, 0x202f, 0x205f, 0x3000}
             || 0x2000 <= u <= 0x200a
    ensures Fields(x + [c] + y) == Fields(x) + Fields(y)
  {
    var s := x + [c] + y;
    assert s[|x|] == c && s[..|x|] == x && s[|x| + 1..] == y;
    FieldsSplit(s, |x|);
  }

  /** Nothing else separates: a non-empty string with none of them is one field. */
  lemma FieldsOfWord(s: string)
    requires s != ""
    requires forall i :: 0 <= i < |s| ==>
               var u := s[i] as int;
               u !in {9, 10, 11, 12, 13, 0x20, 0x85, 0xa0, 0x1680, 0x2028, 0x2029, 0x202f, 0x205f, 0x3000}
               && !(0x2000 <= u <= 0x200a)
    ensures Fields(s) == [s]
  {
    FieldsOfToken(s);
  }

  /** A scope token of section 3.3 of RFC 6749: %x21, %x23-5B and %x5D-7E. */
  predicate IsScopeToken(s: string) {
    && s != ""
    && forall i :: 0 <= i < |s| ==>
         s[i] as int == 0x21 || 0x23 <= s[i] as int <= 0x5b || 0x5d <= s[i] as int <= 0x7e
  }

  /** Scope tokens with single spaces between them are read as exactly those tokens. */
  lemma {:induction false} FieldsOfScopeTokens(tokens: seq<string>)
    requires forall token :: token in tokens ==> IsScopeToken(token)
    ensures Fields(Join(tokens)) == tokens
  {
    forall i | 0 <= i < |tokens| ensures IsToken(tokens[i]) {
      assert tokens[i] in tokens;
    }
    JoinThenFields(tokens);
  }

  /** The string is one or more of the registered scopes, scope tokens all, with single spaces between them. */
  ghost predicate Names(registered: seq<string>, scope: string) {
    exists tokens: seq<string> ::
      && scope == Join(tokens) && tokens != []
      && forall token :: token in tokens ==> IsScopeToken(token) && token in registered
  }

  lemma NamedAreRead(registered: seq<string>, scope: string)
    requires Names(registered, scope)
    ensures Fields(scope) != [] && forall word :: word in Fields(scope) ==> word in registered
  {
    var tokens: seq<string> :|
      && scope == Join(tokens) && tokens != []
      && forall token :: token in tokens ==> IsScopeToken(token) && token in registered;
    FieldsOfScopeTokens(tokens);
  }

  /** What stands between two joined words is one space. */
  lemma {:induction false} JoinAround(words: seq<string>, words': seq<string>)
    ensures Join([]) == "" && (|words| == 1 ==> Join(words) == words[0])
    ensures words != [] && words' != [] ==> Join(words + words') == Join(words) + " " + Join(words')
  {
    if |words| == 1 {
      assert (words + words')[1..] == words';
    } else if |words| > 1 {
      JoinAround(words[1..], words');
      assert (words + words')[1..] == words[1..] + words';
    }
  }

  function Concat(words: seq<string>): string {
    if words == [] then "" else words[0] + Concat(words[1..])
  }

  function WithoutSpace(s: string): string {
    if s == "" then "" else (if IsSpace(s[0]) then "" else [s[0]]) + WithoutSpace(s[1..])
  }

  lemma {:induction false} WordKeepsText(s: string, n: nat)
    requires n <= |s| && forall i :: 0 <= i < n ==> !IsSpace(s[i])
    ensures WithoutSpace(s) == s[..n] + WithoutSpace(s[n..])
  {
    if n > 0 {
      WordKeepsText(s[1..], n - 1);
      assert s[1..][n - 1..] == s[n..];
      assert s[..n] == [s[0]] + s[1..][..n - 1];
    }
  }

  /** Nothing but white space is dropped and nothing is reordered. */
  lemma {:induction false} FieldsKeepText(s: string)
    ensures Concat(Fields(s)) == WithoutSpace(s)
    decreases |s|
  {
    if s == "" {
    } else if IsSpace(s[0]) {
      FieldsKeepText(s[1..]);
    } else {
      var n := WordLength(s);
      assert n > 0;
      FieldsKeepText(s[n..]);
      WordKeepsText(s, n);
      assert Fields(s)[1..] == Fields(s[n..]);
    }
  }
}
