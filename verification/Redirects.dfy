/** `httpx.RedirectWith`: merging key/value pairs into the query a redirect target already carries. */
module Redirects {
  import opened Prelude

  type Query = map<string, seq<string>>

  /** The last non-empty value that the first `n` entries of the flat list pair with `key`. */
  function LastValue(kv: seq<string>, n: nat, key: string): Option<string>
    requires n <= |kv| && n % 2 == 0
  {
    if n == 0 then None
    else if kv[n - 2] == key && kv[n - 1] != "" then Some(kv[n - 1])
    else LastValue(kv, n - 2, key)
  }

  /** `LastValue` in terms of positions: nothing after the winning pair sets the key again. */
  lemma {:induction false} LastValueIsLast(kv: seq<string>, n: nat, key: string)
    requires n <= |kv| && n % 2 == 0
    ensures LastValue(kv, n, key).None? <==>
            forall i :: 0 <= i < n / 2 && kv[2 * i] == key ==> kv[2 * i + 1] == ""
    ensures LastValue(kv, n, key).Some? ==>
              exists i :: 0 <= i < n / 2 && kv[2 * i] == key && kv[2 * i + 1] == LastValue(kv, n, key).value != "" &&
                          forall j :: i < j < n / 2 && kv[2 * j] == key ==> kv[2 * j + 1] == ""
  {
    if n > 0 {
      var last := n / 2 - 1;
      assert 2 * last == n - 2;
      LastValueIsLast(kv, n - 2, key);
      if kv[2 * last] == key && kv[2 * last + 1] != "" {
        assert LastValue(kv, n, key) == Some(kv[2 * last + 1]);
      } else if LastValue(kv, n - 2, key).Some? {
        var i :| 0 <= i < (n - 2) / 2 && kv[2 * i] == key && kv[2 * i + 1] == LastValue(kv, n - 2, key).value != "" &&
                 forall j :: i < j < (n - 2) / 2 && kv[2 * j] == key ==> kv[2 * j + 1] == "";
        assert forall j :: i < j < n / 2 && kv[2 * j] == key ==> kv[2 * j + 1] == "" by {
          forall j | i < j < n / 2 && kv[2 * j] == key ensures kv[2 * j + 1] == "" {
            if j < last {}
          }
        }
      } else {
        forall i | 0 <= i < n / 2 && kv[2 * i] == key ensures kv[2 * i + 1] == "" {
          if i < last {}
        }
      }
    }
  }

  /** Each key ends with the last non-empty value given for it, as its only value; a key given no
      such value keeps what the base carried. An unpaired last entry is ignored. */
  method MergePairs(base: Query, kv: seq<string>) returns (q: Query)
    ensures forall key ::
              match LastValue(kv, |kv| - |kv| % 2, key)
              case Some(value) => key in q && q[key] == [value]
              case None => (key in q <==> key in base) && (key in base ==> q[key] == base[key])
  {
    q := base;
    var i := 0;
    while i + 1 < |kv|
      invariant 0 <= i <= |kv| && i % 2 == 0
      invariant forall key ::
                  match LastValue(kv, i, key)
                  case Some(value) => key in q && q[key] == [value]
                  case None => (key in q <==> key in base) && (key in base ==> q[key] == base[key])
    {
      if kv[i + 1] != "" {
        q := q[kv[i] := [kv[i + 1]]];
      }
      i := i + 2;
    }
  }
}
