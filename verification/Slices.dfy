/** `utils.ContainsAll`: list inclusion through a hash set. */
module Slices {

  method ContainsAll<T(==)>(main: seq<T>, sub: seq<T>) returns (all: bool)
    ensures all <==> forall x :: x in sub ==> x in main
  {
    var mainMap: map<T, ()> := map[];
    for i := 0 to |main|
      invariant forall x :: x in mainMap <==> x in main[..i]
    {
      mainMap := mainMap[main[i] := ()];
    }
    assert main[..|main|] == main;
    for i := 0 to |sub|
      invariant forall x :: x in sub[..i] ==> x in main
    {
      if sub[i] !in mainMap {
        return false;
      }
    }
    assert sub[..|sub|] == sub;
    return true;
  }
}
