/** One request whose steps are not interleaved with anything else. */
module Sequential {
  import opened Crypto
  import opened Protocol

  /** The state between two calls: what is held by the store and the tables. The clock is read from
      the script. */
  function Still(w: World): World { w.(now := 0) }

  /** The steps of one request, one for each moment of the script. */
  ghost function RunAlone(k: Primitives, w: World, request: Request, pc: Pc, script: seq<Moment>): (r: (World, Pc))
    requires Fits(request, pc)
    ensures Fits(request, r.1)
    decreases |script|
  {
    if script == [] then (w, pc)
    else
      var (w', pc') := Advance(k, w.(now := script[0].now), request, pc, script[0].oracle);
      RunAlone(k, Still(w'), request, pc', script[1..])
  }

  /** A call that finds `w` and leaves `w'` does exactly what the steps of its request do. */
  ghost predicate Behaves(k: Primitives, w: World, w': World, request: Request, script: seq<Moment>, outcome: Outcome) {
    RunAlone(k, w, request, Start(request), script) == (w', Done(outcome))
  }

  /** The first `i` steps lead from `w0` to `w` and `pc`. */
  ghost predicate Reaches(k: Primitives, w0: World, request: Request, script: seq<Moment>, i: nat, w: World, pc: Pc) {
    && i <= |script| && Fits(request, pc) && w == Still(w)
    && RunAlone(k, w0, request, Start(request), script) == RunAlone(k, w, request, pc, script[i..])
  }

  lemma {:induction false} Begins(k: Primitives, w0: World, request: Request, script: seq<Moment>)
    requires w0 == Still(w0)
    ensures Reaches(k, w0, request, script, 0, w0, Start(request))
  {
    assert script[0..] == script;
  }

  lemma {:induction false} Steps(k: Primitives, w0: World, request: Request, script: seq<Moment>, i: nat, w: World,
                                 pc: Pc)
    requires Reaches(k, w0, request, script, i, w, pc) && i < |script|
    ensures var (w', pc') := Advance(k, w.(now := script[i].now), request, pc, script[i].oracle);
            Reaches(k, w0, request, script, i + 1, Still(w'), pc')
  {
    assert script[i..][1..] == script[i + 1..];
    hide Advance;
  }

  lemma {:induction false} DoneRests(k: Primitives, w: World, request: Request, outcome: Outcome, script: seq<Moment>)
    requires w == Still(w)
    ensures RunAlone(k, w, request, Done(outcome), script) == (w, Done(outcome))
    decreases |script|
  {
    if script != [] {
      DoneRests(k, w, request, outcome, script[1..]);
    }
  }

  lemma {:induction false} Ends(k: Primitives, w0: World, request: Request, script: seq<Moment>, i: nat, w: World,
                                outcome: Outcome)
    requires Reaches(k, w0, request, script, i, w, Done(outcome))
    ensures Behaves(k, w0, w, request, script, outcome)
  {
    DoneRests(k, w, request, outcome, script[i..]);
    hide RunAlone;
  }
}
