/** A service call is a run of the machine in which nothing else happens, so everything proved of runs
    holds of what the services do. */
module Embedding {
  import opened Crypto
  import opened Protocol
  import opened Sequential
  import opened Machine
  import opened Growth
  import opened Store
  import opened Tables
  import Base64Url

  /** Each step of the request at the instant the script gives it. */
  function Schedule(tid: nat, script: seq<Moment>): seq<Action>
    decreases |script|
  {
    if script == [] then []
    else [Tick(script[0].now), Run(tid, script[0].oracle)] + Schedule(tid, script[1..])
  }

  /** Only the request itself has moved, to `pc`, and the shared state is now `w`. */
  ghost predicate MovedAlone(c: Config, c': Config, tid: nat, w: World, pc: Pc) {
    && tid in c.threads && c'.threads.Keys == c.threads.Keys
    && c'.threads[tid].request == c.threads[tid].request && c'.threads[tid].pc == pc
    && Still(c'.w) == w
    && forall id :: id in c.threads && id != tid ==> c'.threads[id] == c.threads[id]
  }

  lemma OneMove(k: Primitives, c: Config, tid: nat, m: Moment)
    requires tid in c.threads && Enabled(k, c, Tick(m.now))
    requires Enabled(k, Apply(k, c, Tick(m.now)), Run(tid, m.oracle))
    ensures var c' := Apply(k, Apply(k, c, Tick(m.now)), Run(tid, m.oracle));
            var (w', pc') := Advance(k, Still(c.w).(now := m.now), c.threads[tid].request, c.threads[tid].pc, m.oracle);
            MovedAlone(c, c', tid, Still(w'), pc')
  {
    RunIsAfter(k, Apply(k, c, Tick(m.now)), tid, m.oracle);
    assert Still(c.w).(now := m.now) == Apply(k, c, Tick(m.now)).w;
    hide Advance, Note;
  }

  lemma MovesCompose(c: Config, c1: Config, c2: Config, tid: nat, w1: World, w2: World, pc1: Pc, pc2: Pc)
    requires MovedAlone(c, c1, tid, w1, pc1) && MovedAlone(c1, c2, tid, w2, pc2)
    ensures MovedAlone(c, c2, tid, w2, pc2)
  {}

  lemma {:induction false} AloneIsARun(k: Primitives, c: Config, tid: nat, script: seq<Moment>)
    requires tid in c.threads && CanRun(k, c, Schedule(tid, script))
    ensures var (w, pc) := RunAlone(k, Still(c.w), c.threads[tid].request, c.threads[tid].pc, script);
            MovedAlone(c, Exec(k, c, Schedule(tid, script)), tid, w, pc)
    decreases |script|
  {
    if script != [] {
      var m, rest := script[0], Schedule(tid, script[1..]);
      var actions := Schedule(tid, script);
      assert actions[0] == Tick(m.now) && actions[1..][0] == Run(tid, m.oracle) && actions[1..][1..] == rest;
      var c1 := Apply(k, c, Tick(m.now));
      hide Enabled, Apply, Advance, MovedAlone;
      OneMove(k, c, tid, m);
      var c2 := Apply(k, c1, Run(tid, m.oracle));
      assert tid in c2.threads && c2.threads[tid].request == c.threads[tid].request
             && Still(c2.w) ==
                  Still(Advance(k, Still(c.w).(now := m.now), c.threads[tid].request, c.threads[tid].pc, m.oracle).0)
             && c2.threads[tid].pc ==
                  Advance(k, Still(c.w).(now := m.now), c.threads[tid].request, c.threads[tid].pc, m.oracle).1 by {
        MovedMeans(c, c2, tid);
      }
      AloneIsARun(k, c2, tid, script[1..]);
      var (w, pc) := RunAlone(k, Still(c.w), c.threads[tid].request, c.threads[tid].pc, script);
      MovesCompose(c, c2, Exec(k, c2, rest), tid, Still(c2.w), w, c2.threads[tid].pc, pc);
    }
  }

  lemma MovedMeans(c: Config, c': Config, tid: nat)
    requires tid in c.threads
    ensures forall w, pc :: MovedAlone(c, c', tid, w, pc) ==>
              tid in c'.threads && c'.threads[tid].request == c.threads[tid].request
              && c'.threads[tid].pc == pc && Still(c'.w) == w
  {}

  /** What a service call is proved to do is where the machine ends when the request arrives and runs
      undisturbed: same answer, same store and tables. */
  lemma {:induction false} CallIsARun(k: Primitives, c: Config, tid: nat, request: Request, script: seq<Moment>,
                                      w': World, outcome: Outcome)
    requires CanRun(k, c, [Arrive(tid, request)] + Schedule(tid, script))
    requires Behaves(k, Still(c.w), w', request, script, outcome)
    ensures var c' := Exec(k, c, [Arrive(tid, request)] + Schedule(tid, script));
            && Still(c'.w) == w'
            && tid in c'.threads && c'.threads[tid].request == request && c'.threads[tid].pc == Done(outcome)
            && forall id :: id in c.threads ==> id in c'.threads && c'.threads[id] == c.threads[id]
  {
    var actions := [Arrive(tid, request)] + Schedule(tid, script);
    assert actions[0] == Arrive(tid, request) && actions[1..] == Schedule(tid, script);
    var c1 := Apply(k, c, Arrive(tid, request));
    assert c1.w == c.w;
    AloneIsARun(k, c1, tid, script);
    hide RunAlone;
  }

  // ---------------------------------------------------------------- every call can be made

  /** The draws of the script are new, each after the ones before it. */
  ghost predicate Supplied(k: Primitives, used: set<string>, script: seq<Moment>)
    decreases |script|
  {
    script == [] ||
    (var o, code := script[0].oracle, Base64Url.Encode(script[0].oracle.random);
     && |o.random| == 32
     && o.uuid !in used && code !in used && o.uuid != code && HashToken(k, o.uuid) != HashToken(k, code)
     && (forall x :: x in used ==> HashToken(k, x) != HashToken(k, o.uuid) && HashToken(k, x) != HashToken(k, code))
     && Supplied(k, used + {o.uuid, code}, script[1..]))
  }

  /** The instants of the script are in order and not in the past. */
  predicate InOrder(now: int, script: seq<Moment>)
    decreases |script|
  {
    script == [] || (now <= script[0].now && InOrder(script[0].now, script[1..]))
  }

  ghost predicate PickFits(k: Primitives, c: Config, tid: nat, script: seq<Moment>)
    requires tid in c.threads
  {
    script != [] && c.threads[tid].pc == RefreshAt(FindRow) ==>
      ValidPick(c.w.refreshTokens, HashToken(k, c.threads[tid].request.rawToken), script[0].oracle.pick)
  }

  lemma StepLeavesTheStart(k: Primitives, w: World, t: Thread, o: Oracle)
    ensures Advance(k, w, t.request, t.pc, o).1 != RefreshAt(FindRow)
  {
    hide Find, Bound, Authenticates, UserByEmail, FirstOffence;
    match t.pc
    case GrantAt(g) =>
    case AuthorizeAt(a) =>
    case LoginAt(l) =>
    case LogoutAt =>
    case RefreshAt(r) =>
    case RegisterAt(r) =>
    case RegisterClientAt =>
    case Done(_) =>
  }

  lemma MoveIsPossible(k: Primitives, c: Config, tid: nat, script: seq<Moment>)
    requires tid in c.threads && script != []
    requires Supplied(k, c.h.used.Keys, script) && InOrder(c.w.now, script) && PickFits(k, c, tid, script)
    ensures Enabled(k, c, Tick(script[0].now))
    ensures var c1 := Apply(k, c, Tick(script[0].now));
            && Enabled(k, c1, Run(tid, script[0].oracle))
            && var c2 := Apply(k, c1, Run(tid, script[0].oracle));
               && tid in c2.threads && c2.w.now == script[0].now
               && c2.h.used.Keys == c.h.used.Keys + {script[0].oracle.uuid, Base64Url.Encode(script[0].oracle.random)}
               && c2.threads[tid].pc != RefreshAt(FindRow)
  {
    var c1 := Apply(k, c, Tick(script[0].now));
    assert Fresh(k, c1.h, script[0].oracle);
    assert Enabled(k, c1, Run(tid, script[0].oracle));
    RunIsAfter(k, c1, tid, script[0].oracle);
    StepLeavesTheStart(k, c1.w, c1.threads[tid], script[0].oracle);
    hide Advance, Supplied, PickFits, InOrder, HashToken;
  }

  /** From any configuration, a request can run to the end of any script whose instants are in order and
      whose draws are new. */
  lemma {:induction false} ScheduleRuns(k: Primitives, c: Config, tid: nat, script: seq<Moment>)
    requires tid in c.threads
    requires Supplied(k, c.h.used.Keys, script) && InOrder(c.w.now, script) && PickFits(k, c, tid, script)
    ensures CanRun(k, c, Schedule(tid, script))
    decreases |script|
  {
    if script != [] {
      var m, rest, actions := script[0], Schedule(tid, script[1..]), Schedule(tid, script);
      assert actions[0] == Tick(m.now) && actions[1..][0] == Run(tid, m.oracle) && actions[1..][1..] == rest;
      MoveIsPossible(k, c, tid, script);
      var c1 := Apply(k, c, Tick(m.now));
      var c2 := Apply(k, c1, Run(tid, m.oracle));
      hide Enabled, Apply;
      ScheduleRuns(k, c2, tid, script[1..]);
      assert CanRun(k, c1, actions[1..]);
    }
  }
}
