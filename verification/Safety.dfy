/** The invariant is inductive: it holds at the start and after any run. */
module Safety {
  import opened Prelude
  import opened Crypto
  import opened Store
  import opened Tables
  import opened Protocol
  import opened Machine
  import opened Invariants
  import opened Growth
  import opened Preservation
  import opened Records
  import opened Effects

  /** `c'` is `c` after a step of request `tid`, said without the programs. */
  ghost predicate StepShape(k: Primitives, c: Config, c': Config, tid: nat, o: Oracle) {
    && tid in c.threads && tid in c'.threads
    && Grows(c, c') && c'.w.now == c.w.now
    && var t, pc' := c.threads[tid], c'.threads[tid].pc;
    && c'.threads == c.threads[tid := c'.threads[tid]]
    && c'.h == Note(k, c.h, tid, t, c.w, o, pc')
    && c'.w.entries == EntriesAfter(c.w, t, o, pc')
    && (Enrols(t, pc') ==>
          var u := t.pc.register.user;
          u.id !in c.w.users && !EmailInUse(c.w.users, u.email) && c'.w.users == c.w.users[u.id := u])
    && (!Enrols(t, pc') ==> c'.w.users == c.w.users)
    && (Mints(t, pc') ==>
          var row := MintedRow(k, t, o);
          o.uuid !in c.w.refreshTokens && row.userID in c.w.users
          && c'.w.refreshTokens == c.w.refreshTokens[o.uuid := row])
    && (!Mints(t, pc') ==> c'.w.refreshTokens == c.w.refreshTokens)
  }

  lemma RunShape(k: Primitives, c: Config, tid: nat, o: Oracle)
    requires Inv(k, c) && Enabled(k, c, Run(tid, o))
    ensures StepShape(k, c, Apply(k, c, Run(tid, o)), tid, o)
  {
    var c' := Taking(k, c, tid, o);
    StepEntries(k, c.w, c.threads[tid], o);
    StepUsers(k, c.w, c.threads[tid], o);
    StepRows(k, c.w, c.threads[tid], o);
    hide Inv, Enabled, Apply, Advance, Note, Grows, EntriesAfter, MintedRow, Mints, Enrols, EmailInUse;
  }

  // ---------------------------------------------------------------- the store

  lemma EntryKept(c: Config, c': Config, key: string)
    requires HistoryGrows(c.h, c'.h) && EntryOk(c, key)
    requires key in c'.w.entries ==> key in c.w.entries && c'.w.entries[key] == c.w.entries[key]
    ensures EntryOk(c', key)
  {}

  lemma RunEntry(k: Primitives, c: Config, c': Config, tid: nat, o: Oracle, key: string)
    requires StepShape(k, c, c', tid, o) && EntryOk(c, key)
    ensures EntryOk(c', key)
  {
    var t, pc' := c.threads[tid], c'.threads[tid].pc;
    if Stores(t, pc') && key == SessionKey(t.pc.login.id) {
      KeysApart(t.pc.login.id, "");
    } else if Grants(t, pc') && key == CodeKey(t.pc.authorize.code) {
      KeysApart("", t.pc.authorize.code);
    } else {
      hide SessionKey, CodeKey, EntryOk;
      EntryKept(c, c', key);
    }
  }

  lemma RunCodeStored(k: Primitives, c: Config, c': Config, tid: nat, o: Oracle, code: string)
    requires StepShape(k, c, c', tid, o) && EntryOk(c, CodeKey(code)) && CodeStored(c, code) && SpentOk(c, code)
    requires NotRecorded(c, tid, o, c'.threads[tid].pc)
    ensures CodeStored(c', code)
  {
    var t, pc' := c.threads[tid], c'.threads[tid].pc;
    KeysApart(code, code);
    if Stores(t, pc') { KeysApart(t.pc.login.id, code); }
    else if Grants(t, pc') { KeysApart("", t.pc.authorize.code); }
    else if TriesCode(t, o) { KeysApart("", t.request.token.code); }
    else if EndsSession(t, o) { KeysApart(t.request.sessionID, code); }
    hide SessionKey, CodeKey;
  }

  // ---------------------------------------------------------------- the tables

  lemma RunRow(k: Primitives, c: Config, c': Config, tid: nat, o: Oracle, id: string)
    requires StepShape(k, c, c', tid, o) && RowOk(c, id)
    ensures RowOk(c', id)
  {}

  lemma RunUser(k: Primitives, c: Config, c': Config, tid: nat, o: Oracle, id: string)
    requires StepShape(k, c, c', tid, o) && UserOk(c, id)
    ensures UserOk(c', id)
  {}

  lemma RunEmails(k: Primitives, c: Config, c': Config, tid: nat, o: Oracle)
    requires StepShape(k, c, c', tid, o) && EmailsDistinct(c.w.users)
    ensures EmailsDistinct(c'.w.users)
  {
    hide Grows, EntriesAfter, Note, MintedRow;
  }

  lemma RunClient(k: Primitives, c: Config, tid: nat, o: Oracle, id: string)
    requires Enabled(k, c, Run(tid, o)) && ClientOk(c, id)
    ensures ClientOk(Apply(k, c, Run(tid, o)), id)
  {
    StepClients(k, c.w, c.threads[tid], o);
    RunIsAfter(k, c, tid, o);
    hide Enabled, Apply, Advance, Note, NewClient;
  }

  lemma RunDigests(k: Primitives, c: Config, c': Config, tid: nat, o: Oracle)
    requires StepShape(k, c, c', tid, o) && DigestsDistinct(k, c) && Fresh(k, c.h, o)
    ensures DigestsDistinct(k, c')
  {
    hide Grows, EntriesAfter, MintedRow, HashToken;
  }

  lemma RunInv(k: Primitives, c: Config, tid: nat, o: Oracle)
    requires k.Valid() && Inv(k, c) && Enabled(k, c, Run(tid, o))
    ensures Inv(k, Apply(k, c, Run(tid, o)))
  {
    var c' := Apply(k, c, Run(tid, o));
    RunStable(k, c, tid, o);
    RunShape(k, c, tid, o);
    RecordIsNew(k, c, tid, o, c'.threads[tid].pc);
    RunEmails(k, c, c', tid, o);
    RunDigests(k, c, c', tid, o);
    forall id ensures ClientOk(c', id) { RunClient(k, c, tid, o, id); }
    hide Apply, Enabled, StepShape, EntryOk, CodeStored, SpentOk, RowOk, UserOk, EmailsDistinct, ClientOk,
         DigestsDistinct, NotRecorded;
    forall key ensures EntryOk(c', key) { RunEntry(k, c, c', tid, o, key); }
    forall code ensures CodeStored(c', code) { RunCodeStored(k, c, c', tid, o, code); }
    forall id ensures RowOk(c', id) { RunRow(k, c, c', tid, o, id); }
    forall id ensures UserOk(c', id) { RunUser(k, c, c', tid, o, id); }
  }

  // ---------------------------------------------------------------- the other actions

  /** Nothing is recorded and no request moves; at most one arrives. */
  ghost predicate Quiet(c: Config, c': Config) {
    && c'.h == c.h && c'.w.entries == c.w.entries && c'.w.clients == c.w.clients
    && c.w.now <= c'.w.now
    && forall tid :: tid in c.threads ==> tid in c'.threads && c'.threads[tid] == c.threads[tid]
  }

  lemma QuietInv(k: Primitives, c: Config, c': Config)
    requires Inv(k, c) && Quiet(c, c')
    requires forall tid :: tid in c'.threads ==> tid in c.threads || ThreadOk(k, c', tid, c'.threads[tid])
    requires forall id :: id in c'.w.refreshTokens ==>
               && id in c.w.refreshTokens
               && c'.w.refreshTokens[id].(revokedAt := None) == c.w.refreshTokens[id].(revokedAt := None)
               && c'.w.refreshTokens[id].userID in c'.w.users
    requires forall id :: id in c'.w.users ==> id in c.w.users && c'.w.users[id] == c.w.users[id]
    ensures Inv(k, c')
  {
    assert Grows(c, c');
    StableFromNew(k, c, c');
    hide Stable;
    forall key ensures EntryOk(c', key) { assert EntryOk(c, key); }
    forall code ensures CodeStored(c', code) { assert CodeStored(c, code); }
    forall id ensures RowOk(c', id) { assert RowOk(c, id); }
    forall id ensures UserOk(c', id) { assert UserOk(c, id); }
    forall id ensures ClientOk(c', id) { assert ClientOk(c, id); }
  }

  lemma StartOk(k: Primitives, c: Config, tid: nat, request: Request)
    ensures ThreadOk(k, c, tid, ThreadState(request, Start(request), c.w.now, c.w.now))
  {}

  lemma MaintenanceInv(k: Primitives, c: Config, a: Action)
    requires Inv(k, c) && Enabled(k, c, a) && !a.Run? && !a.Arrive?
    ensures Inv(k, Apply(k, c, a))
  {
    UsersOfRows(k, c);
    var c' := Apply(k, c, a);
    hide Inv;
    QuietInv(k, c, c');
  }

  lemma ArrivalInv(k: Primitives, c: Config, tid: nat, request: Request)
    requires Inv(k, c) && Enabled(k, c, Arrive(tid, request))
    ensures Inv(k, Apply(k, c, Arrive(tid, request)))
  {
    UsersOfRows(k, c);
    var c' := Apply(k, c, Arrive(tid, request));
    StartOk(k, c', tid, request);
    hide Inv;
    QuietInv(k, c, c');
  }

  lemma ActionInv(k: Primitives, c: Config, a: Action)
    requires k.Valid() && Inv(k, c) && Enabled(k, c, a)
    ensures Inv(k, Apply(k, c, a))
  {
    hide Inv, Apply;
    if a.Run? { RunInv(k, c, a.tid, a.oracle); }
    else if a.Arrive? { ArrivalInv(k, c, a.tid, a.request); }
    else { MaintenanceInv(k, c, a); }
  }

  lemma UsersOfRows(k: Primitives, c: Config)
    requires Inv(k, c)
    ensures forall id :: id in c.w.refreshTokens ==>
              c.w.refreshTokens[id].id == id && c.w.refreshTokens[id].userID in c.w.users
  {
    forall id | id in c.w.refreshTokens
      ensures c.w.refreshTokens[id].id == id && c.w.refreshTokens[id].userID in c.w.users
    {
      assert RowOk(c, id);
    }
  }

  lemma InitialInv(k: Primitives, now: int)
    ensures Inv(k, Initial(now))
  {}

  /** Whatever the interleaving, every configuration a run reaches satisfies the invariant. */
  lemma {:induction false} RunsKeepInv(k: Primitives, c: Config, actions: seq<Action>)
    requires k.Valid() && Inv(k, c) && CanRun(k, c, actions)
    ensures Inv(k, Exec(k, c, actions))
    decreases |actions|
  {
    hide Inv, Enabled, Apply;
    if actions != [] {
      ActionInv(k, c, actions[0]);
      RunsKeepInv(k, Apply(k, c, actions[0]), actions[1..]);
    }
  }

  /** A run of two parts is the second run from where the first one ends. */
  lemma {:induction false} RunsCompose(k: Primitives, c: Config, first: seq<Action>, second: seq<Action>)
    ensures CanRun(k, c, first + second) <==> CanRun(k, c, first) && CanRun(k, Exec(k, c, first), second)
    ensures CanRun(k, c, first + second) ==>
              Exec(k, c, first + second) == Exec(k, Exec(k, c, first), second)
    decreases |first|
  {
    hide Enabled, Apply;
    if first == [] {
      assert first + second == second;
    } else {
      assert (first + second)[1..] == first[1..] + second;
      if Enabled(k, c, first[0]) { RunsCompose(k, Apply(k, c, first[0]), first[1..], second); }
    }
  }

  lemma ActionGrows(k: Primitives, c: Config, a: Action)
    requires Inv(k, c) && Enabled(k, c, a)
    ensures Grows(c, Apply(k, c, a))
  {
    if a.Run? {
      RunGrows(k, c, a.tid, a.oracle);
      hide Inv, Apply, Enabled, Grows;
    } else {
      hide Inv;
    }
  }

  lemma GrowthComposes(c: Config, c1: Config, c2: Config)
    requires Grows(c, c1) && Grows(c1, c2)
    ensures Grows(c, c2)
  {}

  /** Over any run the registry and the record of the past only grow, no request is forgotten or changes
      what it asks for, and a finished one keeps its answer. */
  lemma {:induction false} RunsGrow(k: Primitives, c: Config, actions: seq<Action>)
    requires k.Valid() && Inv(k, c) && CanRun(k, c, actions)
    ensures Grows(c, Exec(k, c, actions))
    decreases |actions|
  {
    if actions != [] {
      hide Inv, Enabled, Apply, Grows;
      ActionGrows(k, c, actions[0]);
      ActionInv(k, c, actions[0]);
      RunsGrow(k, Apply(k, c, actions[0]), actions[1..]);
      GrowthComposes(c, Apply(k, c, actions[0]), Exec(k, c, actions));
    }
  }

  lemma {:induction false} ReachableInv(k: Primitives, now: int, actions: seq<Action>)
    requires k.Valid() && CanRun(k, Initial(now), actions)
    ensures Inv(k, Exec(k, Initial(now), actions))
  {
    InitialInv(k, now);
    RunsKeepInv(k, Initial(now), actions);
  }
}
