/** What a step puts on record is in order, so the stable part of the invariant is kept. */
module Records {
  import opened Entities
  import opened Crypto
  import opened Store
  import opened Protocol
  import opened Machine
  import opened Invariants
  import opened Growth
  import opened Preservation
  import Scopes

  /** Only the record of the step itself is new. */
  ghost predicate OnlyNew(k: Primitives, c: Config, c': Config) {
    && (forall id :: id in c'.h.logins ==> id in c.h.logins || LoginOk(k, c', id))
    && (forall code :: code in c'.h.grants ==> code in c.h.grants || CodeOk(c', code))
    && (forall code :: code in c'.h.spent ==> code in c.h.spent || SpentOk(c', code))
    && (forall tid :: tid in c'.h.minted ==> tid in c.h.minted || MintOk(k, c', tid))
    && (forall id :: id in c'.h.rowOwner ==> id in c.h.rowOwner || OwnerOk(c', id))
    && (forall id :: id in c'.h.access ==> id in c.h.access || AccessOk(k, c', id))
    && (forall id :: id in c'.h.enrolled ==> id in c.h.enrolled || EnrolOk(c', id))
  }

  /** The step of request `tid` took it from `t`, in the past `h`, to where it is in `c'`. */
  ghost predicate Took(k: Primitives, c': Config, tid: nat, t: Thread, w: World, h: History, o: Oracle) {
    && tid in c'.threads
    && Moved(k, c', tid, t, c'.threads[tid], w, h, o)
    && c'.threads[tid].pc == Advance(k, w, t.request, t.pc, o).1
  }

  lemma NewLogin(k: Primitives, c': Config, tid: nat, t: Thread, w: World, h: History, o: Oracle)
    requires Took(k, c', tid, t, w, h, o)
    requires t.pc.LoginAt? && t.pc.login.StoreSession? && !o.fail
    ensures LoginOk(k, c', t.pc.login.id)
  {
    assert w.now == c'.w.now;
    hide Known;
  }

  lemma NewCode(k: Primitives, c': Config, tid: nat, t: Thread, w: World, h: History, o: Oracle)
    requires Took(k, c', tid, t, w, h, o)
    requires t.pc.AuthorizeAt? && t.pc.authorize.StoreCode? && !o.fail
    ensures CodeOk(c', t.pc.authorize.code)
  {
    assert w.now == c'.w.now;
    hide Known, DataOk;
  }

  lemma NewSpent(k: Primitives, c': Config, tid: nat, t: Thread, w: World, h: History, o: Oracle)
    requires Took(k, c', tid, t, w, h, o) && Consumes(w, t, o)
    ensures SpentOk(c', t.request.token.code)
  {
    assert KnownCode(c', w, t.request.token.code);
    hide Find;
  }

  lemma NewMint(k: Primitives, c': Config, tid: nat, t: Thread, w: World, h: History, o: Oracle)
    requires Took(k, c', tid, t, w, h, o)
    requires t.pc.GrantAt? && t.pc.grant.StoreRefresh? && !c'.threads[tid].pc.outcome.Failed?
    requires c'.threads[tid].pc.Done?
    ensures MintOk(k, c', tid)
  {
    assert DrawnBy(c', o.uuid, tid);
    hide Known, Bound, HashToken, Scopes.Join;
  }

  lemma NewOwner(k: Primitives, c': Config, tid: nat, t: Thread, w: World, h: History, o: Oracle)
    requires Took(k, c', tid, t, w, h, o)
    requires t.pc.GrantAt? && t.pc.grant.StoreRefresh? && !c'.threads[tid].pc.outcome.Failed?
    requires c'.threads[tid].pc.Done?
    ensures OwnerOk(c', o.uuid)
  {
    assert DrawnBy(c', o.uuid, tid);
    hide Known, Claimed, HashToken, Scopes.Join, ThreadOk;
  }

  lemma NewMintAccess(k: Primitives, c': Config, tid: nat, t: Thread, w: World, h: History, o: Oracle)
    requires Took(k, c', tid, t, w, h, o)
    requires t.pc.GrantAt? && t.pc.grant.StoreRefresh? && !c'.threads[tid].pc.outcome.Failed?
    requires c'.threads[tid].pc.Done?
    ensures AccessOk(k, c', t.pc.grant.claims.tokenID)
  {
    hide Known, Claimed, HashToken, Scopes.Join;
  }

  lemma NewAccess(k: Primitives, c': Config, tid: nat, t: Thread, w: World, h: History, o: Oracle)
    requires Took(k, c', tid, t, w, h, o)
    requires t.pc.RefreshAt? && t.pc.refresh.IssueToken? && !o.fail
    ensures AccessOk(k, c', o.uuid)
  {
    assert DrawnBy(c', o.uuid, tid);
    hide Known;
  }

  lemma NewEnrol(k: Primitives, c': Config, tid: nat, t: Thread, w: World, h: History, o: Oracle)
    requires Took(k, c', tid, t, w, h, o)
    requires t.pc.RegisterAt? && t.pc.register.StoreUser?
    requires c'.threads[tid].pc.Done? && c'.threads[tid].pc.outcome.Registered?
    ensures EnrolOk(c', t.pc.register.user.id)
  {
    hide Known;
  }

  lemma RunTook(k: Primitives, c: Config, tid: nat, o: Oracle)
    requires Inv(k, c) && Enabled(k, c, Run(tid, o))
    ensures Took(k, Apply(k, c, Run(tid, o)), tid, c.threads[tid], c.w, c.h, o)
  {
    RunMoves(k, c, tid, o);
    RunIsAfter(k, c, tid, o);
    hide Inv, Moved, Note, Advance, Enabled, Apply;
  }

  /** The step from `t` in the past `h` is all there is in `c'`. */
  ghost predicate JustTook(k: Primitives, c': Config, tid: nat, t: Thread, w: World, h: History, o: Oracle) {
    && Took(k, c', tid, t, w, h, o)
    && c'.h == Note(k, h, tid, t, w, o, c'.threads[tid].pc)
    && (o.fail ==> !Fallible(t.request, t.pc) || c'.threads[tid].pc == Fail(Infrastructure))
  }

  lemma NewEvents(k: Primitives, c': Config, tid: nat, t: Thread, w: World, h: History, o: Oracle)
    requires JustTook(k, c', tid, t, w, h, o)
    ensures forall id :: id in c'.h.logins ==> id in h.logins || LoginOk(k, c', id)
    ensures forall code :: code in c'.h.grants ==> code in h.grants || CodeOk(c', code)
    ensures forall code :: code in c'.h.spent ==> code in h.spent || SpentOk(c', code)
    ensures forall id :: id in c'.h.enrolled ==> id in h.enrolled || EnrolOk(c', id)
  {
    hide Took, LoginOk, CodeOk, SpentOk, EnrolOk, Find;
    hide NoteMinted, NoteOwner, NoteAccess;
    forall id | id in c'.h.logins && id !in h.logins ensures LoginOk(k, c', id) { NewLogin(k, c', tid, t, w, h, o); }
    forall code | code in c'.h.grants && code !in h.grants ensures CodeOk(c', code) { NewCode(k, c', tid, t, w, h, o); }
    forall code | code in c'.h.spent && code !in h.spent ensures SpentOk(c', code) { NewSpent(k, c', tid, t, w, h, o); }
    forall id | id in c'.h.enrolled && id !in h.enrolled ensures EnrolOk(c', id) { NewEnrol(k, c', tid, t, w, h, o); }
  }

  lemma NewTokens(k: Primitives, c': Config, tid: nat, t: Thread, w: World, h: History, o: Oracle)
    requires JustTook(k, c', tid, t, w, h, o)
    ensures forall id :: id in c'.h.minted ==> id in h.minted || MintOk(k, c', id)
    ensures forall id :: id in c'.h.rowOwner ==> id in h.rowOwner || OwnerOk(c', id)
    ensures forall id :: id in c'.h.access ==> id in h.access || AccessOk(k, c', id)
  {
    hide Took, MintOk, OwnerOk, AccessOk;
    hide NoteLogins, NoteGrants, NoteSpent, NoteEnrolled;
    forall id | id in c'.h.minted && id !in h.minted ensures MintOk(k, c', id) { NewMint(k, c', tid, t, w, h, o); }
    forall id | id in c'.h.rowOwner && id !in h.rowOwner ensures OwnerOk(c', id) {
      NewOwner(k, c', tid, t, w, h, o);
    }
    forall id | id in c'.h.access && id !in h.access ensures AccessOk(k, c', id) {
      if t.pc.GrantAt? { NewMintAccess(k, c', tid, t, w, h, o); } else { NewAccess(k, c', tid, t, w, h, o); }
    }
  }

  lemma RunRecords(k: Primitives, c: Config, tid: nat, o: Oracle)
    requires Inv(k, c) && Enabled(k, c, Run(tid, o))
    ensures OnlyNew(k, c, Apply(k, c, Run(tid, o)))
  {
    RunTook(k, c, tid, o);
    var c' := Apply(k, c, Run(tid, o));
    var t, pc', w, h := c.threads[tid], c'.threads[tid].pc, c.w, c.h;
    assert c'.h == Note(k, h, tid, t, w, o, pc');
    assert o.fail ==> !Fallible(t.request, t.pc) || pc' == Fail(Infrastructure);
    hide Inv, Enabled, Apply, Took, Note, LoginOk, CodeOk, SpentOk, MintOk, OwnerOk, AccessOk, EnrolOk;
    NewEvents(k, c', tid, t, w, h, o);
    NewTokens(k, c', tid, t, w, h, o);
  }

  lemma RunStable(k: Primitives, c: Config, tid: nat, o: Oracle)
    requires k.Valid() && Inv(k, c) && Enabled(k, c, Run(tid, o))
    ensures Stable(k, Apply(k, c, Run(tid, o)))
  {
    var c' := Taking(k, c, tid, o);
    ThreadStepOk(k, c, tid, o);
    RunRecords(k, c, tid, o);
    hide Enabled, Apply, Stepped, ThreadOk, Grows, LoginOk, CodeOk, SpentOk, MintOk, OwnerOk, AccessOk, EnrolOk;
    StableFromNew(k, c, c');
  }
}
