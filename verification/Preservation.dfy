/** Every step keeps the invariant, so it holds in every configuration a run can reach. */
module Preservation {
  import opened Prelude
  import opened Entities
  import opened Crypto
  import opened Store
  import opened Tables
  import opened Protocol
  import opened Machine
  import opened Invariants
  import opened Growth
  import Base64Url
  import Scopes

  // ---------------------------------------------------------------- the stable part

  /** Everything on record before a step is still in order after it. */
  lemma OldRecords(k: Primitives, c: Config, c': Config)
    requires Stable(k, c) && Grows(c, c')
    ensures forall tid :: tid in c.threads ==> ThreadOk(k, c', tid, c.threads[tid])
    ensures forall id :: id in c.h.logins ==> LoginOk(k, c', id)
    ensures forall code :: code in c.h.grants ==> CodeOk(c', code)
    ensures forall code :: code in c.h.spent ==> SpentOk(c', code)
    ensures forall tid :: tid in c.h.minted ==> MintOk(k, c', tid)
    ensures forall id :: id in c.h.rowOwner ==> OwnerOk(c', id)
    ensures forall id :: id in c.h.access ==> AccessOk(k, c', id)
    ensures forall id :: id in c.h.enrolled ==> EnrolOk(c', id)
  {
    hide Grows, ThreadOk, LoginOk, CodeOk, SpentOk, MintOk, OwnerOk, AccessOk, EnrolOk;
    forall tid | tid in c.threads { ThreadGrows(k, c, c', tid, c.threads[tid]); }
    forall id | id in c.h.logins { LoginGrows(k, c, c', id); }
    forall code | code in c.h.grants { CodeGrows(c, c', code); }
    forall code | code in c.h.spent { SpentGrows(c, c', code); }
    forall tid | tid in c.h.minted { MintGrows(k, c, c', tid); }
    forall id | id in c.h.rowOwner { OwnerGrows(c, c', id); }
    forall id | id in c.h.access { AccessGrows(k, c, c', id); }
    forall id | id in c.h.enrolled { EnrolGrows(c, c', id); }
  }

  /** A step keeps the stable part if what it adds is in order. */
  lemma StableFromNew(k: Primitives, c: Config, c': Config)
    requires Stable(k, c) && Grows(c, c')
    requires forall tid :: tid in c'.threads ==>
               (tid in c.threads && c'.threads[tid] == c.threads[tid]) || ThreadOk(k, c', tid, c'.threads[tid])
    requires forall id :: id in c'.h.logins ==> id in c.h.logins || LoginOk(k, c', id)
    requires forall code :: code in c'.h.grants ==> code in c.h.grants || CodeOk(c', code)
    requires forall code :: code in c'.h.spent ==> code in c.h.spent || SpentOk(c', code)
    requires forall tid :: tid in c'.h.minted ==> tid in c.h.minted || MintOk(k, c', tid)
    requires forall id :: id in c'.h.rowOwner ==> id in c.h.rowOwner || OwnerOk(c', id)
    requires forall id :: id in c'.h.access ==> id in c.h.access || AccessOk(k, c', id)
    requires forall id :: id in c'.h.enrolled ==> id in c.h.enrolled || EnrolOk(c', id)
    ensures Stable(k, c')
  {
    OldRecords(k, c, c');
    hide Grows;
    hide ThreadOk;
  }

  // What a step adds, handler by handler. `c'` is the configuration after the step.

  lemma Taking(k: Primitives, c: Config, tid: nat, o: Oracle) returns (c': Config)
    requires Inv(k, c) && Enabled(k, c, Run(tid, o))
    ensures c' == Apply(k, c, Run(tid, o))
    ensures c' == After(k, c, tid, o, Stepped(k, c, tid, o).0, Stepped(k, c, tid, o).1)
    ensures Grows(c, c')
    ensures ThreadOk(k, c, tid, c.threads[tid]) && ThreadOk(k, c', tid, c.threads[tid])
  {
    c' := Apply(k, c, Run(tid, o));
    RunIsAfter(k, c, tid, o);
    RunGrows(k, c, tid, o);
    ThreadGrows(k, c, c', tid, c.threads[tid]);
  }

  /** A code found in the store is one that was granted, with that data, at most its lifetime ago. */
  lemma FoundCode(k: Primitives, c: Config, code: string)
    requires Inv(k, c) && Find(c.w.entries, CodeKey(code), c.w.now).Some?
    ensures code in c.h.grants && code !in c.h.spent
    ensures Find(c.w.entries, CodeKey(code), c.w.now) == Some(CodePayload(c.h.grants[code].data))
    ensures c.h.grants[code].at <= c.w.now <= c.h.grants[code].at + AUTH_CODE_TTL
  {
    KeysApart(code, code);
    assert EntryOk(c, CodeKey(code)) && CodeOk(c, code) && CodeStored(c, code);
  }

  /** A session found in the store is one that a login stored, at most its lifetime ago. */
  lemma FoundSession(k: Primitives, c: Config, id: string)
    requires Inv(k, c) && Find(c.w.entries, SessionKey(id), c.w.now).Some?
    ensures id in c.h.logins
    ensures Find(c.w.entries, SessionKey(id), c.w.now) == Some(SessionPayload(c.h.logins[id].session))
    ensures SessionSeen(c, id, c.h.logins[id].session, c.w.now)
  {
    KeysApart(id, id);
    assert EntryOk(c, SessionKey(id)) && LoginOk(k, c, id);
  }

  // ---------------------------------------------------------------- the request that moves

  /** What the step of request `tid` from world `w` can rely on in the configuration `c'` it leads to. */
  ghost predicate Known(c': Config, tid: nat, w: World, o: Oracle) {
    && w.now == c'.w.now
    && (forall id :: id in w.clients ==> InRegistry(c', id, w.clients[id]))
    && (forall id :: id in w.users ==> w.users[id].id == id && Enrolled(c', w.users[id]))
    && (forall id :: id in w.refreshTokens ==> w.refreshTokens[id].id == id && RowKnown(c', w.refreshTokens[id]))
    && (forall id :: Find(w.entries, SessionKey(id), w.now).Some? ==> KnownSession(c', w, id))
    && (forall code :: Find(w.entries, CodeKey(code), w.now).Some? ==> KnownCode(c', w, code))
    && DrawnBy(c', o.uuid, tid) && DrawnBy(c', Base64Url.Encode(o.random), tid)
  }

  ghost predicate KnownSession(c': Config, w: World, id: string) {
    && id in c'.h.logins
    && Find(w.entries, SessionKey(id), w.now) == Some(SessionPayload(c'.h.logins[id].session))
    && SessionSeen(c', id, c'.h.logins[id].session, w.now)
  }

  ghost predicate KnownCode(c': Config, w: World, code: string) {
    && code in c'.h.grants
    && Find(w.entries, CodeKey(code), w.now) == Some(CodePayload(c'.h.grants[code].data))
    && c'.h.grants[code].at <= w.now <= c'.h.grants[code].at + AUTH_CODE_TTL
  }

  lemma ItIsKnown(k: Primitives, c: Config, c': Config, tid: nat, o: Oracle)
    requires Inv(k, c) && Grows(c, c') && c'.w.now == c.w.now
    requires DrawnBy(c', o.uuid, tid) && DrawnBy(c', Base64Url.Encode(o.random), tid)
    ensures Known(c', tid, c.w, o)
  {
    hide Stable;
    assert forall id :: id in c.w.clients ==> InRegistry(c', id, c.w.clients[id]) by {
      hide EntryOk;
      forall id | id in c.w.clients ensures InRegistry(c', id, c.w.clients[id]) { assert ClientOk(c, id); }
    }
    TablesKnown(k, c, c');
    forall id | Find(c.w.entries, SessionKey(id), c.w.now).Some? ensures KnownSession(c', c.w, id) {
      FoundSession(k, c, id);
      hide Inv, Find, SessionKey;
    }
    forall code | Find(c.w.entries, CodeKey(code), c.w.now).Some? ensures KnownCode(c', c.w, code) {
      FoundCode(k, c, code);
      hide Inv, Find, CodeKey;
    }
  }

  lemma TablesKnown(k: Primitives, c: Config, c': Config)
    requires Inv(k, c) && Grows(c, c')
    ensures forall id :: id in c.w.users ==> c.w.users[id].id == id && Enrolled(c', c.w.users[id])
    ensures forall id :: id in c.w.refreshTokens ==>
              c.w.refreshTokens[id].id == id && RowKnown(c', c.w.refreshTokens[id])
  {
    hide Stable;
    forall id | id in c.w.users ensures c.w.users[id].id == id && Enrolled(c', c.w.users[id]) { assert UserOk(c, id); }
    forall id | id in c.w.refreshTokens
      ensures c.w.refreshTokens[id].id == id && RowKnown(c', c.w.refreshTokens[id])
    {
      assert RowOk(c, id);
    }
  }

  /** The thread `t'` that a step from `t` in world `w` leads to, and the past `c'` then has. */
  ghost predicate Moved(k: Primitives, c': Config, tid: nat, t: Thread, t': Thread, w: World, h: History, o: Oracle) {
    && ThreadOk(k, c', tid, t) && Known(c', tid, w, o)
    && t'.request == t.request && t'.started == t.started
    && t'.mark == (if TakesMark(t.pc) then w.now else t.mark)
    && c'.h == Note(k, h, tid, t, w, o, t'.pc)
  }

  lemma FailedOk(k: Primitives, c: Config, tid: nat, t: Thread)
    requires t.pc.Done? && t.pc.outcome.Failed? && t.started <= t.mark <= c.w.now
    ensures ThreadOk(k, c, tid, t)
  {}

  lemma GrantMoves(k: Primitives, c': Config, tid: nat, t: Thread, t': Thread, w: World, h: History, o: Oracle)
    requires Moved(k, c', tid, t, t', w, h, o)
    requires t.pc.GrantAt? && !t.pc.grant.ConsumeCode? && !t.pc.grant.StoreRefresh?
    requires t'.pc == GrantStep(k, w, t.request.token, t.pc.grant, o).1
    ensures ThreadOk(k, c', tid, t')
  {
    hide Claimed, Note;
  }

  lemma ConsumeMoves(k: Primitives, c': Config, tid: nat, t: Thread, t': Thread, w: World, h: History, o: Oracle)
    requires Moved(k, c', tid, t, t', w, h, o) && !o.fail
    requires t.pc.GrantAt? && t.pc.grant.ConsumeCode?
    requires t'.pc == GrantStep(k, w, t.request.token, t.pc.grant, o).1
    ensures ThreadOk(k, c', tid, t')
  {
    hide Bound;
    if Consumes(w, t, o) { assert KnownCode(c', w, t.request.token.code); }
  }

  lemma StoreRefreshMoves(k: Primitives, c': Config, tid: nat, t: Thread, t': Thread, w: World, h: History, o: Oracle)
    requires Moved(k, c', tid, t, t', w, h, o)
    requires t.pc.GrantAt? && t.pc.grant.StoreRefresh?
    requires t'.pc == GrantStep(k, w, t.request.token, t.pc.grant, o).1
    ensures ThreadOk(k, c', tid, t')
  {
    hide Claimed;
  }

  lemma AuthorizeChecks(k: Primitives, c': Config, tid: nat, t: Thread, t': Thread, w: World, h: History, o: Oracle)
    requires Moved(k, c', tid, t, t', w, h, o)
    requires t.pc.AuthorizeAt? && (t.pc.authorize.LookUpClient? || t.pc.authorize.FindSession?)
    requires t'.pc == AuthorizeStep(w, t.request.authorize, t.request.sessionID, t.pc.authorize, o).1
    ensures ThreadOk(k, c', tid, t')
  {
    Scopes.FieldsAreTokens(t.request.authorize.scope);
    hide Scopes.Fields, Scopes.AllTokens, Find, Note, KnownCode, RowKnown, SessionSeen;
  }

  lemma AuthorizeIssues(k: Primitives, c': Config, tid: nat, t: Thread, t': Thread, w: World, h: History, o: Oracle)
    requires Moved(k, c', tid, t, t', w, h, o)
    requires t.pc.AuthorizeAt? && (t.pc.authorize.DrawCode? || t.pc.authorize.StoreCode?)
    requires t'.pc == AuthorizeStep(w, t.request.authorize, t.request.sessionID, t.pc.authorize, o).1
    ensures ThreadOk(k, c', tid, t')
  {
    assert DrawnBy(c', Base64Url.Encode(o.random), tid);
    hide Scopes.Fields, Scopes.AllTokens, Find, Known;
  }

  lemma LoginMoves(k: Primitives, c': Config, tid: nat, t: Thread, t': Thread, w: World, h: History, o: Oracle)
    requires Moved(k, c', tid, t, t', w, h, o)
    requires t.pc.LoginAt?
    requires t'.pc == LoginStep(k, w, t.request.email, t.request.password, t.pc.login, o).1
    ensures ThreadOk(k, c', tid, t')
  {
    UserByEmailFinds(w.users, t.request.email);
    hide UserByEmail, RowKnown, KnownSession, KnownCode;
  }

  lemma RefreshMoves(k: Primitives, c': Config, tid: nat, t: Thread, t': Thread, w: World, h: History, o: Oracle)
    requires Moved(k, c', tid, t, t', w, h, o)
    requires t.pc.RefreshAt?
    requires t'.pc == RefreshStep(k, w, t.request.rawToken, t.pc.refresh, o).1
    ensures ThreadOk(k, c', tid, t')
  {}

  lemma RegisterMoves(k: Primitives, c': Config, tid: nat, t: Thread, t': Thread, w: World, h: History, o: Oracle)
    requires Moved(k, c', tid, t, t', w, h, o)
    requires t.pc.RegisterAt?
    requires t'.pc == RegisterStep(k, w, t.request.email, t.request.password, t.pc.register, o).1
    ensures ThreadOk(k, c', tid, t')
  {}

  /** The answer and the stored row agree. */
  lemma NewClientOk(k: Primitives, req: RegisterClientRequest, o: Oracle)
    requires k.Valid() && |o.random| == 32
    ensures var (client, response) := NewClient(k, req, o);
            client.id == o.uuid && response.clientID == o.uuid && CreatedOk(k, req, client, response)
  {
    SecretFits(o.random);
  }

  lemma RegisterClientMoves(k: Primitives, c': Config, tid: nat, t: Thread, t': Thread, w: World, h: History, o: Oracle)
    requires Moved(k, c', tid, t, t', w, h, o) && k.Valid() && |o.random| == 32
    requires t.pc.RegisterClientAt?
    requires t'.pc == RegisterClientStep(k, w, t.request.client, o).1
    requires c'.w.clients == RegisterClientStep(k, w, t.request.client, o).0.clients
    ensures ThreadOk(k, c', tid, t')
  {
    NewClientOk(k, t.request.client, o);
    hide Known, Note, NewClient, CreatedOk, FirstOffence;
  }

  lemma RunMoves(k: Primitives, c: Config, tid: nat, o: Oracle)
    requires Inv(k, c) && Enabled(k, c, Run(tid, o))
    ensures var c' := Apply(k, c, Run(tid, o));
            Moved(k, c', tid, c.threads[tid], c'.threads[tid], c.w, c.h, o)
  {
    var c' := Taking(k, c, tid, o);
    assert DrawnBy(c', o.uuid, tid) && DrawnBy(c', Base64Url.Encode(o.random), tid) by {
      DrawsRecorded(k, c, tid, o);
    }
    ItIsKnown(k, c, c', tid, o);
    hide Inv, ThreadOk, Known, Grows, Note, Enabled, Apply, Stepped;
  }

  lemma DrawsRecorded(k: Primitives, c: Config, tid: nat, o: Oracle)
    requires Enabled(k, c, Run(tid, o))
    ensures var c' := Apply(k, c, Run(tid, o));
            DrawnBy(c', o.uuid, tid) && DrawnBy(c', Base64Url.Encode(o.random), tid)
  {
    RunIsAfter(k, c, tid, o);
    hide Apply, Stepped;
  }

  lemma ThreadStepOk(k: Primitives, c: Config, tid: nat, o: Oracle)
    requires k.Valid() && Inv(k, c) && Enabled(k, c, Run(tid, o))
    ensures var c' := Apply(k, c, Run(tid, o)); ThreadOk(k, c', tid, c'.threads[tid])
  {
    RunMoves(k, c, tid, o);
    var c' := Apply(k, c, Run(tid, o));
    var t, t', w, h := c.threads[tid], c'.threads[tid], c.w, c.h;
    assert |o.random| == 32;
    RunIsAfter(k, c, tid, o);
    hide Inv, ThreadOk, Known, Note, Enabled, Apply;
    if Fallible(t.request, t.pc) && o.fail {
      hide Fallible;
      assert t'.started <= t'.mark <= c'.w.now by { TimesOk(k, c', tid, t, t', w, h, o); }
      FailedOk(k, c', tid, t');
    } else {
      match t.pc
      case GrantAt(g) =>
        if g.ConsumeCode? { ConsumeMoves(k, c', tid, t, t', w, h, o); }
        else if g.StoreRefresh? { StoreRefreshMoves(k, c', tid, t, t', w, h, o); }
        else { GrantMoves(k, c', tid, t, t', w, h, o); }
      case AuthorizeAt(a) =>
        if a.LookUpClient? || a.FindSession? { AuthorizeChecks(k, c', tid, t, t', w, h, o); }
        else { AuthorizeIssues(k, c', tid, t, t', w, h, o); }
      case LoginAt(l) => LoginMoves(k, c', tid, t, t', w, h, o);
      case LogoutAt => TimesOk(k, c', tid, t, t', w, h, o); LoggedOutOk(k, c', tid, t');
      case RefreshAt(r) => RefreshMoves(k, c', tid, t, t', w, h, o);
      case RegisterAt(r) => RegisterMoves(k, c', tid, t, t', w, h, o);
      case RegisterClientAt => RegisterClientMoves(k, c', tid, t, t', w, h, o);
      case Done(_) => assert t' == t;
    }
  }

  lemma TimesOk(k: Primitives, c': Config, tid: nat, t: Thread, t': Thread, w: World, h: History, o: Oracle)
    requires Moved(k, c', tid, t, t', w, h, o)
    ensures t'.started <= t'.mark <= c'.w.now
  {}

  lemma LoggedOutOk(k: Primitives, c: Config, tid: nat, t: Thread)
    requires t.pc == Done(LoggedOut) && t.started <= t.mark <= c.w.now
    ensures ThreadOk(k, c, tid, t)
  {}
}
