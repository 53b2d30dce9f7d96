/** Logging out is final, and so is the expiry of a session. */
module SessionEnd {
  import opened Entities
  import opened Crypto
  import opened Store
  import opened Protocol
  import opened Machine
  import opened Invariants
  import opened Growth
  import opened Preservation
  import opened Effects
  import opened Safety

  /** A login stored the session, and no lookup finds it any more. */
  ghost predicate Ended(c: Config, id: string) {
    id in c.h.logins && Find(c.w.entries, SessionKey(id), c.w.now).None?
  }

  /** The request has looked its session up already. */
  ghost predicate PastLookup(c: Config, tid: nat) {
    tid in c.threads &&
    (c.threads[tid].pc.Done? ||
     (c.threads[tid].pc.AuthorizeAt? && !c.threads[tid].pc.authorize.LookUpClient?
      && !c.threads[tid].pc.authorize.FindSession?))
  }

  /** The request has not been given a session. */
  predicate Unserved(pc: Pc) {
    && (pc.AuthorizeAt? ==> pc.authorize.LookUpClient? || pc.authorize.FindSession?)
    && (pc.Done? && pc.outcome.Authorized? ==> pc.outcome.decision.action != IssueCode)
  }

  predicate AsksUnder(request: Request, id: string) {
    request.Authorize? && request.sessionID == id
  }

  /** No request that looked up `id` only after `base` has been given a session. */
  ghost predicate NoneServedSince(base: Config, c: Config, id: string) {
    forall tid :: tid in c.threads && AsksUnder(c.threads[tid].request, id) && !PastLookup(base, tid) ==>
      Unserved(c.threads[tid].pc)
  }

  // ---------------------------------------------------------------- ending

  /** A session ends when a logout deletes it, whoever asked for it, ... */
  lemma LogoutEnds(k: Primitives, c: Config, tid: nat, o: Oracle)
    requires Inv(k, c) && Enabled(k, c, Run(tid, o))
    requires EndsSession(c.threads[tid], o) && c.threads[tid].request.sessionID in c.h.logins
    ensures Ended(Apply(k, c, Run(tid, o)), c.threads[tid].request.sessionID)
    ensures Apply(k, c, Run(tid, o)).threads[tid].pc == Done(LoggedOut)
  {
    RunShape(k, c, tid, o);
    RunIsAfter(k, c, tid, o);
    hide Inv, Enabled, Apply, Note;
  }

  /** ... and when its time is up. */
  lemma ExpiryEnds(k: Primitives, c: Config, id: string)
    requires Inv(k, c) && id in c.h.logins && c.h.logins[id].at + 2592000 < c.w.now
    ensures Ended(c, id)
  {
    if Find(c.w.entries, SessionKey(id), c.w.now).Some? { FoundSession(k, c, id); }
  }

  /** A logout takes that one session out of the typed view and leaves every other session and every
      code as it was; for an unknown or empty id nothing changes at all. */
  lemma LogoutEndsOnlyItsSession(w: World, sessionID: string)
    requires Typed(w.entries)
    ensures var w' := LogoutStep(w, sessionID).0;
            && (sessionID != "" ==> SessionsOf(w'.entries, w.now) == SessionsOf(w.entries, w.now) - {sessionID})
            && CodesOf(w'.entries, w.now) == CodesOf(w.entries, w.now)
            && (SessionKey(sessionID) !in w.entries || sessionID == "" ==> w' == w)
            && w' == w.(entries := w'.entries)
  {
    DropSession(w.entries, w.now, sessionID);
    hide SessionsOf, CodesOf;
  }

  // ---------------------------------------------------------------- ended for good

  lemma EndedAfterStep(k: Primitives, c: Config, c': Config, tid: nat, o: Oracle, id: string)
    requires StepShape(k, c, c', tid, o) && NotRecorded(c, tid, o, c'.threads[tid].pc) && Ended(c, id)
    ensures Ended(c', id)
  {
    var t, pc' := c.threads[tid], c'.threads[tid].pc;
    if Stores(t, pc') {
      assert t.pc.login.id != id;
      KeysApart(id, id);
      KeysApart(t.pc.login.id, "");
    } else if Grants(t, pc') {
      KeysApart(id, t.pc.authorize.code);
    }
    hide SessionKey, CodeKey, Note;
  }

  lemma EndedStays(k: Primitives, c: Config, a: Action, id: string)
    requires k.Valid() && Inv(k, c) && Enabled(k, c, a) && Ended(c, id)
    ensures Ended(Apply(k, c, a), id)
  {
    if a.Run? {
      var c' := Apply(k, c, a);
      RunShape(k, c, a.tid, a.oracle);
      RecordIsNew(k, c, a.tid, a.oracle, c'.threads[a.tid].pc);
      hide Inv, Enabled, Apply, StepShape, NotRecorded, Ended;
      EndedAfterStep(k, c, c', a.tid, a.oracle, id);
    } else {
      hide Inv;
    }
  }

  /** A lookup of an ended session finds nothing, so the request gets no session. */
  lemma LookupUnserved(w: World, req: AuthorizeRequest, sessionID: string, a: AuthorizePc, o: Oracle)
    requires Find(w.entries, SessionKey(sessionID), w.now).None?
    requires a.LookUpClient? || a.FindSession?
    ensures Unserved(AuthorizeStep(w, req, sessionID, a, o).1)
  {
    hide Scopes.Fields, Find;
  }

  lemma StepUnserved(k: Primitives, c: Config, tid: nat, o: Oracle, id: string)
    requires Enabled(k, c, Run(tid, o)) && Ended(c, id)
    requires AsksUnder(c.threads[tid].request, id) && Unserved(c.threads[tid].pc)
    ensures Unserved(Apply(k, c, Run(tid, o)).threads[tid].pc)
  {
    RunIsAfter(k, c, tid, o);
    var t := c.threads[tid];
    hide Enabled, Apply, Note, AuthorizeStep;
    if t.pc.AuthorizeAt? {
      LookupUnserved(c.w, t.request.authorize, t.request.sessionID, t.pc.authorize, o);
    }
  }

  lemma NoneServedStays(k: Primitives, base: Config, c: Config, a: Action, id: string)
    requires k.Valid() && Inv(k, c) && Enabled(k, c, a) && Ended(c, id) && NoneServedSince(base, c, id)
    ensures NoneServedSince(base, Apply(k, c, a), id)
  {
    var c' := Apply(k, c, a);
    if a.Run? {
      RunIsAfter(k, c, a.tid, a.oracle);
      if AsksUnder(c.threads[a.tid].request, id) && Unserved(c.threads[a.tid].pc) {
        StepUnserved(k, c, a.tid, a.oracle, id);
      }
      hide Inv, Apply, Enabled, Advance, Note, Unserved, PastLookup, AsksUnder;
    } else {
      hide Inv, PastLookup;
    }
  }

  lemma {:induction false} EndedForGood(k: Primitives, base: Config, c: Config, actions: seq<Action>, id: string)
    requires k.Valid() && Inv(k, c) && CanRun(k, c, actions) && Ended(c, id) && NoneServedSince(base, c, id)
    ensures Ended(Exec(k, c, actions), id) && NoneServedSince(base, Exec(k, c, actions), id)
    decreases |actions|
  {
    hide Inv, Enabled, Apply, Ended, NoneServedSince;
    if actions != [] {
      ActionInv(k, c, actions[0]);
      EndedStays(k, c, actions[0], id);
      NoneServedStays(k, base, c, actions[0], id);
      EndedForGood(k, base, Apply(k, c, actions[0]), actions[1..], id);
    }
  }

  lemma BaseServesNobody(k: Primitives, c: Config, id: string)
    requires Inv(k, c)
    ensures NoneServedSince(c, c, id)
  {
    forall tid | tid in c.threads && AsksUnder(c.threads[tid].request, id) && !PastLookup(c, tid)
      ensures Unserved(c.threads[tid].pc)
    {
      assert Fits(c.threads[tid].request, c.threads[tid].pc);
    }
  }

  /** Once a session has ended, in whatever run, it stays ended, and a code that is issued under it at
      any later time comes from a request that had looked the session up before. */
  lemma {:induction false} LogoutIsFinal(k: Primitives, now: int, pre: seq<Action>, post: seq<Action>, id: string)
    requires k.Valid() && CanRun(k, Initial(now), pre + post)
    requires CanRun(k, Initial(now), pre) && Ended(Exec(k, Initial(now), pre), id)
    ensures var base, c := Exec(k, Initial(now), pre), Exec(k, Initial(now), pre + post);
            && Ended(c, id)
            && (forall code :: code in c.h.grants && c.h.grants[code].sessionID == id ==>
                  PastLookup(base, c.h.grants[code].tid))
            && (forall tid :: tid in c.threads && AsksUnder(c.threads[tid].request, id) && !PastLookup(base, tid) ==>
                  Unserved(c.threads[tid].pc))
  {
    RunsCompose(k, Initial(now), pre, post);
    ReachableInv(k, now, pre);
    ReachableInv(k, now, pre + post);
    var base := Exec(k, Initial(now), pre);
    BaseServesNobody(k, base, id);
    var c := Exec(k, base, post);
    EndedForGood(k, base, base, post, id);
    forall code | code in c.h.grants && c.h.grants[code].sessionID == id
      ensures PastLookup(base, c.h.grants[code].tid)
    {
      assert CodeOk(c, code);
    }
  }

  lemma {:induction false} LogoutIssuesNothing(k: Primitives, now: int, pre: seq<Action>, post: seq<Action>, tid: nat)
    requires k.Valid() && CanRun(k, Initial(now), pre + post) && CanRun(k, Initial(now), pre)
    requires tid in Exec(k, Initial(now), pre).threads && Exec(k, Initial(now), pre).threads[tid].request.Logout?
    ensures var c := Exec(k, Initial(now), pre + post);
            forall code :: code in c.h.grants ==> c.h.grants[code].tid != tid
  {
    RunsCompose(k, Initial(now), pre, post);
    ReachableInv(k, now, pre);
    ReachableInv(k, now, pre + post);
    RunsGrow(k, Exec(k, Initial(now), pre), post);
    var c := Exec(k, Initial(now), pre + post);
    forall code | code in c.h.grants ensures c.h.grants[code].tid != tid { assert CodeOk(c, code); }
  }

  /** In particular, whatever is going on when a logout of a stored session gets through: in any
      continuation no lookup of that session succeeds again, and codes under it can only come from
      requests that had already looked it up. */
  lemma {:induction false} AfterLogout(k: Primitives, now: int, pre: seq<Action>, tid: nat, o: Oracle,
                                       post: seq<Action>)
    requires k.Valid() && CanRun(k, Initial(now), pre + [Run(tid, o)] + post) && CanRun(k, Initial(now), pre)
    requires var c := Exec(k, Initial(now), pre);
             && tid in c.threads && EndsSession(c.threads[tid], o) && c.threads[tid].request.sessionID in c.h.logins
    ensures var before, c := Exec(k, Initial(now), pre), Exec(k, Initial(now), pre + [Run(tid, o)] + post);
            var id := before.threads[tid].request.sessionID;
            && Find(c.w.entries, SessionKey(id), c.w.now).None?
            && (forall code :: code in c.h.grants && c.h.grants[code].sessionID == id ==>
                  PastLookup(before, c.h.grants[code].tid))
  {
    hide Inv, Enabled, Initial, Advance;
    assert pre + ([Run(tid, o)] + post) == pre + [Run(tid, o)] + post;
    LogoutIssuesNothing(k, now, pre, [Run(tid, o)] + post, tid);
    RunsCompose(k, Initial(now), pre + [Run(tid, o)], post);
    RunsCompose(k, Initial(now), pre, [Run(tid, o)]);
    ReachableInv(k, now, pre);
    var before := Exec(k, Initial(now), pre);
    assert CanRun(k, before, [Run(tid, o)]) && Exec(k, before, [Run(tid, o)]) == Apply(k, before, Run(tid, o));
    LogoutEnds(k, before, tid, o);
    RunIsAfter(k, before, tid, o);
    assert Apply(k, before, Run(tid, o)).threads == before.threads[tid := Apply(k, before, Run(tid, o)).threads[tid]];
    LogoutIsFinal(k, now, pre + [Run(tid, o)], post, before.threads[tid].request.sessionID);
  }

  // ---------------------------------------------------------------- the cookie

  /** The expiry that a login returns for its cookie is never earlier than the expiry of the stored
      session: by the time the browser drops the cookie the session is over. */
  lemma {:induction false} CookieCoversSession(k: Primitives, now: int, actions: seq<Action>, tid: nat)
    requires k.Valid() && CanRun(k, Initial(now), actions)
    requires var c := Exec(k, Initial(now), actions);
             tid in c.threads && c.threads[tid].pc.Done? && c.threads[tid].pc.outcome.LoggedIn?
    ensures var c := Exec(k, Initial(now), actions);
            var id, expiresAt := c.threads[tid].pc.outcome.sessionID, c.threads[tid].pc.outcome.expiresAt;
            && id in c.h.logins && c.h.logins[id].tid == tid
            && (SessionKey(id) in c.w.entries ==>
                  c.w.entries[SessionKey(id)].expiresAt.Some?
                  && c.w.entries[SessionKey(id)].expiresAt.value <= expiresAt)
            && (expiresAt < c.w.now ==> Ended(c, id))
  {
    var c := Exec(k, Initial(now), actions);
    ReachableInv(k, now, actions);
    assert ThreadOk(k, c, tid, c.threads[tid]);
    var id := c.threads[tid].pc.outcome.sessionID;
    KeysApart(id, id);
    assert EntryOk(c, SessionKey(id));
  }
}
