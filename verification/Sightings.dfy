/** What authorizations saw when they looked something up. A lookup that finds nothing leaves no record,
    so it is told from the run itself; and the answers that rest on it are tied to it. */
module Sightings {
  import opened Entities
  import opened Crypto
  import opened Store
  import opened Tables
  import opened Protocol
  import opened Machine
  import opened Growth

  datatype Sighting =
    | ClientMissing(requester: nat)
    | SessionMissing(requester: nat)
    | SessionFound(requester: nat, id: string, at: int)

  /** The lookup of the session, if it is made in world `w`, finds a session. */
  predicate Serves(w: World, id: string) {
    id != "" && Find(w.entries, SessionKey(id), w.now).Some?
    && Find(w.entries, SessionKey(id), w.now).value.SessionPayload?
  }

  /** The lookup finds nothing, or is not made for want of an id. */
  predicate Lacks(w: World, id: string) {
    id == "" || Find(w.entries, SessionKey(id), w.now).None?
  }

  /** The action is the lookup in question, it gets through, and this is what it sees. */
  ghost predicate Sees(k: Primitives, c: Config, a: Action, s: Sighting) {
    && a.Run? && a.tid == s.requester && Enabled(k, c, a)
    && var t := c.threads[a.tid];
    && t.pc.AuthorizeAt? && !(Fallible(t.request, t.pc) && a.oracle.fail)
    && match s
       case ClientMissing(_) => t.pc.authorize.LookUpClient? && t.request.authorize.clientID !in c.w.clients
       case SessionMissing(_) => t.pc.authorize.FindSession? && Lacks(c.w, t.request.sessionID)
       case SessionFound(_, id, at) =>
         t.pc.authorize.FindSession? && id == t.request.sessionID && at == c.w.now && Serves(c.w, id)
  }

  ghost predicate Seen(k: Primitives, c: Config, actions: seq<Action>, s: Sighting)
    requires CanRun(k, c, actions)
    decreases |actions|
  {
    actions != [] && (Sees(k, c, actions[0], s) || Seen(k, Apply(k, c, actions[0]), actions[1..], s))
  }

  /** The request is where only such a sighting can have led it. */
  predicate Shows(t: Thread, s: Sighting) {
    match s
    case ClientMissing(_) => t.pc == Done(Authorized(Rejection(UNKNOWN_CLIENT)))
    case SessionMissing(_) => t.pc.Done? && t.pc.outcome.Authorized? && AsksForLogin(t.pc.outcome.decision)
    case SessionFound(_, id, at) =>
      && t.request.Authorize? && t.request.sessionID == id && t.mark == at
      && ((t.pc.AuthorizeAt? && (t.pc.authorize.DrawCode? || t.pc.authorize.StoreCode?)) ||
          (t.pc.Done? && t.pc.outcome.Authorized? && t.pc.outcome.decision.action == IssueCode))
  }

  predicate AsksForLogin(r: AuthorizeResult) {
    r.action == RequireLogin || (r.action == ErrorToClient && r.oauthError == "login_required")
  }

  ghost predicate Shown(c: Config, s: Sighting) {
    s.requester in c.threads && Shows(c.threads[s.requester], s)
  }

  // ---------------------------------------------------------------- one step

  lemma MessagesDiffer()
    ensures UNKNOWN_CLIENT != UNREGISTERED_TARGET
    ensures "invalid_scope" != "login_required" && "invalid_request" != "login_required"
  {
    assert |UNKNOWN_CLIENT| < |UNREGISTERED_TARGET|;
    assert "invalid_scope"[0] == 'i' && "invalid_request"[0] == 'i' && "login_required"[0] == 'l';
  }

  /** Only authorizations answer with an authorization result. */
  lemma OthersDoNotAuthorize(k: Primitives, w: World, t: Thread, o: Oracle)
    requires !t.pc.AuthorizeAt?
    ensures var pc' := Advance(k, w, t.request, t.pc, o).1;
            pc' == t.pc || (!pc'.AuthorizeAt? && (pc'.Done? ==> !pc'.outcome.Authorized?))
  {
    hide Find, Bound, Authenticates, FirstOffence, NewClient, UserByEmail;
    match t.pc
    case GrantAt(g) =>
    case AuthorizeAt(a) =>
    case LoginAt(l) =>
    case LogoutAt =>
    case RefreshAt(r) =>
    case RegisterAt(r) =>
    case RegisterClientAt =>
    case Done(_) =>
  }

  /** The two lookups of an authorization, and what they lead to. */
  lemma LookupShows(w: World, req: AuthorizeRequest, sessionID: string, a: AuthorizePc, o: Oracle)
    ensures var pc' := AuthorizeStep(w, req, sessionID, a, o).1;
            && (pc' == Done(Authorized(Rejection(UNKNOWN_CLIENT))) <==>
                a.LookUpClient? && req.clientID !in w.clients)
            && (pc'.Done? && pc'.outcome.Authorized? && AsksForLogin(pc'.outcome.decision) <==>
                a.FindSession? && Lacks(w, sessionID))
            && (pc'.AuthorizeAt? && pc'.authorize.DrawCode? <==> a.FindSession? && Serves(w, sessionID))
            && (pc'.AuthorizeAt? && pc'.authorize.StoreCode? <==> a.DrawCode?)
            && (pc'.Done? && pc'.outcome.Authorized? && pc'.outcome.decision.action == IssueCode <==> a.StoreCode?)
  {
    MessagesDiffer();
    hide Scopes.Fields, Find, Put;
  }

  /** Whether the request shows the sighting after its step: it did before, or the step is the sighting.
      A code may still fail to be issued after its session was found. */
  lemma StepShows(k: Primitives, c: Config, tid: nat, o: Oracle, s: Sighting)
    requires Enabled(k, c, Run(tid, o)) && s.requester == tid
    ensures Shown(Apply(k, c, Run(tid, o)), s) ==> Shown(c, s) || Sees(k, c, Run(tid, o), s)
    ensures !s.SessionFound? && (Shown(c, s) || Sees(k, c, Run(tid, o), s)) ==> Shown(Apply(k, c, Run(tid, o)), s)
  {
    var t := c.threads[tid];
    RunIsAfter(k, c, tid, o);
    if t.pc.AuthorizeAt? {
      LookupShows(c.w, t.request.authorize, t.request.sessionID, t.pc.authorize, o);
    } else {
      OthersDoNotAuthorize(k, c.w, t, o);
      assert t.pc.Done? ==> Advance(k, c.w, t.request, t.pc, o).1 == t.pc;
    }
    hide AuthorizeStep, GrantStep, LoginStep, RefreshStep, RegisterStep, RegisterClientStep, LogoutStep;
    hide Enabled, Apply, Note, Serves, Lacks, AsksForLogin;
  }

  lemma ActionShows(k: Primitives, c: Config, a: Action, s: Sighting)
    requires Enabled(k, c, a)
    ensures Shown(Apply(k, c, a), s) ==> Shown(c, s) || Sees(k, c, a, s)
    ensures !s.SessionFound? && (Shown(c, s) || Sees(k, c, a, s)) ==> Shown(Apply(k, c, a), s)
  {
    if a.Run? && a.tid == s.requester {
      StepShows(k, c, a.tid, a.oracle, s);
      hide Enabled, Apply, Shown, Sees;
    } else {
      if a.Run? { RunIsAfter(k, c, a.tid, a.oracle); }
      hide Advance, Note, AsksForLogin;
    }
  }

  // ---------------------------------------------------------------- every run

  /** What a request shows at the end of a run it has seen in the run, and conversely for the lookups that
      found nothing, as nothing can fail after those. */
  lemma {:induction false} ShownIsSeen(k: Primitives, c: Config, actions: seq<Action>, s: Sighting)
    requires CanRun(k, c, actions)
    ensures Shown(Exec(k, c, actions), s) ==> Shown(c, s) || Seen(k, c, actions, s)
    ensures !s.SessionFound? && (Shown(c, s) || Seen(k, c, actions, s)) ==> Shown(Exec(k, c, actions), s)
    decreases |actions|
  {
    hide Enabled, Apply, Shown, Sees;
    if actions != [] {
      ActionShows(k, c, actions[0], s);
      ShownIsSeen(k, Apply(k, c, actions[0]), actions[1..], s);
    }
  }
}
