/** What an authorization request is told, and where it may be redirected. */
module Decision {
  import opened Prelude
  import opened Entities
  import opened Crypto
  import opened Store
  import opened Tables
  import opened Protocol
  import opened Machine
  import opened Invariants
  import opened Growth
  import opened Preservation
  import opened Safety
  import opened Provenance
  import opened Sightings
  import Scopes

  // ---------------------------------------------------------------- the four conditions

  /** The client exists and registered exactly this redirect target. */
  predicate Trusted(clients: Clients, req: AuthorizeRequest) {
    req.clientID in clients && req.redirectURI in clients[req.clientID].redirectURIs
  }

  /** At least one scope is asked for, and the client registered every one of them. */
  predicate ScopeGranted(clients: Clients, req: AuthorizeRequest) {
    && req.clientID in clients
    && Scopes.Fields(req.scope) != []
    && forall s :: s in Scopes.Fields(req.scope) ==> s in clients[req.clientID].scopes
  }

  /** No login page may be shown. */
  predicate Silent(req: AuthorizeRequest) {
    "none" in Scopes.Fields(req.prompt)
  }

  /** "none" does not stand alone. */
  predicate PromptConflict(req: AuthorizeRequest) {
    Silent(req) && Scopes.Fields(req.prompt) != ["none"]
  }

  /** The answer is the one the conditions call for. Only two of the four actions carry a redirect
      target, and then it is the registered one that was asked for. What depends on an instant, that the
      client was unknown or that no session was found, is told from the run (`EveryDecision`). */
  ghost predicate Decided(clients: Clients, req: AuthorizeRequest, r: AuthorizeResult) {
    && (r.action == RejectDirect ==>
          || r == AuthorizeResult(RejectDirect, "", "", "", "", "unknown client_id")
          || (r == AuthorizeResult(RejectDirect, "", "", "", "", "redirect_uri is not registered for this client")
              && req.clientID in clients
              && req.redirectURI !in clients[req.clientID].redirectURIs))
    && (r.action != RejectDirect ==> Trusted(clients, req))
    && (r.action == RequireLogin ==> ScopeGranted(clients, req) && !Silent(req))
    && (r.action == IssueCode ==> ScopeGranted(clients, req) && !PromptConflict(req))
    && (r.action == ErrorToClient ==>
          && (r.oauthError == "invalid_scope" || r.oauthError == "invalid_request" || r.oauthError == "login_required")
          && (r.oauthError == "invalid_scope" <==> !ScopeGranted(clients, req))
          && (r.oauthError == "invalid_request" <==> ScopeGranted(clients, req) && PromptConflict(req))
          && (r.oauthError == "login_required" <==>
                ScopeGranted(clients, req) && Scopes.Fields(req.prompt) == ["none"]))
    && (match r.action
        case RequireLogin => r == AuthorizeResult(RequireLogin, "", "", "", "", "")
        case IssueCode => r == AuthorizeResult(IssueCode, req.redirectURI, req.state, r.code, "", "")
        case ErrorToClient => r == AuthorizeResult(ErrorToClient, req.redirectURI, req.state, "", r.oauthError, "")
        case RejectDirect => true)
  }

  /** A request that is still being decided has passed the checks behind it. */
  ghost predicate OnTheWay(clients: Clients, req: AuthorizeRequest, a: AuthorizePc) {
    a.LookUpClient? ||
    (Trusted(clients, req) && ScopeGranted(clients, req) && !PromptConflict(req)
     && (a.FindSession? ==> a.promptNone == Silent(req)))
  }

  ghost predicate PcDecided(clients: Clients, request: Request, pc: Pc)
    requires request.Authorize?
  {
    && (pc.AuthorizeAt? ==> OnTheWay(clients, request.authorize, pc.authorize))
    && (pc.Done? ==>
          pc.outcome.Failed? || (pc.outcome.Authorized? && Decided(clients, request.authorize, pc.outcome.decision)))
  }

  // ---------------------------------------------------------------- one step

  lemma Alone(words: seq<string>)
    requires "none" in words
    ensures |words| > 1 <==> words != ["none"]
  {}

  /** The registry lookup rejects exactly the untrusted requests, without a redirect. */
  lemma LookupRejects(w: World, req: AuthorizeRequest, sessionID: string, o: Oracle)
    ensures var pc' := AuthorizeStep(w, req, sessionID, LookUpClient, o).1;
            && PcDecided(w.clients, Authorize(req, sessionID), pc')
            && ((pc'.Done? && pc'.outcome.Authorized? && pc'.outcome.decision.action == RejectDirect) <==>
                  !Trusted(w.clients, req))
            && (pc'.AuthorizeAt? <==> Trusted(w.clients, req) && ScopeGranted(w.clients, req) && !PromptConflict(req))
  {
    if Silent(req) { Alone(Scopes.Fields(req.prompt)); }
    hide Scopes.Fields;
  }

  /** No cookie finds anything but a live session. */
  lemma CookieFinds(w: World, sessionID: string)
    requires Typed(w.entries)
    ensures var sessions := SessionsOf(w.entries, w.now);
            SessionByID(w, sessionID) ==
            if sessionID != "" && sessionID in sessions then Some(SessionPayload(sessions[sessionID].value)) else None
  {
    FindIsTypedLookup(w.entries, w.now, sessionID);
    hide SessionsOf, Find, Typed, SessionKey, CodeKey;
  }

  lemma RefusedForLackOfSession(clients: Clients, req: AuthorizeRequest, sessionID: string, a: AuthorizePc)
    requires a.FindSession? && OnTheWay(clients, req, a)
    ensures PcDecided(clients, Authorize(req, sessionID),
                      Done(Authorized(if a.promptNone then ErrorToRedirect(req, "login_required")
                                      else AuthorizeResult(RequireLogin, "", "", "", "", ""))))
  {
    hide Scopes.Fields, Trusted, ScopeGranted;
  }

  /** The session lookup lets the request go on exactly when a live session stands behind the cookie,
      and then with that session. */
  lemma SessionDecides(w: World, req: AuthorizeRequest, sessionID: string, a: AuthorizePc, o: Oracle)
    requires Typed(w.entries) && a.FindSession? && OnTheWay(w.clients, req, a)
    ensures var pc' := AuthorizeStep(w, req, sessionID, a, o).1;
            var sessions := SessionsOf(w.entries, w.now);
            && PcDecided(w.clients, Authorize(req, sessionID), pc')
            && (pc'.AuthorizeAt? <==> sessionID != "" && sessionID in sessions)
            && (pc'.AuthorizeAt? ==> pc'.authorize.DrawCode? && pc'.authorize.session == sessions[sessionID].value)
            && (!pc'.AuthorizeAt? ==>
                  pc'.Done? && pc'.outcome.Authorized? &&
                  pc'.outcome.decision.action == (if Silent(req) then ErrorToClient else RequireLogin))
  {
    CookieFinds(w, sessionID);
    RefusedForLackOfSession(w.clients, req, sessionID, a);
    hide Decided, SessionsOf, SessionByID, Typed, Silent, Trusted, ScopeGranted, PromptConflict;
  }

  lemma StepDecided(k: Primitives, w: World, t: Thread, o: Oracle)
    requires t.request.Authorize? && PcDecided(w.clients, t.request, t.pc)
    ensures PcDecided(w.clients, t.request, Advance(k, w, t.request, t.pc, o).1)
  {
    var req := t.request.authorize;
    if t.pc.AuthorizeAt? && t.pc.authorize.LookUpClient? {
      LookupRejects(w, req, t.request.sessionID, o);
      hide AuthorizeStep;
    } else {
      if Silent(req) { Alone(Scopes.Fields(req.prompt)); }
      hide Scopes.Fields, Find, Put;
    }
  }

  lemma DecidedGrows(clients: Clients, clients': Clients, request: Request, pc: Pc)
    requires request.Authorize? && Extends(clients, clients') && PcDecided(clients, request, pc)
    ensures PcDecided(clients', request, pc)
  {
    hide Scopes.Fields;
  }

  // ---------------------------------------------------------------- every run

  ghost predicate AllDecided(c: Config) {
    forall tid :: tid in c.threads && c.threads[tid].request.Authorize? ==>
      PcDecided(c.w.clients, c.threads[tid].request, c.threads[tid].pc)
  }

  lemma ThreadDecided(k: Primitives, c: Config, a: Action, tid: nat)
    requires Enabled(k, c, a) && AllDecided(c)
    requires tid in Apply(k, c, a).threads && Apply(k, c, a).threads[tid].request.Authorize?
    ensures PcDecided(c.w.clients, Apply(k, c, a).threads[tid].request, Apply(k, c, a).threads[tid].pc)
  {
    if a.Run? && a.tid == tid {
      RunIsAfter(k, c, tid, a.oracle);
      StepDecided(k, c.w, c.threads[tid], a.oracle);
      hide Enabled, Apply, Advance, Note, PcDecided;
    } else if tid in c.threads {
      OtherStepsLeaveIt(k, c, a, tid);
      hide Apply, PcDecided;
    } else {
      hide Advance, Note, Decided, Trusted, ScopeGranted, PromptConflict;
    }
  }

  lemma ActionDecided(k: Primitives, c: Config, a: Action)
    requires Inv(k, c) && Enabled(k, c, a) && AllDecided(c)
    ensures AllDecided(Apply(k, c, a))
  {
    var c' := Apply(k, c, a);
    ActionGrows(k, c, a);
    assert Extends(c.w.clients, c'.w.clients);
    hide Inv, Enabled, Apply, Grows, PcDecided;
    forall tid | tid in c'.threads && c'.threads[tid].request.Authorize?
      ensures PcDecided(c'.w.clients, c'.threads[tid].request, c'.threads[tid].pc)
    {
      ThreadDecided(k, c, a, tid);
      DecidedGrows(c.w.clients, c'.w.clients, c'.threads[tid].request, c'.threads[tid].pc);
    }
  }

  lemma {:induction false} RunsDecided(k: Primitives, c: Config, actions: seq<Action>)
    requires k.Valid() && Inv(k, c) && CanRun(k, c, actions) && AllDecided(c)
    ensures AllDecided(Exec(k, c, actions))
    decreases |actions|
  {
    hide Inv, Enabled, Apply, AllDecided;
    if actions != [] {
      ActionInv(k, c, actions[0]);
      ActionDecided(k, c, actions[0]);
      RunsDecided(k, Apply(k, c, actions[0]), actions[1..]);
    }
  }

  // ---------------------------------------------------------------- an answer for every request

  /** The authorization has not been cut off by an error. */
  predicate Unbroken(t: Thread) {
    t.request.Authorize? && t.pc.Done? ==> !t.pc.outcome.Failed?
  }

  lemma ChecksDoNotFail(w: World, req: AuthorizeRequest, id: string, a: AuthorizePc, o: Oracle)
    requires var found := Find(w.entries, SessionKey(id), w.now); found.Some? ==> found.value.SessionPayload?
    ensures var pc' := AuthorizeStep(w, req, id, a, o).1;
            pc'.Done? ==> !pc'.outcome.Failed?
  {
    hide Find, Put, Scopes.Fields, SessionKey;
  }

  /** No check of an authorization ends in an error: only a call that fails does. In particular there is
      never a code under the key of a session. */
  lemma StepUnbroken(k: Primitives, c: Config, tid: nat, o: Oracle)
    requires Inv(k, c) && Enabled(k, c, Run(tid, o)) && !o.fail && Unbroken(c.threads[tid])
    ensures Unbroken(Apply(k, c, Run(tid, o)).threads[tid])
  {
    var t := c.threads[tid];
    RunIsAfter(k, c, tid, o);
    if t.pc.AuthorizeAt? {
      var id := t.request.sessionID;
      if Find(c.w.entries, SessionKey(id), c.w.now).Some? { FoundSession(k, c, id); }
      ChecksDoNotFail(c.w, t.request.authorize, id, t.pc.authorize, o);
    }
    hide Inv, Enabled, Apply, Note, Find, AuthorizeStep, SessionKey;
  }

  lemma {:induction false} RunsUnbroken(k: Primitives, c: Config, actions: seq<Action>, tid: nat)
    requires k.Valid() && Inv(k, c) && CanRun(k, c, actions) && NoCallFails(actions, tid)
    requires tid in c.threads ==> Unbroken(c.threads[tid])
    ensures tid in Exec(k, c, actions).threads ==> Unbroken(Exec(k, c, actions).threads[tid])
    decreases |actions|
  {
    if actions != [] {
      var a, c1 := actions[0], Apply(k, c, actions[0]);
      RestCallsSucceed(actions, tid);
      ActionInv(k, c, a);
      if a.Run? && a.tid == tid {
        hide Inv, Enabled, Apply, Unbroken, NoCallFails;
        StepUnbroken(k, c, tid, a.oracle);
        RunsUnbroken(k, c1, actions[1..], tid);
      } else {
        if tid in c.threads { OtherStepsLeaveIt(k, c, a, tid); }
        assert tid in c1.threads ==> Unbroken(c1.threads[tid]) by { hide Inv, Advance, Note; }
        hide Inv, Enabled, Apply, Unbroken, NoCallFails;
        RunsUnbroken(k, c1, actions[1..], tid);
      }
    }
  }

  /** Every authorization that any run has answered was answered as the conditions call for, judged by
      the registry as it is now: the registry only grows and no client is rewritten. The client was
      called unknown exactly when it was missing at the lookup; a login was asked for exactly when no
      session was found at the lookup; and a code was issued only after one was found. An error in place
      of an answer means that one of the request's own calls has failed. */
  lemma {:induction false} EveryDecision(k: Primitives, now: int, actions: seq<Action>, tid: nat)
    requires k.Valid() && CanRun(k, Initial(now), actions)
    requires var c := Exec(k, Initial(now), actions);
             tid in c.threads && c.threads[tid].request.Authorize? && c.threads[tid].pc.Done?
    ensures var c := Exec(k, Initial(now), actions);
            var t, outcome := c.threads[tid], c.threads[tid].pc.outcome;
            && (outcome.Failed? || (outcome.Authorized? && Decided(c.w.clients, t.request.authorize, outcome.decision)))
            && (NoCallFails(actions, tid) ==> outcome.Authorized?)
            && ((outcome.Authorized? && outcome.decision.message == "unknown client_id") <==>
                Seen(k, Initial(now), actions, ClientMissing(tid)))
            && ((outcome.Authorized? && AsksForLogin(outcome.decision)) <==>
                Seen(k, Initial(now), actions, SessionMissing(tid)))
            && (outcome.Authorized? && outcome.decision.action == IssueCode ==>
                  && Seen(k, Initial(now), actions, SessionFound(tid, t.request.sessionID, t.mark))
                  && outcome.decision.code in c.h.grants
                  && c.h.grants[outcome.decision.code].tid == tid
                  && c.h.grants[outcome.decision.code].lookedUpAt == t.mark
                  && SessionServed(c, t))
  {
    var c := Exec(k, Initial(now), actions);
    var t := c.threads[tid];
    InitialInv(k, now);
    ReachableInv(k, now, actions);
    RunsDecided(k, Initial(now), actions);
    if NoCallFails(actions, tid) { RunsUnbroken(k, Initial(now), actions, tid); }
    ShownIsSeen(k, Initial(now), actions, ClientMissing(tid));
    ShownIsSeen(k, Initial(now), actions, SessionMissing(tid));
    ShownIsSeen(k, Initial(now), actions, SessionFound(tid, t.request.sessionID, t.mark));
    assert PcDecided(c.w.clients, t.request, t.pc);
    if t.pc.outcome.Authorized? && t.pc.outcome.decision.action == IssueCode {
      IssuedAfterLookup(k, c, tid);
    }
    hide Inv, Decided, Seen, SessionServed, AllDecided, NoCallFails;
  }

  /** In every run, an authorization that asks for scopes which its client registered, scope tokens with single
      spaces between them, is never told that its scope is invalid. */
  lemma {:induction false} RegisteredScopesAreAccepted(k: Primitives, now: int, actions: seq<Action>, tid: nat)
    requires k.Valid() && CanRun(k, Initial(now), actions)
    requires var c := Exec(k, Initial(now), actions);
             && tid in c.threads && c.threads[tid].request.Authorize? && c.threads[tid].pc.Done?
             && c.threads[tid].pc.outcome.Authorized?
             && c.threads[tid].request.authorize.clientID in c.w.clients
             && Scopes.Names(c.w.clients[c.threads[tid].request.authorize.clientID].scopes,
                             c.threads[tid].request.authorize.scope)
    ensures Exec(k, Initial(now), actions).threads[tid].pc.outcome.decision.oauthError != "invalid_scope"
  {
    var c := Exec(k, Initial(now), actions);
    var req := c.threads[tid].request.authorize;
    EveryDecision(k, now, actions, tid);
    Scopes.NamedAreRead(c.w.clients[req.clientID].scopes, req.scope);
    assert ScopeGranted(c.w.clients, req);
    hide Trusted, ScopeGranted, PromptConflict, Silent;
  }

  /** The session behind the request is on record, and its lookup fell within its lifetime. */
  ghost predicate SessionServed(c: Config, t: Thread)
    requires t.request.Authorize?
  {
    && t.request.sessionID in c.h.logins
    && SessionSeen(c, t.request.sessionID, c.h.logins[t.request.sessionID].session, t.mark)
  }

  lemma IssuedAfterLookup(k: Primitives, c: Config, tid: nat)
    requires Inv(k, c) && tid in c.threads && c.threads[tid].request.Authorize? && c.threads[tid].pc.Done?
    requires c.threads[tid].pc.outcome.Authorized? && c.threads[tid].pc.outcome.decision.action == IssueCode
    ensures var code := c.threads[tid].pc.outcome.decision.code;
            code in c.h.grants && c.h.grants[code].tid == tid && c.h.grants[code].lookedUpAt == c.threads[tid].mark
    ensures SessionServed(c, c.threads[tid])
  {
    assert ThreadOk(k, c, tid, c.threads[tid]);
    assert CodeOk(c, c.threads[tid].pc.outcome.decision.code);
    hide Inv, Allowed;
  }

  /** The redirect target of a code is still registered for its client when the code is redeemed, and
      ever after. */
  lemma {:induction false} RedeemedTargetIsRegistered(k: Primitives, now: int, actions: seq<Action>, tid: nat)
    requires k.Valid() && CanRun(k, Initial(now), actions)
    requires var c := Exec(k, Initial(now), actions);
             tid in c.threads && c.threads[tid].pc.Done? && c.threads[tid].pc.outcome.Tokens?
    ensures var c := Exec(k, Initial(now), actions);
            && c.threads[tid].request.Exchange?
            && var req := c.threads[tid].request.token;
               && req.clientID in c.w.clients && req.redirectURI in c.w.clients[req.clientID].redirectURIs
  {
    var c := Exec(k, Initial(now), actions);
    ReachableInv(k, now, actions);
    assert ThreadOk(k, c, tid, c.threads[tid]);
    MintLeadsBack(k, c, tid);
  }
}
