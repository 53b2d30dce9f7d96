/** When a request succeeds. Whatever else is going on, and as long as none of its own calls fails, it
    succeeds exactly if the shared state meets one condition at each of its steps, at the moment that
    step is taken. */
module Outcomes {
  import opened Prelude
  import opened Entities
  import opened Crypto
  import opened Store
  import opened Tables
  import opened Protocol
  import opened Machine
  import opened Answers
  import opened Invariants
  import opened Growth
  import opened Preservation
  import opened Effects
  import opened Safety
  import opened Sightings
  import opened Decision
  import Base64Url
  import Registration

  // ---------------------------------------------------------------- the conditions

  ghost predicate GrantCondition(k: Primitives, c: Config, req: TokenRequest, g: GrantPc) {
    match g
    case FindClient =>
      req.clientID in c.w.clients && var client := c.w.clients[req.clientID];
                                     client.secretHash == "" || k.matches(client.secretHash, req.clientSecret)
    case ConsumeCode(_) =>
      CodeUsable(c, req.code) && var data := c.h.grants[req.code].data;
                                 && req.clientID == data.clientID && req.redirectURI == data.redirectURI
                                 && data.challengeMethod == "S256"
                                 && data.challenge == Base64Url.Encode(k.sha256(req.codeVerifier))
    case FindUser(_, data) => data.userID in c.w.users
    case StoreRefresh(_, data, _, _, _) => data.userID in c.w.users
    case _ => true
  }

  /** The code was issued at most a minute ago and nobody has presented it. */
  ghost predicate CodeUsable(c: Config, code: string) {
    code in c.h.grants && code !in c.h.spent && c.w.now <= c.h.grants[code].at + 60
  }

  ghost predicate AuthorizeCondition(c: Config, req: AuthorizeRequest, sessionID: string, a: AuthorizePc) {
    match a
    case LookUpClient => Trusted(c.w.clients, req) && ScopeGranted(c.w.clients, req) && !PromptConflict(req)
    case FindSession(_, _, _) => Serves(c.w, sessionID)
    case _ => true
  }

  ghost predicate HasAccount(k: Primitives, users: Users, email: string, password: string) {
    exists id :: id in users && users[id].email == email && k.matches(users[id].passwordHash, password)
  }

  ghost predicate LoginCondition(k: Primitives, c: Config, email: string, password: string, l: LoginPc) {
    l.CheckPassword? ==> HasAccount(k, c.w.users, email, password)
  }

  ghost predicate HasRow(k: Primitives, rows: RefreshTokens, raw: string) {
    exists id :: id in rows && rows[id].tokenHash == HashToken(k, raw)
  }

  ghost predicate RefreshCondition(k: Primitives, c: Config, raw: string, r: RefreshPc) {
    match r
    case FindRow => HasRow(k, c.w.refreshTokens, raw)
    case CheckExpiry(row) => c.w.now <= row.expiresAt
    case FindOwner(row) => row.userID in c.w.users
    case _ => true
  }

  ghost predicate RegisterCondition(c: Config, email: string, password: string, r: RegisterPc) {
    && (forall id :: id in c.w.users ==> c.w.users[id].email != email)
    && (r.CheckEmail? ==> Utf8Length(password) <= 72)
  }

  /** What the next step of the request needs. */
  ghost predicate Condition(k: Primitives, c: Config, t: Thread) {
    match t.pc
    case GrantAt(g) => GrantCondition(k, c, t.request.token, g)
    case AuthorizeAt(a) => AuthorizeCondition(c, t.request.authorize, t.request.sessionID, a)
    case LoginAt(l) => LoginCondition(k, c, t.request.email, t.request.password, l)
    case LogoutAt => true
    case RefreshAt(r) => RefreshCondition(k, c, t.request.rawToken, r)
    case RegisterAt(r) => RegisterCondition(c, t.request.email, t.request.password, r)
    case RegisterClientAt =>
      forall i :: 0 <= i < |t.request.client.grantTypes| ==>
        t.request.client.grantTypes[i] == "authorization_code" || t.request.client.grantTypes[i] == "refresh_token"
    case Done(_) => true
  }

  /** What an authorization is told that fails the checks against the registry, the first of them first. */
  function RegistryRefusal(clients: Clients, req: AuthorizeRequest): AuthorizeResult {
    if req.clientID !in clients then AuthorizeResult(RejectDirect, "", "", "", "", "unknown client_id")
    else if !Trusted(clients, req) then
      AuthorizeResult(RejectDirect, "", "", "", "", "redirect_uri is not registered for this client")
    else if !ScopeGranted(clients, req) then
      AuthorizeResult(ErrorToClient, req.redirectURI, req.state, "", "invalid_scope", "")
    else AuthorizeResult(ErrorToClient, req.redirectURI, req.state, "", "invalid_request", "")
  }

  function LoginDemand(req: AuthorizeRequest): AuthorizeResult {
    if Silent(req) then AuthorizeResult(ErrorToClient, req.redirectURI, req.state, "", "login_required", "")
    else AuthorizeResult(RequireLogin, "", "", "", "", "")
  }

  /** The answer of a request whose next step finds its condition unmet. */
  ghost function Refusal(c: Config, t: Thread): Outcome {
    match t.pc
    case GrantAt(g) =>
      Failed(if g.FindClient? then InvalidClient else if g.ConsumeCode? then InvalidGrant else Infrastructure)
    case AuthorizeAt(a) =>
      var req := t.request.authorize;
      Authorized(if a.FindSession? then LoginDemand(req) else RegistryRefusal(c.w.clients, req))
    case LoginAt(_) => Failed(EmailOrPasswordWrong)
    case RefreshAt(r) =>
      Failed(if r.FindRow? then RefreshTokenNotFound
             else if r.CheckExpiry? then RefreshTokenExpired
             else Infrastructure)
    case RegisterAt(r) =>
      Failed(if r.CheckEmail? && EmailInUse(c.w.users, t.request.email) then EmailTaken else Infrastructure)
    case RegisterClientAt =>
      (match FirstOffence(t.request.client.grantTypes, t.request.client.isPublic)
       case Some(e) => Failed(e)
       case None => Failed(Infrastructure))
    case LogoutAt => Failed(Infrastructure)
    case Done(_) => Failed(Infrastructure)
  }

  /** The answer at the first step of request `tid` that finds its condition unmet, if there is one. */
  ghost function FirstRefusal(k: Primitives, c: Config, actions: seq<Action>, tid: nat): Option<Outcome>
    requires CanRun(k, c, actions)
    decreases |actions|
  {
    if actions == [] then None
    else if actions[0].Run? && actions[0].tid == tid && !Condition(k, c, c.threads[tid]) then
      Some(Refusal(c, c.threads[tid]))
    else FirstRefusal(k, Apply(k, c, actions[0]), actions[1..], tid)
  }

  /** Along the run, each step of request `tid` finds its condition met. */
  ghost predicate Met(k: Primitives, c: Config, actions: seq<Action>, tid: nat)
    requires CanRun(k, c, actions)
  {
    FirstRefusal(k, c, actions, tid).None?
  }

  /** An authorization succeeds by issuing a code. */
  predicate Succeeded(outcome: Outcome) {
    !outcome.Failed? && (outcome.Authorized? ==> outcome.decision.action == IssueCode)
  }

  predicate Hopeful(pc: Pc) {
    pc.Done? ==> Succeeded(pc.outcome)
  }

  /** The step to `pc'` went as its condition says: on if it is met, and to its refusal if not. */
  ghost predicate WentAs(k: Primitives, c: Config, t: Thread, pc': Pc) {
    if Condition(k, c, t) then Hopeful(pc') else pc' == Done(Refusal(c, t)) && !Succeeded(Refusal(c, t))
  }

  // ---------------------------------------------------------------- identifiers are never used twice

  ghost predicate ClientsDrawn(c: Config) {
    forall id :: id in c.w.clients ==> id in c.h.used
  }

  lemma ActionDraws(k: Primitives, c: Config, a: Action)
    requires Enabled(k, c, a) && ClientsDrawn(c)
    ensures ClientsDrawn(Apply(k, c, a))
  {
    if a.Run? {
      RunIsAfter(k, c, a.tid, a.oracle);
      StepClients(k, c.w, c.threads[a.tid], a.oracle);
      hide Enabled, Apply, Advance, NewClient;
    }
  }

  lemma {:induction false} RunsDraw(k: Primitives, c: Config, actions: seq<Action>)
    requires CanRun(k, c, actions) && ClientsDrawn(c)
    ensures ClientsDrawn(Exec(k, c, actions))
    decreases |actions|
  {
    hide Enabled, Apply, ClientsDrawn;
    if actions != [] {
      ActionDraws(k, c, actions[0]);
      RunsDraw(k, Apply(k, c, actions[0]), actions[1..]);
    }
  }

  lemma NewUserID(k: Primitives, c: Config, tid: nat)
    requires Inv(k, c) && tid in c.threads && c.threads[tid].pc.RegisterAt? && c.threads[tid].pc.register.StoreUser?
    ensures c.threads[tid].pc.register.user.id !in c.w.users
    ensures c.threads[tid].pc.register.user.email == c.threads[tid].request.email
  {
    var user := c.threads[tid].pc.register.user;
    assert ThreadOk(k, c, tid, c.threads[tid]);
    assert UserOk(c, user.id) && EnrolOk(c, user.id);
  }

  // ---------------------------------------------------------------- one step

  /** An unspent code is found until its minute is over. */
  lemma CodeIsThere(k: Primitives, c: Config, code: string)
    requires Inv(k, c)
    ensures CodeUsable(c, code) <==> Find(c.w.entries, CodeKey(code), c.w.now).Some?
    ensures CodeUsable(c, code) ==>
              Find(c.w.entries, CodeKey(code), c.w.now) == Some(CodePayload(c.h.grants[code].data))
  {
    KeysApart(code, code);
    assert CodeStored(c, code) && EntryOk(c, CodeKey(code));
    if Find(c.w.entries, CodeKey(code), c.w.now).Some? { FoundCode(k, c, code); }
  }

  lemma ConsumeDecides(k: Primitives, c: Config, tid: nat, o: Oracle)
    requires Inv(k, c) && tid in c.threads && !o.fail
    requires c.threads[tid].pc.GrantAt? && c.threads[tid].pc.grant.ConsumeCode?
    ensures WentAs(k, c, c.threads[tid], Stepped(k, c, tid, o).1)
  {
    CodeIsThere(k, c, c.threads[tid].request.token.code);
    hide Inv, Bound, Find, CodeUsable, CodeKey;
  }

  lemma StoreDecides(k: Primitives, c: Config, tid: nat, o: Oracle)
    requires Inv(k, c) && tid in c.threads && !o.fail && o.uuid !in c.h.used
    requires c.threads[tid].pc.GrantAt? && c.threads[tid].pc.grant.StoreRefresh?
    ensures WentAs(k, c, c.threads[tid], Stepped(k, c, tid, o).1)
  {
    NewRowID(k, c, o.uuid);
    assert ThreadOk(k, c, tid, c.threads[tid]);
    assert c.threads[tid].pc.grant.claims.userID == c.threads[tid].pc.grant.data.userID;
    hide Inv, ThreadOk, HashToken, Scopes.Join;
  }

  lemma GrantDecides(k: Primitives, w: World, c: Config, t: Thread, o: Oracle)
    requires w == c.w && !o.fail
    requires t.pc.GrantAt? && !t.pc.grant.ConsumeCode? && !t.pc.grant.StoreRefresh?
    ensures WentAs(k, c, t, Advance(k, w, t.request, t.pc, o).1)
  {
    hide Bound, Find, HashToken, Scopes.Join;
  }

  lemma RegistryDecides(w: World, req: AuthorizeRequest, id: string, o: Oracle)
    ensures var pc' := AuthorizeStep(w, req, id, LookUpClient, o).1;
            && (pc'.AuthorizeAt? || pc' == Done(Authorized(RegistryRefusal(w.clients, req))))
            && (pc'.AuthorizeAt? <==> Trusted(w.clients, req) && ScopeGranted(w.clients, req) && !PromptConflict(req))
            && RegistryRefusal(w.clients, req).action != IssueCode
  {
    LookupRejects(w, req, id, o);
    hide Scopes.Fields;
  }

  lemma SessionStepDecides(k: Primitives, c: Config, tid: nat, o: Oracle)
    requires Inv(k, c) && tid in c.threads && !o.fail && c.threads[tid].pc.AuthorizeAt?
    requires c.threads[tid].pc.authorize.FindSession?
    ensures WentAs(k, c, c.threads[tid], Stepped(k, c, tid, o).1)
  {
    var id := c.threads[tid].request.sessionID;
    if Find(c.w.entries, SessionKey(id), c.w.now).Some? { FoundSession(k, c, id); }
    assert ThreadOk(k, c, tid, c.threads[tid]);
    hide Inv, Find, Scopes.Fields, SessionKey, Allowed, SessionSeen;
  }

  lemma AuthorizeDecides(k: Primitives, c: Config, t: Thread, o: Oracle)
    requires !o.fail && t.pc.AuthorizeAt? && !t.pc.authorize.FindSession?
    ensures WentAs(k, c, t, Advance(k, c.w, t.request, t.pc, o).1)
  {
    if t.pc.authorize.LookUpClient? {
      RegistryDecides(c.w, t.request.authorize, t.request.sessionID, o);
      hide AuthorizeStep, Trusted, ScopeGranted, PromptConflict, RegistryRefusal;
    } else {
      hide Scopes.Fields, Put;
    }
  }

  lemma AccountsFound(k: Primitives, users: Users, email: string, password: string)
    requires EmailsDistinct(users)
    ensures HasAccount(k, users, email, password) <==>
            UserByEmail(users, email).Some? && k.matches(UserByEmail(users, email).value.passwordHash, password)
  {
    UserByEmailFinds(users, email);
    hide UserByEmail;
  }

  lemma RegisterDecides(k: Primitives, c: Config, tid: nat, o: Oracle)
    requires Inv(k, c) && tid in c.threads && !o.fail && c.threads[tid].pc.RegisterAt?
    ensures WentAs(k, c, c.threads[tid], Stepped(k, c, tid, o).1)
  {
    if c.threads[tid].pc.register.StoreUser? { NewUserID(k, c, tid); }
    UserByEmailFinds(c.w.users, c.threads[tid].request.email);
    hide Inv, UserByEmail;
  }

  lemma OthersDecide(k: Primitives, c: Config, tid: nat, o: Oracle)
    requires ClientsDrawn(c) && Enabled(k, c, Run(tid, o)) && !o.fail
    requires var pc := c.threads[tid].pc; pc.RefreshAt? || pc.RegisterClientAt? || pc.LogoutAt?
    ensures WentAs(k, c, c.threads[tid], Stepped(k, c, tid, o).1)
  {
    if c.threads[tid].pc.RegisterClientAt? {
      var req := c.threads[tid].request.client;
      Registration.FirstOffenceIsFirst(req.grantTypes, req.isPublic);
    }
    hide HashToken, FirstOffence;
  }

  lemma LoginDecides(k: Primitives, c: Config, tid: nat, o: Oracle)
    requires Inv(k, c) && tid in c.threads && !o.fail && c.threads[tid].pc.LoginAt?
    ensures WentAs(k, c, c.threads[tid], Stepped(k, c, tid, o).1)
  {
    AccountsFound(k, c.w.users, c.threads[tid].request.email, c.threads[tid].request.password);
    hide Inv, UserByEmail, HasAccount;
  }

  /** A request that can still succeed goes as the condition of its step says. */
  lemma StepDecides(k: Primitives, c: Config, tid: nat, o: Oracle)
    requires Inv(k, c) && ClientsDrawn(c) && Enabled(k, c, Run(tid, o)) && !o.fail && Hopeful(c.threads[tid].pc)
    ensures WentAs(k, c, c.threads[tid], Apply(k, c, Run(tid, o)).threads[tid].pc)
  {
    RunIsAfter(k, c, tid, o);
    assert o.uuid !in c.h.used;
    assert c.threads[tid].pc.Done? ==> Stepped(k, c, tid, o).1 == c.threads[tid].pc;
    hide Inv, ClientsDrawn, Enabled, Apply, Advance, Note;
    match c.threads[tid].pc
    case GrantAt(g) =>
      if g.ConsumeCode? { ConsumeDecides(k, c, tid, o); }
      else if g.StoreRefresh? { StoreDecides(k, c, tid, o); }
      else { GrantDecides(k, c.w, c, c.threads[tid], o); }
    case AuthorizeAt(a) =>
      if a.FindSession? { SessionStepDecides(k, c, tid, o); } else { AuthorizeDecides(k, c, c.threads[tid], o); }
    case LoginAt(_) => LoginDecides(k, c, tid, o);
    case RegisterAt(_) => RegisterDecides(k, c, tid, o);
    case Done(_) =>
    case _ => OthersDecide(k, c, tid, o);
  }

  // ---------------------------------------------------------------- every run

  ghost predicate EndsAs(refusal: Option<Outcome>, pc: Pc) {
    match refusal
    case None => Hopeful(pc)
    case Some(outcome) => pc == Done(outcome) && !Succeeded(outcome)
  }

  lemma {:induction false} AnswersStay(k: Primitives, c: Config, actions: seq<Action>, tid: nat)
    requires k.Valid() && Inv(k, c) && CanRun(k, c, actions) && tid in c.threads && c.threads[tid].pc.Done?
    ensures tid in Exec(k, c, actions).threads && Exec(k, c, actions).threads[tid] == c.threads[tid]
  {
    RunsGrow(k, c, actions);
    assert Later(c.threads[tid], Exec(k, c, actions).threads[tid]);
    hide Inv;
  }

  /** One action, seen from request `tid`: its own step goes as its condition says, any other leaves it. */
  lemma HopeStep(k: Primitives, c: Config, a: Action, tid: nat)
    requires Inv(k, c) && ClientsDrawn(c) && Enabled(k, c, a) && tid in c.threads && Hopeful(c.threads[tid].pc)
    requires a.Run? && a.tid == tid ==> !a.oracle.fail
    ensures tid in Apply(k, c, a).threads
    ensures var pc' := Apply(k, c, a).threads[tid].pc;
            if a.Run? && a.tid == tid then WentAs(k, c, c.threads[tid], pc') else Hopeful(pc')
  {
    ActionGrows(k, c, a);
    hide Inv, ClientsDrawn, Enabled, Apply, WentAs, Succeeded;
    if a.Run? && a.tid == tid {
      StepDecides(k, c, tid, a.oracle);
    } else {
      OtherStepsLeaveIt(k, c, a, tid);
    }
  }

  lemma {:induction false} HopeIsMet(k: Primitives, c: Config, actions: seq<Action>, tid: nat)
    requires k.Valid() && Inv(k, c) && ClientsDrawn(c) && CanRun(k, c, actions)
    requires tid in c.threads && Hopeful(c.threads[tid].pc) && NoCallFails(actions, tid)
    ensures tid in Exec(k, c, actions).threads
    ensures EndsAs(FirstRefusal(k, c, actions, tid), Exec(k, c, actions).threads[tid].pc)
    decreases |actions|
  {
    if actions != [] {
      var a, c1 := actions[0], Apply(k, c, actions[0]);
      RestCallsSucceed(actions, tid);
      hide Inv, ClientsDrawn, Enabled, Apply, Condition, Refusal, NoCallFails, Succeeded, Hopeful;
      ActionInv(k, c, a);
      ActionDraws(k, c, a);
      HopeStep(k, c, a, tid);
      if a.Run? && a.tid == tid && !Condition(k, c, c.threads[tid]) {
        AnswersStay(k, c1, actions[1..], tid);
      } else {
        HopeIsMet(k, c1, actions[1..], tid);
      }
    }
  }

  // ---------------------------------------------------------------- from the arrival on

  /** The only grant that is implemented. */
  predicate Implemented(request: Request) {
    request.Exchange? ==> request.token.grantType == "authorization_code"
  }

  lemma {:induction false} ArrivalUnfolds(k: Primitives, c: Config, tid: nat, request: Request, post: seq<Action>)
    requires CanRun(k, c, [Arrive(tid, request)] + post)
    ensures Enabled(k, c, Arrive(tid, request)) && CanRun(k, Apply(k, c, Arrive(tid, request)), post)
    ensures Exec(k, c, [Arrive(tid, request)] + post) == Exec(k, Apply(k, c, Arrive(tid, request)), post)
    ensures FirstRefusal(k, c, [Arrive(tid, request)] + post, tid) ==
            FirstRefusal(k, Apply(k, c, Arrive(tid, request)), post, tid)
    ensures var t := ThreadState(request, Start(request), c.w.now, c.w.now);
            Apply(k, c, Arrive(tid, request)) == c.(threads := c.threads[tid := t])
  {
    var actions := [Arrive(tid, request)] + post;
    assert actions[0] == Arrive(tid, request) && actions[1..] == post;
  }

  /** The answer to a grant type that is not implemented. */
  function NotOffered(request: Request): Outcome {
    Failed(if request.Exchange? && request.token.grantType == "refresh_token" then NotImplemented
           else UnsupportedGrantType)
  }

  lemma StartIsHopeful(request: Request)
    ensures Implemented(request) ==> Hopeful(Start(request))
    ensures !Implemented(request) ==> Start(request) == Done(NotOffered(request))
  {}

  lemma {:induction false} ArrivalDecides(k: Primitives, c: Config, tid: nat, request: Request, post: seq<Action>)
    requires k.Valid() && Inv(k, c) && ClientsDrawn(c)
    requires CanRun(k, c, [Arrive(tid, request)] + post) && NoCallFails(post, tid)
    ensures var actions := [Arrive(tid, request)] + post;
            var c' := Exec(k, c, actions);
            && tid in c'.threads && c'.threads[tid].request == request
            && (Implemented(request) ==> EndsAs(FirstRefusal(k, c, actions, tid), c'.threads[tid].pc))
            && (!Implemented(request) ==> c'.threads[tid].pc == Done(NotOffered(request)))
  {
    ArrivalUnfolds(k, c, tid, request, post);
    var c1 := Apply(k, c, Arrive(tid, request));
    assert c1.threads[tid].pc == Start(request) && c1.threads[tid].request == request;
    StartIsHopeful(request);
    hide Inv, ClientsDrawn, Enabled, Apply, FirstRefusal, Implemented, NotOffered, Start, Hopeful, EndsAs, NoCallFails;
    ActionInv(k, c, Arrive(tid, request));
    ActionDraws(k, c, Arrive(tid, request));
    RunsGrow(k, c1, post);
    assert Later(c1.threads[tid], Exec(k, c1, post).threads[tid]);
    if Implemented(request) {
      HopeIsMet(k, c1, post, tid);
    }
  }

  /** In every run, from the arrival of any request and through any interleaving with other requests, the
      clock and maintenance: once it has an answer, and if none of its own calls has failed, the answer
      is a success exactly if the state met the condition of each of its steps when that step was taken
      (and, for an exchange, the grant is the one implemented); otherwise it is the refusal that belongs
      to the first condition that was not met. */
  lemma {:induction false} SucceedsExactly(k: Primitives, now: int, pre: seq<Action>, tid: nat, request: Request,
                                           post: seq<Action>)
    requires k.Valid() && CanRun(k, Initial(now), pre)
    requires CanRun(k, Exec(k, Initial(now), pre), [Arrive(tid, request)] + post) && NoCallFails(post, tid)
    ensures var c := Exec(k, Initial(now), pre);
            var actions := [Arrive(tid, request)] + post;
            var c' := Exec(k, c, actions);
            && tid in c'.threads && c'.threads[tid].request == request && Answered(c'.threads[tid])
            && (c'.threads[tid].pc.Done? ==>
                  var outcome := c'.threads[tid].pc.outcome;
                  && (Succeeded(outcome) <==> Implemented(request) && Met(k, c, actions, tid))
                  && (!Implemented(request) ==> outcome == NotOffered(request))
                  && (Implemented(request) && !Met(k, c, actions, tid) ==>
                        outcome == FirstRefusal(k, c, actions, tid).value))
  {
    var c := Exec(k, Initial(now), pre);
    ReachableInv(k, now, pre);
    RunsDraw(k, Initial(now), pre);
    RunsAnswered(k, Initial(now), pre);
    RunsAnswered(k, c, [Arrive(tid, request)] + post);
    hide Inv, ClientsDrawn, Enabled, Apply, FirstRefusal, Answered, Implemented, NotOffered, NoCallFails;
    ArrivalDecides(k, c, tid, request, post);
  }

  /** A login is only ever refused with the one error, whether the email is unknown or the password wrong. */
  lemma {:induction false} LoginRefusal(k: Primitives, c: Config, actions: seq<Action>, tid: nat)
    requires k.Valid() && Inv(k, c) && CanRun(k, c, actions) && tid in c.threads && c.threads[tid].request.Login?
    ensures FirstRefusal(k, c, actions, tid) in {None, Some(Failed(EmailOrPasswordWrong))}
    decreases |actions|
  {
    if actions != [] {
      ActionInv(k, c, actions[0]);
      ActionGrows(k, c, actions[0]);
      assert tid in Apply(k, c, actions[0]).threads && Apply(k, c, actions[0]).threads[tid].request.Login?;
      assert !Condition(k, c, c.threads[tid]) ==> c.threads[tid].pc.LoginAt?;
      hide Inv, Enabled, Apply, Grows, Condition;
      LoginRefusal(k, Apply(k, c, actions[0]), actions[1..], tid);
    }
  }

  lemma {:induction false} LoginsAreRefused(k: Primitives, c: Config, tid: nat, request: Request, post: seq<Action>)
    requires k.Valid() && Inv(k, c) && CanRun(k, c, [Arrive(tid, request)] + post) && request.Login?
    ensures FirstRefusal(k, c, [Arrive(tid, request)] + post, tid) in {None, Some(Failed(EmailOrPasswordWrong))}
  {
    ArrivalUnfolds(k, c, tid, request, post);
    ActionInv(k, c, Arrive(tid, request));
    hide Inv, Enabled, FirstRefusal;
    LoginRefusal(k, Apply(k, c, Arrive(tid, request)), post, tid);
  }
}
