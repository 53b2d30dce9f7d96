/** Every interleaving of the repository calls is a run of an atomic specification. There, a code is
    redeemed in one indivisible action at the moment the store gives it up, judged by the registry as
    it is at that moment; and tokens are delivered in one action, judged by the users as they are at
    that moment, although the implementation read the client earlier and the user earlier. Sessions
    and codes are two separate maps from which whatever expires disappears at once. */
module Linearisation {
  import opened Prelude
  import opened Entities
  import opened Crypto
  import opened Store
  import opened Tables
  import opened Protocol
  import opened Machine
  import opened Invariants
  import opened Growth
  import opened Preservation
  import opened Effects
  import opened Safety
  import Scopes

  // ---------------------------------------------------------------- the specification

  datatype Spec = Spec(
    now: int,
    sessions: Sessions,
    codes: Codes,
    claimed: map<string, AuthCode>,
    clients: Clients,
    users: Users,
    refreshTokens: RefreshTokens)

  datatype SpecAction =
    | Wait(later: int)
    | OpenSession(id: string, session: Session)
    | CloseSession(id: string)
    | GrantCode(code: string, data: AuthCode)
    | Redeem(req: TokenRequest)
    | Deliver(code: string, row: RefreshToken, response: TokenResponse)
    | Abandon(code: string, callFailed: bool)
    | AddUser(user: User)
    | AddClient(client: Client)
    | Maintain(action: Action)

  ghost predicate SpecEnabled(k: Primitives, s: Spec, a: SpecAction) {
    match a
    case Wait(later) => s.now <= later
    case OpenSession(id, _) => id !in s.sessions
    case CloseSession(_) => true
    case GrantCode(code, data) =>
      && code !in s.codes && code !in s.claimed
      && data.clientID in s.clients && Allowed(s.clients[data.clientID], data.redirectURI, data.scope)
    case Redeem(req) =>
      && req.clientID in s.clients && Authenticates(k, s.clients[req.clientID], req.clientSecret)
      && req.code in s.codes
    case Deliver(code, row, response) =>
      && code in s.claimed
      && var data := s.claimed[code];
      && data.clientID in s.clients
      && data.userID in s.users
      && row.id !in s.refreshTokens
      && row.userID == data.userID && row.clientID == data.clientID && row.scope == data.scope
      && row.tokenHash == HashToken(k, response.refreshToken) && row.revokedAt == None
      && response.accessToken.userID == data.userID
      && response.accessToken.email == s.users[data.userID].email
      && response.accessToken.clientID == data.clientID
      && response.accessToken.scope == response.scope == Scopes.Join(data.scope)
    case Abandon(code, callFailed) =>
      code in s.claimed && (callFailed || s.claimed[code].userID !in s.users)
    case AddUser(user) => user.id !in s.users && !EmailInUse(s.users, user.email)
    case AddClient(client) => client.id !in s.clients
    case Maintain(action) => !action.Tick? && !action.Arrive? && !action.Run?
  }

  ghost function SpecApply(k: Primitives, s: Spec, a: SpecAction): Spec
    requires SpecEnabled(k, s, a)
  {
    match a
    case Wait(later) =>
      s.(now := later, sessions := Unexpired(s.sessions, later), codes := Unexpired(s.codes, later))
    case OpenSession(id, session) =>
      s.(sessions := s.sessions[id := Held(session, Some(s.now + SESSION_TTL))])
    case CloseSession(id) => s.(sessions := s.sessions - {id})
    case GrantCode(code, data) =>
      s.(codes := s.codes[code := Held(data, Some(s.now + AUTH_CODE_TTL))])
    case Redeem(req) =>
      var data := s.codes[req.code].value;
      s.(codes := s.codes - {req.code},
         claimed := if Bound(k, req, data) then s.claimed[req.code := data] else s.claimed)
    case Deliver(code, row, response) =>
      s.(claimed := s.claimed - {code}, refreshTokens := s.refreshTokens[row.id := row])
    case Abandon(code, _) => s.(claimed := s.claimed - {code})
    case AddUser(user) => s.(users := s.users[user.id := user])
    case AddClient(client) => s.(clients := s.clients[client.id := client])
    case Maintain(action) =>
      s.(users := MaintainedUsers(s.users, action), refreshTokens := MaintainedRows(s.refreshTokens, action, s.now))
  }

  ghost predicate SpecCanRun(k: Primitives, s: Spec, actions: seq<SpecAction>)
    decreases |actions|
  {
    actions == [] || (SpecEnabled(k, s, actions[0]) && SpecCanRun(k, SpecApply(k, s, actions[0]), actions[1..]))
  }

  ghost function SpecExec(k: Primitives, s: Spec, actions: seq<SpecAction>): Spec
    requires SpecCanRun(k, s, actions)
    decreases |actions|
  {
    if actions == [] then s else SpecExec(k, SpecApply(k, s, actions[0]), actions[1..])
  }

  // ---------------------------------------------------------------- the abstraction

  /** The code has been consumed and its redemption is still on its way. */
  ghost predicate InFlight(c: Config, code: string) {
    && code in c.h.spent && code in c.h.grants
    && c.h.spent[code] in c.threads && c.threads[c.h.spent[code]].pc.GrantAt?
  }

  ghost function ClaimedOf(c: Config): map<string, AuthCode> {
    map code | code in c.h.spent && InFlight(c, code) :: c.h.grants[code].data
  }

  ghost function Abs(c: Config): Spec {
    Spec(
      c.w.now,
      SessionsOf(c.w.entries, c.w.now),
      CodesOf(c.w.entries, c.w.now),
      ClaimedOf(c),
      c.w.clients, c.w.users, c.w.refreshTokens)
  }

  /** The atomic action that a step of one request carries out, if any: its linearisation point. */
  function LineariseStep(k: Primitives, w: World, t: Thread, o: Oracle, clients: Clients, pc': Pc): Option<SpecAction> {
    if Stores(t, pc') then Some(OpenSession(t.pc.login.id, t.pc.login.session))
    else if Grants(t, pc') then Some(GrantCode(t.pc.authorize.code, t.pc.authorize.data))
    else if EndsSession(t, o) then Some(CloseSession(t.request.sessionID))
    else if Consumes(w, t, o) then Some(Redeem(t.request.token))
    else if Mints(t, pc') then Some(Deliver(t.request.token.code, MintedRow(k, t, o), pc'.outcome.tokens))
    else if Enrols(t, pc') then Some(AddUser(t.pc.register.user))
    else if t.pc.GrantAt? && PastConsume(t.pc) && pc'.Done? then Some(Abandon(t.request.token.code, o.fail))
    else if t.pc.RegisterClientAt? && clients != w.clients then Some(AddClient(NewClient(k, t.request.client, o).0))
    else None
  }

  ghost function Linearise(k: Primitives, c: Config, a: Action): Option<SpecAction>
    requires Enabled(k, c, a)
  {
    match a
    case Tick(later) => Some(Wait(later))
    case Arrive(_, _) => None
    case Run(tid, o) =>
      var (w', pc') := Stepped(k, c, tid, o);
      LineariseStep(k, c.w, c.threads[tid], o, w'.clients, pc')
    case _ => Some(Maintain(a))
  }

  // ---------------------------------------------------------------- the claims

  /** The request has consumed this code and has not finished. */
  predicate Redeeming(t: Thread, code: string) {
    t.pc.GrantAt? && PastConsume(t.pc) && t.request.token.code == code
  }

  /** A request that is past consumption is the redemption of exactly its own code; no other request
      is the redemption of any code. */
  lemma ClaimOfThread(k: Primitives, c: Config, tid: nat, code: string)
    requires Inv(k, c) && tid in c.threads
    ensures InFlight(c, code) && c.h.spent[code] == tid <==> Redeeming(c.threads[tid], code)
  {
    assert ThreadOk(k, c, tid, c.threads[tid]) && SpentOk(c, code);
  }

  lemma SpentIsOk(k: Primitives, c: Config, code: string)
    requires Inv(k, c)
    ensures SpentOk(c, code)
  {}

  /** A step of request `tid` leaves the redemptions of other requests as they were. */
  lemma OtherClaims(k: Primitives, c: Config, c': Config, tid: nat, o: Oracle, code: string)
    requires Inv(k, c) && Inv(k, c') && StepShape(k, c, c', tid, o)
    requires code !in c'.h.spent || c'.h.spent[code] != tid
    ensures InFlight(c', code) <==> InFlight(c, code)
    ensures InFlight(c, code) ==> c.h.spent[code] != tid
  {
    hide Inv;
    SpentIsOk(k, c, code);
    SpentIsOk(k, c', code);
    hide EntriesAfter, MintedRow, EmailInUse, Consumes;
  }

  /** A step of request `tid` can change only the claim on its own code. */
  lemma StepClaim(k: Primitives, c: Config, c': Config, tid: nat, o: Oracle, code: string)
    requires Inv(k, c) && Inv(k, c') && StepShape(k, c, c', tid, o)
    ensures InFlight(c', code) <==>
            Redeeming(c'.threads[tid], code) || (InFlight(c, code) && !Redeeming(c.threads[tid], code))
    ensures Redeeming(c.threads[tid], code) ==> InFlight(c, code)
    ensures InFlight(c', code) && InFlight(c, code) ==> c'.h.grants[code] == c.h.grants[code]
  {
    ClaimOfThread(k, c, tid, code);
    ClaimOfThread(k, c', tid, code);
    if code !in c'.h.spent || c'.h.spent[code] != tid {
      OtherClaims(k, c, c', tid, o, code);
    } else {
      assert SpentOk(c, code) && SpentOk(c', code);
      assert code in c.h.spent ==> c.h.spent[code] == tid;
    }
    hide Inv, Note, EntriesAfter, MintedRow, EmailInUse;
  }

  lemma ClaimedOfAt(c: Config, code: string)
    ensures code in ClaimedOf(c) <==> InFlight(c, code)
    ensures InFlight(c, code) ==> code in c.h.grants && ClaimedOf(c)[code] == c.h.grants[code].data
  {}

  /** The claim on a code after a step from `t` to `t'`. */
  ghost predicate ClaimAfter(c: Config, c': Config, t: Thread, t': Thread, code: string) {
    && (code in ClaimedOf(c') <==> Redeeming(t', code) || (code in ClaimedOf(c) && !Redeeming(t, code)))
    && (Redeeming(t, code) ==> code in ClaimedOf(c))
    && (code in ClaimedOf(c') && code in ClaimedOf(c) ==> ClaimedOf(c')[code] == ClaimedOf(c)[code])
    && (code in ClaimedOf(c') ==> code in c'.h.grants && ClaimedOf(c')[code] == c'.h.grants[code].data)
  }

  ghost predicate ClaimsAfter(c: Config, c': Config, t: Thread, t': Thread) {
    forall code :: ClaimAfter(c, c', t, t', code)
  }

  lemma StepClaimAt(k: Primitives, c: Config, c': Config, tid: nat, o: Oracle, code: string)
    requires Inv(k, c) && Inv(k, c') && StepShape(k, c, c', tid, o)
    ensures ClaimAfter(c, c', c.threads[tid], c'.threads[tid], code)
  {
    StepClaim(k, c, c', tid, o, code);
    ClaimedOfAt(c, code);
    ClaimedOfAt(c', code);
    hide Inv, StepShape, InFlight, Redeeming, ClaimedOf;
  }

  lemma StepClaims(k: Primitives, c: Config, c': Config, tid: nat, o: Oracle)
    requires Inv(k, c) && Inv(k, c') && StepShape(k, c, c', tid, o)
    ensures ClaimsAfter(c, c', c.threads[tid], c'.threads[tid])
  {
    assert tid in c.threads && tid in c'.threads;
    hide Inv, StepShape, ClaimAfter;
    forall code ensures ClaimAfter(c, c', c.threads[tid], c'.threads[tid], code) {
      StepClaimAt(k, c, c', tid, o, code);
    }
  }

  lemma ClaimsMean(c: Config, c': Config, t: Thread, t': Thread)
    requires ClaimsAfter(c, c', t, t')
    ensures forall code ::
              code in ClaimedOf(c') <==> Redeeming(t', code) || (code in ClaimedOf(c) && !Redeeming(t, code))
    ensures forall code :: Redeeming(t, code) ==> code in ClaimedOf(c)
    ensures forall code :: code in ClaimedOf(c') && code in ClaimedOf(c) ==> ClaimedOf(c')[code] == ClaimedOf(c)[code]
    ensures forall code :: code in ClaimedOf(c') ==>
              code in c'.h.grants && ClaimedOf(c')[code] == c'.h.grants[code].data
  {
    hide ClaimedOf, Redeeming;
    forall code
      ensures code in ClaimedOf(c') <==> Redeeming(t', code) || (code in ClaimedOf(c) && !Redeeming(t, code))
      ensures Redeeming(t, code) ==> code in ClaimedOf(c)
      ensures code in ClaimedOf(c') && code in ClaimedOf(c) ==> ClaimedOf(c')[code] == ClaimedOf(c)[code]
      ensures code in ClaimedOf(c') ==> code in c'.h.grants && ClaimedOf(c')[code] == c'.h.grants[code].data
    {
      assert ClaimAfter(c, c', t, t', code);
    }
  }

  // ---------------------------------------------------------------- the simulation

  /** What the maps of the store look like after a step. */
  ghost predicate MapsAfter(e: Entries, e': Entries, now: int, t: Thread, o: Oracle, pc': Pc) {
    var s, s', m, m' := SessionsOf(e, now), SessionsOf(e', now), CodesOf(e, now), CodesOf(e', now);
    if Stores(t, pc') then
      m' == m && s' == s[t.pc.login.id := Held(t.pc.login.session, Some(now + SESSION_TTL))]
    else if Grants(t, pc') then
      s' == s && m' == m[t.pc.authorize.code := Held(t.pc.authorize.data, Some(now + AUTH_CODE_TTL))]
    else if TriesCode(t, o) then
      s' == s && m' == m - {t.request.token.code}
    else if EndsSession(t, o) then
      m' == m && s' == s - {t.request.sessionID}
    else
      s' == s && m' == m
  }

  lemma EntriesTyped(k: Primitives, c: Config)
    requires Inv(k, c)
    ensures Typed(c.w.entries)
  {
    forall key | key in c.w.entries
      ensures IsSessionKey(key) ==> c.w.entries[key].payload.SessionPayload?
      ensures IsCodeKey(key) ==> c.w.entries[key].payload.CodePayload?
    {
      assert EntryOk(c, key);
      if IsSessionKey(key) { KeyOfPart(key); KeysApart(SessionID(key), ""); }
      else if IsCodeKey(key) { KeyOfPart(key); KeysApart("", CodeOf(key)); }
    }
  }

  lemma StepMaps(w: World, t: Thread, o: Oracle, pc': Pc)
    requires Typed(w.entries)
    ensures MapsAfter(w.entries, EntriesAfter(w, t, o, pc'), w.now, t, o, pc')
  {
    hide Typed, SessionsOf, CodesOf, SessionKey, CodeKey, Put;
    if Stores(t, pc') { PutSession(w.entries, w.now, t.pc.login.id, t.pc.login.session, SESSION_TTL); }
    else if Grants(t, pc') { PutCode(w.entries, w.now, t.pc.authorize.code, t.pc.authorize.data, AUTH_CODE_TTL); }
    else if TriesCode(t, o) { DropCode(w.entries, w.now, t.request.token.code); }
    else if EndsSession(t, o) { DropSession(w.entries, w.now, t.request.sessionID); }
  }

  ghost predicate StepViews(c: Config, c': Config, tid: nat, o: Oracle) {
    && tid in c.threads && tid in c'.threads && c'.threads[tid].request == c.threads[tid].request
    && MapsAfter(c.w.entries, c'.w.entries, c.w.now, c.threads[tid], o, c'.threads[tid].pc)
    && ClaimsAfter(c, c', c.threads[tid], c'.threads[tid])
  }

  lemma RunViews(k: Primitives, c: Config, tid: nat, o: Oracle)
    requires k.Valid() && Inv(k, c) && Enabled(k, c, Run(tid, o))
    ensures StepViews(c, Apply(k, c, Run(tid, o)), tid, o)
  {
    var c' := Apply(k, c, Run(tid, o));
    RunShape(k, c, tid, o);
    RunInv(k, c, tid, o);
    EntriesTyped(k, c);
    ShapeViews(k, c, c', tid, o);
  }

  lemma ShapeViews(k: Primitives, c: Config, c': Config, tid: nat, o: Oracle)
    requires Inv(k, c) && Inv(k, c') && StepShape(k, c, c', tid, o) && Typed(c.w.entries)
    ensures StepViews(c, c', tid, o)
  {
    assert c'.w.entries == EntriesAfter(c.w, c.threads[tid], o, c'.threads[tid].pc);
    assert c'.threads[tid].request == c.threads[tid].request;
    hide MapsAfter, StepShape, Inv, ClaimsAfter, EntriesAfter, Typed;
    StepMaps(c.w, c.threads[tid], o, c'.threads[tid].pc);
    StepClaims(k, c, c', tid, o);
  }

  /** Claims change only where a request starts or ends a redemption. */
  lemma ClaimsSame(c: Config, c': Config, t: Thread, t': Thread)
    requires ClaimsAfter(c, c', t, t')
    requires forall code :: Redeeming(t', code) <==> Redeeming(t, code)
    ensures ClaimedOf(c') == ClaimedOf(c)
  {
    ClaimsMean(c, c', t, t');
    hide ClaimsAfter, ClaimedOf, Redeeming;
  }

  ghost predicate SameTables(c: Config, c': Config) {
    && c'.w.now == c.w.now && c'.w.clients == c.w.clients
    && c'.w.users == c.w.users && c'.w.refreshTokens == c.w.refreshTokens
  }

  ghost predicate SameMaps(c: Config, c': Config) {
    && SessionsOf(c'.w.entries, c'.w.now) == SessionsOf(c.w.entries, c.w.now)
    && CodesOf(c'.w.entries, c'.w.now) == CodesOf(c.w.entries, c.w.now)
  }

  ghost predicate Simulates(k: Primitives, c: Config, c': Config, a: SpecAction) {
    SpecEnabled(k, Abs(c), a) && SpecApply(k, Abs(c), a) == Abs(c')
  }

  lemma OtherRequests(c: Config, c': Config, tid: nat, o: Oracle)
    requires StepViews(c, c', tid, o) && !c.threads[tid].request.Exchange?
    ensures ClaimedOf(c') == ClaimedOf(c)
  {
    hide ClaimedOf, MapsAfter;
    ClaimsSame(c, c', c.threads[tid], c'.threads[tid]);
  }

  lemma UnknownSession(k: Primitives, c: Config, id: string)
    requires Inv(k, c) && id !in c.h.logins
    ensures id !in SessionsOf(c.w.entries, c.w.now)
  {
    KeysApart(id, id);
    assert EntryOk(c, SessionKey(id));
    SessionsOfAt(c.w.entries, c.w.now, id);
  }

  lemma UnknownCode(k: Primitives, c: Config, code: string)
    requires Inv(k, c) && code !in c.h.grants
    ensures code !in CodesOf(c.w.entries, c.w.now) && code !in ClaimedOf(c)
  {
    KeysApart(code, code);
    assert EntryOk(c, CodeKey(code));
    CodesOfAt(c.w.entries, c.w.now, code);
  }

  lemma CodeInView(k: Primitives, c: Config, code: string)
    requires Inv(k, c)
    ensures Find(c.w.entries, CodeKey(code), c.w.now).Some? <==> code in CodesOf(c.w.entries, c.w.now)
    ensures code in CodesOf(c.w.entries, c.w.now) ==>
              code in c.h.grants && CodesOf(c.w.entries, c.w.now)[code].value == c.h.grants[code].data
    ensures code in CodesOf(c.w.entries, c.w.now) ==>
              Find(c.w.entries, CodeKey(code), c.w.now) == Some(CodePayload(c.h.grants[code].data))
  {
    EntriesTyped(k, c);
    FindIsTypedLookup(c.w.entries, c.w.now, code);
    if Find(c.w.entries, CodeKey(code), c.w.now).Some? {
      FoundCode(k, c, code);
      hide Inv, Typed, Find, CodesOf;
    }
  }

  // Kind by kind: the step as an atomic action.

  lemma SimulateOpen(k: Primitives, c: Config, c': Config, tid: nat, o: Oracle)
    requires StepViews(c, c', tid, o) && SameTables(c, c')
    requires Stores(c.threads[tid], c'.threads[tid].pc)
    requires c.threads[tid].pc.login.id !in SessionsOf(c.w.entries, c.w.now)
    ensures Simulates(k, c, c', OpenSession(c.threads[tid].pc.login.id, c.threads[tid].pc.login.session))
  {
    hide ClaimedOf, SessionsOf, CodesOf, ClaimsAfter;
    OtherRequests(c, c', tid, o);
  }

  lemma SimulateGrant(k: Primitives, c: Config, c': Config, tid: nat, o: Oracle)
    requires StepViews(c, c', tid, o) && SameTables(c, c')
    requires Grants(c.threads[tid], c'.threads[tid].pc) && ThreadOk(k, c, tid, c.threads[tid])
    requires c.threads[tid].pc.authorize.code !in CodesOf(c.w.entries, c.w.now)
    requires c.threads[tid].pc.authorize.code !in ClaimedOf(c)
    ensures Simulates(k, c, c', GrantCode(c.threads[tid].pc.authorize.code, c.threads[tid].pc.authorize.data))
  {
    hide ClaimedOf, SessionsOf, CodesOf, ClaimsAfter;
    OtherRequests(c, c', tid, o);
  }

  lemma SimulateClose(k: Primitives, c: Config, c': Config, tid: nat, o: Oracle)
    requires StepViews(c, c', tid, o) && SameTables(c, c')
    requires EndsSession(c.threads[tid], o)
    ensures Simulates(k, c, c', CloseSession(c.threads[tid].request.sessionID))
  {
    hide ClaimedOf, SessionsOf, CodesOf, ClaimsAfter;
    OtherRequests(c, c', tid, o);
  }

  lemma ClaimAdded(c: Config, c': Config, t: Thread, t': Thread, code: string)
    requires ClaimsAfter(c, c', t, t') && code in c'.h.grants
    requires forall x :: !Redeeming(t, x)
    requires forall x :: Redeeming(t', x) <==> x == code
    ensures ClaimedOf(c') == ClaimedOf(c)[code := c'.h.grants[code].data]
  {
    ClaimsMean(c, c', t, t');
    hide ClaimsAfter, ClaimedOf, Redeeming;
  }

  /** A consumption starts the redemption of exactly the presented code, if it is bound to the request. */
  lemma RedeemMoves(k: Primitives, w: World, t: Thread, t': Thread, o: Oracle, data: AuthCode)
    requires Consumes(w, t, o) && t'.request == t.request
    requires Find(w.entries, CodeKey(t.request.token.code), w.now) == Some(CodePayload(data))
    requires t'.pc == GrantStep(k, w, t.request.token, t.pc.grant, o).1
    ensures forall x :: !Redeeming(t, x)
    ensures forall x :: Redeeming(t', x) <==> x == t.request.token.code && Bound(k, t.request.token, data)
  {
    hide Find, Bound, CodeKey;
  }

  lemma RedeemClaims(k: Primitives, c: Config, c': Config, tid: nat, o: Oracle)
    requires StepViews(c, c', tid, o) && Consumes(c.w, c.threads[tid], o) && HistoryGrows(c.h, c'.h)
    requires var code := c.threads[tid].request.token.code;
             code in c.h.grants && Find(c.w.entries, CodeKey(code), c.w.now) == Some(CodePayload(c.h.grants[code].data))
    requires c'.threads[tid].pc == GrantStep(k, c.w, c.threads[tid].request.token, c.threads[tid].pc.grant, o).1
    ensures var req := c.threads[tid].request.token;
            ClaimedOf(c') == if Bound(k, req, c.h.grants[req.code].data)
                             then ClaimedOf(c)[req.code := c.h.grants[req.code].data] else ClaimedOf(c)
  {
    var t, t', code := c.threads[tid], c'.threads[tid], c.threads[tid].request.token.code;
    RedeemMoves(k, c.w, t, t', o, c.h.grants[code].data);
    assert code in c'.h.grants && c'.h.grants[code] == c.h.grants[code];
    hide ClaimedOf, ClaimsAfter, MapsAfter, Find, Bound, GrantStep, Redeeming, HistoryGrows, CodeKey, Consumes;
    if Bound(k, t.request.token, c.h.grants[code].data) {
      ClaimAdded(c, c', t, t', code);
    } else {
      ClaimsSame(c, c', t, t');
    }
  }

  /** The client read before the code was consumed is the one registered when it is consumed. */
  lemma ClientStillThere(k: Primitives, c: Config, tid: nat)
    requires Inv(k, c) && tid in c.threads
    requires c.threads[tid].pc.GrantAt? && c.threads[tid].pc.grant.ConsumeCode?
    ensures var req := c.threads[tid].request.token;
            && req.clientID in c.w.clients
            && c.w.clients[req.clientID] == c.threads[tid].pc.grant.client
            && Authenticates(k, c.w.clients[req.clientID], req.clientSecret)
  {
    assert ThreadOk(k, c, tid, c.threads[tid]);
  }

  lemma RedeemInSpec(k: Primitives, s: Spec, s': Spec, req: TokenRequest)
    requires req.clientID in s.clients && Authenticates(k, s.clients[req.clientID], req.clientSecret)
    requires req.code in s.codes
    requires s' == s.(codes := s'.codes, claimed := s'.claimed)
    requires s'.codes == s.codes - {req.code}
    requires s'.claimed ==
             if Bound(k, req, s.codes[req.code].value) then s.claimed[req.code := s.codes[req.code].value]
             else s.claimed
    ensures SpecEnabled(k, s, Redeem(req)) && SpecApply(k, s, Redeem(req)) == s'
  {}

  lemma SimulateRedeem(k: Primitives, c: Config, c': Config, tid: nat, o: Oracle)
    requires Inv(k, c) && StepViews(c, c', tid, o) && SameTables(c, c')
    requires Consumes(c.w, c.threads[tid], o) && HistoryGrows(c.h, c'.h)
    requires c'.threads[tid].pc == GrantStep(k, c.w, c.threads[tid].request.token, c.threads[tid].pc.grant, o).1
    ensures Simulates(k, c, c', Redeem(c.threads[tid].request.token))
  {
    var req := c.threads[tid].request.token;
    ClientStillThere(k, c, tid);
    CodeInView(k, c, req.code);
    assert TriesCode(c.threads[tid], o);
    hide Inv, ThreadOk, ClaimedOf, SessionsOf, CodesOf, ClaimsAfter, Find, Bound, Authenticates, HistoryGrows;
    RedeemClaims(k, c, c', tid, o);
    hide GrantStep, SpecEnabled, SpecApply;
    assert CodesOf(c'.w.entries, c'.w.now) == CodesOf(c.w.entries, c.w.now) - {req.code};
    RedeemInSpec(k, Abs(c), Abs(c'), req);
  }

  /** The user read before the row is stored is the one in the table when it is stored. */
  lemma DeliveryJudged(k: Primitives, c: Config, tid: nat, o: Oracle, pc': Pc)
    requires Inv(k, c) && tid in c.threads && Mints(c.threads[tid], pc')
    requires pc' == GrantStep(k, c.w, c.threads[tid].request.token, c.threads[tid].pc.grant, o).1
    requires MintedRow(k, c.threads[tid], o).userID in c.w.users
    ensures var code, row, response := c.threads[tid].request.token.code, MintedRow(k, c.threads[tid], o),
            pc'.outcome.tokens;
            && code in c.h.grants
            && var data := c.h.grants[code].data;
            && data.clientID in c.w.clients
            && row.userID == data.userID && row.clientID == data.clientID && row.scope == data.scope
            && row.tokenHash == HashToken(k, response.refreshToken) && row.revokedAt == None && row.id == o.uuid
            && response.accessToken.userID == data.userID
            && response.accessToken.email == c.w.users[data.userID].email
            && response.accessToken.clientID == data.clientID
            && response.accessToken.scope == response.scope == Scopes.Join(data.scope)
  {
    assert ThreadOk(k, c, tid, c.threads[tid]);
    assert UserOk(c, MintedRow(k, c.threads[tid], o).userID);
    hide Inv, Bound, HashToken, Scopes.Join, Authenticates, Find;
  }

  lemma DeliverClaims(c: Config, c': Config, tid: nat, o: Oracle)
    requires StepViews(c, c', tid, o)
    requires c.threads[tid].pc.GrantAt? && PastConsume(c.threads[tid].pc) && c'.threads[tid].pc.Done?
    ensures var code := c.threads[tid].request.token.code;
            code in ClaimedOf(c) && ClaimedOf(c') == ClaimedOf(c) - {code}
  {
    assert Redeeming(c.threads[tid], c.threads[tid].request.token.code);
    ClaimsMean(c, c', c.threads[tid], c'.threads[tid]);
    hide ClaimsAfter, ClaimedOf, MapsAfter;
  }

  lemma QuietMaps(c: Config, c': Config, tid: nat, o: Oracle)
    requires StepViews(c, c', tid, o) && c'.w.now == c.w.now
    requires c.threads[tid].pc.GrantAt? && PastConsume(c.threads[tid].pc)
    ensures SameMaps(c, c')
  {
    hide ClaimsAfter, SessionsOf, CodesOf;
  }

  lemma DeliverInSpec(k: Primitives, s: Spec, s': Spec, code: string, row: RefreshToken, response: TokenResponse)
    requires code in s.claimed
    requires var data := s.claimed[code];
             && data.clientID in s.clients && data.userID in s.users && row.id !in s.refreshTokens
             && row.userID == data.userID && row.clientID == data.clientID && row.scope == data.scope
             && row.tokenHash == HashToken(k, response.refreshToken) && row.revokedAt == None
             && response.accessToken.userID == data.userID
             && response.accessToken.email == s.users[data.userID].email
             && response.accessToken.clientID == data.clientID
             && response.accessToken.scope == response.scope == Scopes.Join(data.scope)
    requires s' == s.(claimed := s'.claimed, refreshTokens := s'.refreshTokens)
    requires s'.claimed == s.claimed - {code} && s'.refreshTokens == s.refreshTokens[row.id := row]
    ensures SpecEnabled(k, s, Deliver(code, row, response)) && SpecApply(k, s, Deliver(code, row, response)) == s'
  {
    hide HashToken, Scopes.Join;
  }

  ghost predicate RowAdded(c: Config, c': Config, row: RefreshToken) {
    && c'.w.now == c.w.now && c'.w.clients == c.w.clients && c'.w.users == c.w.users
    && row.id !in c.w.refreshTokens && row.userID in c.w.users
    && c'.w.refreshTokens == c.w.refreshTokens[row.id := row]
  }

  lemma SimulateDeliver(k: Primitives, c: Config, c': Config, tid: nat, o: Oracle)
    requires Inv(k, c) && StepViews(c, c', tid, o)
    requires Mints(c.threads[tid], c'.threads[tid].pc) && RowAdded(c, c', MintedRow(k, c.threads[tid], o))
    requires c'.threads[tid].pc == GrantStep(k, c.w, c.threads[tid].request.token, c.threads[tid].pc.grant, o).1
    ensures Simulates(k, c, c', Deliver(c.threads[tid].request.token.code, MintedRow(k, c.threads[tid], o),
                                        c'.threads[tid].pc.outcome.tokens))
  {
    var code, row, response := c.threads[tid].request.token.code, MintedRow(k, c.threads[tid], o),
        c'.threads[tid].pc.outcome.tokens;
    DeliveryJudged(k, c, tid, o, c'.threads[tid].pc);
    DeliverClaims(c, c', tid, o);
    ClaimedOfAt(c, code);
    QuietMaps(c, c', tid, o);
    hide StepViews;
    hide Inv, SpecEnabled, SpecApply, ClaimedOf, SessionsOf, CodesOf, ClaimsAfter, GrantStep, MintedRow, InFlight,
         HashToken, Scopes.Join;
    DeliverInSpec(k, Abs(c), Abs(c'), code, row, response);
  }

  lemma AbandonInSpec(k: Primitives, s: Spec, code: string, callFailed: bool)
    requires code in s.claimed && (callFailed || s.claimed[code].userID !in s.users)
    ensures SpecEnabled(k, s, Abandon(code, callFailed))
    ensures SpecApply(k, s, Abandon(code, callFailed)) == s.(claimed := s.claimed - {code})
  {}

  /** Past the consumption a redemption fails only because a call does or because its user is gone. */
  lemma AbandonIsExcused(k: Primitives, c: Config, tid: nat, o: Oracle, pc': Pc)
    requires Inv(k, c) && tid in c.threads && o.uuid !in c.h.used
    requires c.threads[tid].pc.GrantAt? && PastConsume(c.threads[tid].pc)
    requires pc' == Advance(k, c.w, c.threads[tid].request, c.threads[tid].pc, o).1
    requires pc'.Done? && !Mints(c.threads[tid], pc')
    ensures var code := c.threads[tid].request.token.code;
            code in c.h.grants && (o.fail || c.h.grants[code].data.userID !in c.w.users)
  {
    assert ThreadOk(k, c, tid, c.threads[tid]);
    NewRowID(k, c, o.uuid);
    hide Inv;
    hide Bound, HashToken, Scopes.Join, Authenticates, Find;
  }

  lemma SimulateAbandon(k: Primitives, c: Config, c': Config, tid: nat, o: Oracle)
    requires StepViews(c, c', tid, o) && SameTables(c, c')
    requires c.threads[tid].pc.GrantAt? && PastConsume(c.threads[tid].pc) && c'.threads[tid].pc.Done?
    requires var code := c.threads[tid].request.token.code;
             code in c.h.grants && (o.fail || c.h.grants[code].data.userID !in c.w.users)
    ensures Simulates(k, c, c', Abandon(c.threads[tid].request.token.code, o.fail))
  {
    DeliverClaims(c, c', tid, o);
    ClaimedOfAt(c, c.threads[tid].request.token.code);
    QuietMaps(c, c', tid, o);
    hide StepViews, ClaimedOf, SessionsOf, CodesOf, SpecEnabled, SpecApply, InFlight;
    AbandonInSpec(k, Abs(c), c.threads[tid].request.token.code, o.fail);
  }

  lemma SimulateAddUser(k: Primitives, c: Config, c': Config, tid: nat, o: Oracle)
    requires StepViews(c, c', tid, o)
    requires Enrols(c.threads[tid], c'.threads[tid].pc)
    requires var u := c.threads[tid].pc.register.user;
             && u.id !in c.w.users && !EmailInUse(c.w.users, u.email) && c'.w.users == c.w.users[u.id := u]
             && c'.w.now == c.w.now && c'.w.clients == c.w.clients && c'.w.refreshTokens == c.w.refreshTokens
    ensures Simulates(k, c, c', AddUser(c.threads[tid].pc.register.user))
  {
    hide ClaimedOf, SessionsOf, CodesOf, ClaimsAfter, EmailInUse;
    OtherRequests(c, c', tid, o);
  }

  lemma SimulateAddClient(k: Primitives, c: Config, c': Config, tid: nat, o: Oracle, client: Client)
    requires StepViews(c, c', tid, o)
    requires c.threads[tid].pc.RegisterClientAt? && client.id !in c.w.clients
    requires c'.w.clients == c.w.clients[client.id := client]
    requires c'.w.now == c.w.now && c'.w.users == c.w.users && c'.w.refreshTokens == c.w.refreshTokens
    ensures Simulates(k, c, c', AddClient(client))
  {
    hide ClaimedOf, SessionsOf, CodesOf, ClaimsAfter;
    OtherRequests(c, c', tid, o);
  }

  lemma Stutters(k: Primitives, c: Config, c': Config, tid: nat, o: Oracle)
    requires Inv(k, c) && StepViews(c, c', tid, o) && SameTables(c, c')
    requires var t, t' := c.threads[tid], c'.threads[tid];
             && !Stores(t, t'.pc) && !Grants(t, t'.pc) && !EndsSession(t, o) && !Consumes(c.w, t, o)
             && (forall code :: Redeeming(t', code) <==> Redeeming(t, code))
    ensures Abs(c') == Abs(c)
  {
    var t := c.threads[tid];
    if TriesCode(t, o) { CodeInView(k, c, t.request.token.code); }
    hide Inv, ClaimedOf, SessionsOf, CodesOf, Redeeming, Find;
    ClaimsSame(c, c', t, c'.threads[tid]);
  }

  // ---------------------------------------------------------------- every step, every run

  /** The tables after a step, as far as the kind of the step goes. */
  lemma StepTables(k: Primitives, c: Config, c': Config, tid: nat, o: Oracle)
    requires StepShape(k, c, c', tid, o)
    ensures var t, pc' := c.threads[tid], c'.threads[tid].pc;
            && c'.w.now == c.w.now
            && (!Mints(t, pc') ==> c'.w.refreshTokens == c.w.refreshTokens)
            && (!Enrols(t, pc') ==> c'.w.users == c.w.users)
            && (Mints(t, pc') ==> c'.w.users == c.w.users)
            && (Enrols(t, pc') ==>
                  var u := t.pc.register.user;
                  && u.id !in c.w.users && !EmailInUse(c.w.users, u.email) && c'.w.users == c.w.users[u.id := u]
                  && c'.w.refreshTokens == c.w.refreshTokens)
  {
    hide Grows, Note, EntriesAfter, MintedRow, EmailInUse;
  }

  /** The concrete step is the atomic action, or invisible. */
  ghost predicate Follows(k: Primitives, c: Config, c': Config, a: Option<SpecAction>) {
    match a
    case Some(action) => Simulates(k, c, c', action)
    case None => Abs(c') == Abs(c)
  }

  ghost predicate StepContext(k: Primitives, c: Config, c': Config, tid: nat, o: Oracle) {
    && Inv(k, c) && StepViews(c, c', tid, o) && StepShape(k, c, c', tid, o)
    && NotRecorded(c, tid, o, c'.threads[tid].pc)
    && ThreadOk(k, c, tid, c.threads[tid])
    && (c.threads[tid].pc.RegisterClientAt? || c'.w.clients == c.w.clients)
    && c'.threads[tid].pc == Advance(k, c.w, c.threads[tid].request, c.threads[tid].pc, o).1
    && c'.w.clients == Advance(k, c.w, c.threads[tid].request, c.threads[tid].pc, o).0.clients
  }

  lemma RunContext(k: Primitives, c: Config, tid: nat, o: Oracle)
    requires k.Valid() && Inv(k, c) && Enabled(k, c, Run(tid, o))
    ensures StepContext(k, c, Apply(k, c, Run(tid, o)), tid, o)
  {
    RunViews(k, c, tid, o);
    RunShape(k, c, tid, o);
    RunIsAfter(k, c, tid, o);
    RecordIsNew(k, c, tid, o, Apply(k, c, Run(tid, o)).threads[tid].pc);
    StepClients(k, c.w, c.threads[tid], o);
    assert ThreadOk(k, c, tid, c.threads[tid]);
    hide Inv, Enabled, Apply, Advance, StepViews, StepShape, NotRecorded, Note, ThreadOk, NewClient;
  }

  ghost predicate ClientAdded(c: Config, c': Config, client: Client) {
    || c'.w.clients == c.w.clients
    || (client.id !in c.w.clients && c'.w.clients == c.w.clients[client.id := client])
  }

  lemma RunClients(k: Primitives, c: Config, tid: nat, o: Oracle)
    requires Enabled(k, c, Run(tid, o)) && c.threads[tid].pc.RegisterClientAt?
    ensures ClientAdded(c, Apply(k, c, Run(tid, o)), NewClient(k, c.threads[tid].request.client, o).0)
  {
    StepClients(k, c.w, c.threads[tid], o);
    RunIsAfter(k, c, tid, o);
    hide Enabled, Apply, Advance, Note, NewClient;
  }

  ghost function LabelOf(k: Primitives, c: Config, c': Config, tid: nat, o: Oracle): Option<SpecAction>
    requires tid in c.threads && tid in c'.threads
  {
    LineariseStep(k, c.w, c.threads[tid], o, c'.w.clients, c'.threads[tid].pc)
  }

  lemma OtherStutters(k: Primitives, c: Config, c': Config, tid: nat, o: Oracle)
    requires Inv(k, c) && StepViews(c, c', tid, o) && SameTables(c, c') && !c.threads[tid].request.Exchange?
    requires var t, t' := c.threads[tid], c'.threads[tid];
             !Stores(t, t'.pc) && !Grants(t, t'.pc) && !EndsSession(t, o)
    ensures Abs(c') == Abs(c)
  {
    hide Inv;
    Stutters(k, c, c', tid, o);
  }

  lemma LoginFollows(k: Primitives, c: Config, c': Config, tid: nat, o: Oracle)
    requires StepContext(k, c, c', tid, o) && c.threads[tid].pc.LoginAt?
    ensures Follows(k, c, c', LabelOf(k, c, c', tid, o))
  {
    StepTables(k, c, c', tid, o);
    hide Inv, StepViews, StepShape, Simulates, Abs, Advance;
    if Stores(c.threads[tid], c'.threads[tid].pc) {
      UnknownSession(k, c, c.threads[tid].pc.login.id);
      SimulateOpen(k, c, c', tid, o);
    } else {
      OtherStutters(k, c, c', tid, o);
    }
  }

  lemma AuthorizeFollows(k: Primitives, c: Config, c': Config, tid: nat, o: Oracle)
    requires StepContext(k, c, c', tid, o) && c.threads[tid].pc.AuthorizeAt?
    ensures Follows(k, c, c', LabelOf(k, c, c', tid, o))
  {
    StepTables(k, c, c', tid, o);
    hide Inv, StepViews, StepShape, Simulates, Abs, Advance, ThreadOk;
    if Grants(c.threads[tid], c'.threads[tid].pc) {
      UnknownCode(k, c, c.threads[tid].pc.authorize.code);
      SimulateGrant(k, c, c', tid, o);
    } else {
      OtherStutters(k, c, c', tid, o);
    }
  }

  lemma LogoutFollows(k: Primitives, c: Config, c': Config, tid: nat, o: Oracle)
    requires StepContext(k, c, c', tid, o) && c.threads[tid].pc.LogoutAt?
    ensures Follows(k, c, c', LabelOf(k, c, c', tid, o))
  {
    StepTables(k, c, c', tid, o);
    hide Inv, StepViews, StepShape, Simulates, Abs, Advance;
    if EndsSession(c.threads[tid], o) {
      SimulateClose(k, c, c', tid, o);
    } else {
      OtherStutters(k, c, c', tid, o);
    }
  }

  lemma RegisterFollows(k: Primitives, c: Config, c': Config, tid: nat, o: Oracle)
    requires Inv(k, c) && StepViews(c, c', tid, o) && StepShape(k, c, c', tid, o) && c'.w.clients == c.w.clients
    requires c.threads[tid].pc.RegisterAt?
    ensures Follows(k, c, c', LabelOf(k, c, c', tid, o))
  {
    var t, t' := c.threads[tid], c'.threads[tid];
    StepTables(k, c, c', tid, o);
    hide Inv, StepViews, StepShape, Simulates, Abs, EmailInUse;
    if Enrols(t, t'.pc) {
      assert LabelOf(k, c, c', tid, o) == Some(AddUser(t.pc.register.user));
      hide LabelOf;
      SimulateAddUser(k, c, c', tid, o);
    } else {
      assert LabelOf(k, c, c', tid, o) == None;
      hide LabelOf;
      OtherStutters(k, c, c', tid, o);
    }
  }

  lemma RegisterClientFollows(k: Primitives, c: Config, c': Config, tid: nat, o: Oracle)
    requires Inv(k, c) && StepViews(c, c', tid, o) && StepShape(k, c, c', tid, o)
    requires c.threads[tid].pc.RegisterClientAt?
    requires ClientAdded(c, c', NewClient(k, c.threads[tid].request.client, o).0)
    ensures Follows(k, c, c', LabelOf(k, c, c', tid, o))
  {
    var t, client := c.threads[tid], NewClient(k, c.threads[tid].request.client, o).0;
    StepTables(k, c, c', tid, o);
    hide Inv, StepViews, StepShape, Simulates, Abs, EmailInUse, NewClient;
    if c'.w.clients != c.w.clients {
      assert LabelOf(k, c, c', tid, o) == Some(AddClient(client));
      hide LabelOf;
      SimulateAddClient(k, c, c', tid, o, client);
    } else {
      assert LabelOf(k, c, c', tid, o) == None;
      hide LabelOf;
      OtherStutters(k, c, c', tid, o);
    }
  }

  lemma IdleFollows(k: Primitives, c: Config, c': Config, tid: nat, o: Oracle)
    requires StepContext(k, c, c', tid, o) && (c.threads[tid].pc.RefreshAt? || c.threads[tid].pc.Done?)
    ensures Follows(k, c, c', LabelOf(k, c, c', tid, o))
  {
    StepTables(k, c, c', tid, o);
    assert Later(c.threads[tid], c'.threads[tid]);
    hide Inv, StepViews, StepShape, Simulates, Abs, Advance, ThreadOk;
    Stutters(k, c, c', tid, o);
  }

  lemma RedemptionFollows(k: Primitives, c: Config, c': Config, tid: nat, o: Oracle)
    requires StepContext(k, c, c', tid, o) && c.threads[tid].pc.GrantAt?
    ensures Follows(k, c, c', LabelOf(k, c, c', tid, o))
  {
    var t, t' := c.threads[tid], c'.threads[tid];
    StepTables(k, c, c', tid, o);
    GrantStepFacts(k, c.w, t, o);
    assert HistoryGrows(c.h, c'.h) && c'.w.clients == c.w.clients;
    if Mints(t, t'.pc) {
      assert RowAdded(c, c', MintedRow(k, t, o));
      hide Inv, StepViews, StepShape, Simulates, Abs, Advance, GrantStep, RowAdded;
      SimulateDeliver(k, c, c', tid, o);
    } else {
      hide Inv, StepViews, StepShape, Simulates, Abs, Advance, GrantStep, HistoryGrows, Consumes;
      if Consumes(c.w, t, o) {
        SimulateRedeem(k, c, c', tid, o);
      } else if PastConsume(t.pc) && t'.pc.Done? {
        AbandonIsExcused(k, c, tid, o, t'.pc);
        SimulateAbandon(k, c, c', tid, o);
      } else {
        Stutters(k, c, c', tid, o);
      }
    }
  }

  /** How a redemption moves: it stays on its side of the consumption unless it consumes. */
  lemma GrantStepFacts(k: Primitives, w: World, t: Thread, o: Oracle)
    requires t.pc.GrantAt?
    ensures var (w', pc') := Advance(k, w, t.request, t.pc, o);
            && w'.clients == w.clients
            && (Consumes(w, t, o) || Mints(t, pc') ==> pc' == GrantStep(k, w, t.request.token, t.pc.grant, o).1)
            && (!Consumes(w, t, o) && !PastConsume(t.pc) ==> !pc'.GrantAt? || !PastConsume(pc'))
            && (PastConsume(t.pc) ==> PastConsume(pc') && (pc'.GrantAt? || pc'.Done?))
            && (Consumes(w, t, o) ==> !PastConsume(t.pc))
  {
    hide Find, Bound, Authenticates;
  }

  lemma RunSimulates(k: Primitives, c: Config, tid: nat, o: Oracle)
    requires k.Valid() && Inv(k, c) && Enabled(k, c, Run(tid, o))
    ensures Follows(k, c, Apply(k, c, Run(tid, o)), Linearise(k, c, Run(tid, o)))
  {
    var c' := Apply(k, c, Run(tid, o));
    RunContext(k, c, tid, o);
    RunIsAfter(k, c, tid, o);
    hide Inv, Enabled, Apply, StepContext, Follows, LineariseStep, Advance;
    match c.threads[tid].pc
    case GrantAt(_) => RedemptionFollows(k, c, c', tid, o);
    case AuthorizeAt(_) => AuthorizeFollows(k, c, c', tid, o);
    case LoginAt(_) => LoginFollows(k, c, c', tid, o);
    case LogoutAt => LogoutFollows(k, c, c', tid, o);
    case RefreshAt(_) => IdleFollows(k, c, c', tid, o);
    case RegisterAt(_) => RegisterFollows(k, c, c', tid, o);
    case RegisterClientAt =>
      RunClients(k, c, tid, o);
      RegisterClientFollows(k, c, c', tid, o);
    case Done(_) => IdleFollows(k, c, c', tid, o);
  }

  lemma ClaimsOfThreads(c: Config, c': Config)
    requires c'.h == c.h && forall tid :: tid in c.threads ==> tid in c'.threads && c'.threads[tid] == c.threads[tid]
    requires forall code :: code in c.h.spent ==> c.h.spent[code] in c.threads
    ensures ClaimedOf(c') == ClaimedOf(c)
  {}

  lemma QuietClaims(k: Primitives, c: Config, a: Action)
    requires Inv(k, c) && Enabled(k, c, a) && !a.Run?
    ensures ClaimedOf(Apply(k, c, a)) == ClaimedOf(c)
  {
    forall code | code in c.h.spent ensures c.h.spent[code] in c.threads { assert SpentOk(c, code); }
    var c' := Apply(k, c, a);
    assert c'.h == c.h && forall tid :: tid in c.threads ==> tid in c'.threads && c'.threads[tid] == c.threads[tid];
    hide Inv, Apply, Enabled, ClaimedOf;
    ClaimsOfThreads(c, c');
  }

  lemma WaitInSpec(k: Primitives, s: Spec, later: int)
    requires s.now <= later
    ensures SpecEnabled(k, s, Wait(later))
    ensures SpecApply(k, s, Wait(later)) ==
            s.(now := later, sessions := Unexpired(s.sessions, later), codes := Unexpired(s.codes, later))
  {}

  lemma TickSimulates(k: Primitives, c: Config, later: int)
    requires Inv(k, c) && Enabled(k, c, Tick(later))
    ensures Simulates(k, c, Apply(k, c, Tick(later)), Wait(later))
  {
    QuietClaims(k, c, Tick(later));
    TimePasses(c.w.entries, c.w.now, later);
    WaitInSpec(k, Abs(c), later);
    hide Inv, ClaimedOf, SessionsOf, CodesOf, Unexpired, SpecEnabled, SpecApply;
  }

  lemma MaintainInSpec(k: Primitives, s: Spec, a: Action)
    requires !a.Run? && !a.Arrive? && !a.Tick?
    ensures SpecEnabled(k, s, Maintain(a))
    ensures SpecApply(k, s, Maintain(a)) ==
            s.(users := MaintainedUsers(s.users, a), refreshTokens := MaintainedRows(s.refreshTokens, a, s.now))
  {}

  lemma MaintenanceSimulates(k: Primitives, c: Config, a: Action)
    requires Inv(k, c) && Enabled(k, c, a) && !a.Run? && !a.Arrive? && !a.Tick?
    ensures Simulates(k, c, Apply(k, c, a), Maintain(a))
  {
    QuietClaims(k, c, a);
    MaintainInSpec(k, Abs(c), a);
    hide Inv, ClaimedOf, SessionsOf, CodesOf, MaintainedUsers, MaintainedRows, SpecEnabled, SpecApply;
  }

  lemma OtherSimulates(k: Primitives, c: Config, a: Action)
    requires Inv(k, c) && Enabled(k, c, a) && !a.Run?
    ensures Follows(k, c, Apply(k, c, a), Linearise(k, c, a))
  {
    QuietClaims(k, c, a);
    if a.Arrive? {
      hide Inv, ClaimedOf, SessionsOf, CodesOf;
    } else {
      hide Inv, Simulates, Apply, Enabled, Abs;
      if a.Tick? { TickSimulates(k, c, a.later); } else { MaintenanceSimulates(k, c, a); }
    }
  }

  lemma StepSimulates(k: Primitives, c: Config, a: Action)
    requires k.Valid() && Inv(k, c) && Enabled(k, c, a)
    ensures Follows(k, c, Apply(k, c, a), Linearise(k, c, a))
  {
    hide Inv, Enabled, Apply, Follows;
    if a.Run? { RunSimulates(k, c, a.tid, a.oracle); } else { OtherSimulates(k, c, a); }
  }

  /** The atomic run that an interleaved run amounts to. */
  ghost function Atomic(k: Primitives, c: Config, actions: seq<Action>): seq<SpecAction>
    requires CanRun(k, c, actions)
    decreases |actions|
  {
    if actions == [] then []
    else
      var rest := Atomic(k, Apply(k, c, actions[0]), actions[1..]);
      match Linearise(k, c, actions[0])
      case Some(a) => [a] + rest
      case None => rest
  }

  /** Linearisation: every run of any number of interleaved requests is a run of the atomic
      specification, ending in the state that the configuration stands for. */
  lemma {:induction false} RunsAreAtomic(k: Primitives, c: Config, actions: seq<Action>)
    requires k.Valid() && Inv(k, c) && CanRun(k, c, actions)
    ensures SpecCanRun(k, Abs(c), Atomic(k, c, actions))
    ensures SpecExec(k, Abs(c), Atomic(k, c, actions)) == Abs(Exec(k, c, actions))
    decreases |actions|
  {
    hide Inv, Enabled, Apply, Linearise, Abs, SpecEnabled, SpecApply;
    if actions != [] {
      var c' := Apply(k, c, actions[0]);
      StepSimulates(k, c, actions[0]);
      ActionInv(k, c, actions[0]);
      RunsAreAtomic(k, c', actions[1..]);
      var rest := Atomic(k, c', actions[1..]);
      match Linearise(k, c, actions[0])
      case None =>
      case Some(a) => assert ([a] + rest)[1..] == rest;
    }
  }

  lemma ExcuseOfStep(k: Primitives, c: Config, a: Action, code: string)
    requires Inv(k, c) && Enabled(k, c, a) && Linearise(k, c, a) == Some(Abandon(code, true))
    ensures a.Run? && a.oracle.fail && code in c.h.spent && c.h.spent[code] == a.tid
  {
    assert ThreadOk(k, c, a.tid, c.threads[a.tid]);
    hide Inv, Advance, Bound, MintedRow, NewClient;
  }

  /** The excuse of a failed call is never a pretence: a redemption that the atomic run abandons for that
      reason is one whose own request, the one that consumed the code, made a call that failed. Any other
      abandoned redemption had lost its user. */
  lemma {:induction false} AbandonsAreExcused(k: Primitives, c: Config, actions: seq<Action>, code: string)
    requires k.Valid() && Inv(k, c) && CanRun(k, c, actions) && Abandon(code, true) in Atomic(k, c, actions)
    ensures code in Exec(k, c, actions).h.spent
    ensures !NoCallFails(actions, Exec(k, c, actions).h.spent[code])
    decreases |actions|
  {
    var a, c1, end := actions[0], Apply(k, c, actions[0]), Exec(k, c, actions);
    RunsGrow(k, c, actions);
    assert Extends(c.h.spent, end.h.spent);
    ActionInv(k, c, a);
    hide Inv, Enabled, Apply, Grows, Linearise;
    if Linearise(k, c, a) == Some(Abandon(code, true)) {
      ExcuseOfStep(k, c, a, code);
      assert actions[0].Run? && actions[0].tid == end.h.spent[code];
    } else {
      AbandonsAreExcused(k, c1, actions[1..], code);
      if NoCallFails(actions, end.h.spent[code]) { RestCallsSucceed(actions, end.h.spent[code]); }
    }
  }

  lemma {:induction false} ReachableIsAtomic(k: Primitives, now: int, actions: seq<Action>)
    requires k.Valid() && CanRun(k, Initial(now), actions)
    ensures var s := Spec(now, map[], map[], map[], map[], map[], map[]);
            && SpecCanRun(k, s, Atomic(k, Initial(now), actions))
            && SpecExec(k, s, Atomic(k, Initial(now), actions)) == Abs(Exec(k, Initial(now), actions))
  {
    InitialInv(k, now);
    assert Abs(Initial(now)) == Spec(now, map[], map[], map[], map[], map[], map[]);
    hide Inv, Initial, Abs, Enabled, Apply, SpecEnabled, SpecApply, Linearise;
    RunsAreAtomic(k, Initial(now), actions);
  }
}
