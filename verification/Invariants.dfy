/** What holds in every reachable configuration. The facts about a request or about a past event,
    once true, stay true (`Grows`); the facts about the store and the tables are kept step by step. */
module Invariants {
  import opened Prelude
  import opened Entities
  import opened Crypto
  import opened Store
  import opened Tables
  import opened Protocol
  import opened Machine
  import Scopes

  // ---------------------------------------------------------------- stable facts

  /** `client` is what the registry holds, now and later, for `id`. */
  ghost predicate InRegistry(c: Config, id: string, client: Client) {
    id in c.w.clients && c.w.clients[id] == client && client.id == id
  }

  /** The user was inserted once, exactly like this. */
  ghost predicate Enrolled(c: Config, user: User) {
    user.id in c.h.enrolled && c.h.enrolled[user.id].user == user
  }

  /** The scopes and the redirect target are ones the client registered. */
  ghost predicate Allowed(client: Client, redirectURI: string, scope: seq<string>) {
    && redirectURI in client.redirectURIs
    && scope != [] && Scopes.AllTokens(scope)
    && forall s :: s in scope ==> s in client.scopes
  }

  ghost predicate DrawnBy(c: Config, value: string, tid: nat) {
    value in c.h.used && c.h.used[value] == tid
  }

  /** Request `tid` has consumed the code that its token request presents, and it was bound. */
  ghost predicate Claimed(k: Primitives, c: Config, tid: nat, req: TokenRequest, data: AuthCode, at: int) {
    && req.code in c.h.spent && c.h.spent[req.code] == tid
    && req.code in c.h.grants && c.h.grants[req.code].data == data
    && c.h.grants[req.code].at <= at <= c.h.grants[req.code].at + AUTH_CODE_TTL
    && Bound(k, req, data)
  }

  ghost predicate ClaimsFor(c: Config, claims: Claims, userID: string, clientID: string, scope: seq<string>) {
    && claims.userID == userID
    && userID in c.h.enrolled && c.h.enrolled[userID].user.email == claims.email
    && claims.clientID == clientID
    && claims.scope == Scopes.Join(scope)
  }

  /** The session was live at instant `at`. */
  ghost predicate SessionSeen(c: Config, id: string, session: Session, at: int) {
    && id in c.h.logins && c.h.logins[id].session == session
    && c.h.logins[id].at <= at <= c.h.logins[id].at + SESSION_TTL
  }

  /** `row` is a row inserted by a redemption, except perhaps for its revocation. */
  ghost predicate RowKnown(c: Config, row: RefreshToken) {
    && row.id in c.h.rowOwner
    && c.h.rowOwner[row.id] in c.h.minted
    && c.h.minted[c.h.rowOwner[row.id]].row == row.(revokedAt := None)
  }

  ghost predicate GrantOk(k: Primitives, c: Config, tid: nat, t: Thread, g: GrantPc)
    requires t.request.Exchange?
  {
    var req := t.request.token;
    match g
    case FindClient => true
    case ConsumeCode(client) =>
      InRegistry(c, req.clientID, client) && Authenticates(k, client, req.clientSecret)
    case FindUser(client, data) =>
      InRegistry(c, req.clientID, client) && Claimed(k, c, tid, req, data, t.mark)
    case ReadExpiry(client, data, user) =>
      && InRegistry(c, req.clientID, client) && Claimed(k, c, tid, req, data, t.mark)
      && user.id == data.userID && Enrolled(c, user)
    case ReadIssued(client, data, user, _) =>
      && InRegistry(c, req.clientID, client) && Claimed(k, c, tid, req, data, t.mark)
      && user.id == data.userID && Enrolled(c, user)
    case DrawRefresh(client, data, claims) =>
      && InRegistry(c, req.clientID, client) && Claimed(k, c, tid, req, data, t.mark)
      && ClaimsFor(c, claims, data.userID, client.id, data.scope)
      && DrawnBy(c, claims.tokenID, tid)
    case StoreRefresh(client, data, claims, raw, _) =>
      && InRegistry(c, req.clientID, client) && Claimed(k, c, tid, req, data, t.mark)
      && ClaimsFor(c, claims, data.userID, client.id, data.scope)
      && DrawnBy(c, claims.tokenID, tid) && DrawnBy(c, raw, tid)
  }

  ghost predicate AuthorizeOk(c: Config, tid: nat, t: Thread, a: AuthorizePc)
    requires t.request.Authorize?
  {
    var req := t.request.authorize;
    match a
    case LookUpClient => true
    case FindSession(client, requested, promptNone) =>
      && InRegistry(c, req.clientID, client)
      && Allowed(client, req.redirectURI, requested)
      && requested == Scopes.Fields(req.scope)
      && promptNone == ("none" in Scopes.Fields(req.prompt))
    case DrawCode(client, requested, session) =>
      && InRegistry(c, req.clientID, client)
      && Allowed(client, req.redirectURI, requested)
      && requested == Scopes.Fields(req.scope)
      && SessionSeen(c, t.request.sessionID, session, t.mark)
    case StoreCode(code, data) =>
      DrawnBy(c, code, tid) && DataOk(c, t.request, data, t.mark)
  }

  /** What a code carries follows from the request and from the session that was seen. */
  ghost predicate DataOk(c: Config, request: Request, data: AuthCode, seenAt: int)
    requires request.Authorize?
  {
    var req := request.authorize;
    && req.clientID in c.w.clients
    && Allowed(c.w.clients[req.clientID], req.redirectURI, data.scope)
    && data.clientID == req.clientID
    && data.redirectURI == req.redirectURI
    && data.scope == Scopes.Fields(req.scope)
    && data.challenge == req.challenge && data.challengeMethod == req.challengeMethod && data.nonce == req.nonce
    && request.sessionID in c.h.logins
    && SessionSeen(c, request.sessionID, c.h.logins[request.sessionID].session, seenAt)
    && data.userID == c.h.logins[request.sessionID].session.userID
  }

  /** The email and password of the request were those of an enrolled user. */
  ghost predicate PasswordChecked(k: Primitives, c: Config, request: Request, userID: string)
    requires request.Login?
  {
    && userID in c.h.enrolled
    && c.h.enrolled[userID].user.id == userID
    && c.h.enrolled[userID].user.email == request.email
    && k.matches(c.h.enrolled[userID].user.passwordHash, request.password)
  }

  ghost predicate LoginStepOk(k: Primitives, c: Config, tid: nat, t: Thread, l: LoginPc)
    requires t.request.Login?
  {
    match l
    case CheckPassword => true
    case DrawSession(user) =>
      Enrolled(c, user) && PasswordChecked(k, c, t.request, user.id)
    case StoreSession(id, session) =>
      && DrawnBy(c, id, tid)
      && PasswordChecked(k, c, t.request, session.userID) && session.email == t.request.email
    case ReadCookieExpiry(id) =>
      id in c.h.logins && c.h.logins[id].tid == tid && c.h.logins[id].at <= c.w.now
  }

  ghost predicate RefreshOk(k: Primitives, c: Config, tid: nat, t: Thread, r: RefreshPc)
    requires t.request.Refresh?
  {
    var hash := HashToken(k, t.request.rawToken);
    match r
    case FindRow => true
    case CheckExpiry(row) => RowKnown(c, row) && row.tokenHash == hash
    case FindOwner(row) => RowKnown(c, row) && row.tokenHash == hash && t.mark <= row.expiresAt
    case ReadTokenExpiry(row, user) =>
      RowKnown(c, row) && row.tokenHash == hash && t.mark <= row.expiresAt && user.id == row.userID && Enrolled(c, user)
    case IssueToken(row, user, _) =>
      RowKnown(c, row) && row.tokenHash == hash && t.mark <= row.expiresAt && user.id == row.userID && Enrolled(c, user)
  }

  ghost predicate RegisterOk(c: Config, tid: nat, t: Thread, r: RegisterPc)
    requires t.request.Register?
  {
    match r
    case CheckEmail => true
    case StoreUser(user) => DrawnBy(c, user.id, tid) && user.email == t.request.email
  }

  ghost predicate OutcomeOk(k: Primitives, c: Config, tid: nat, t: Thread, outcome: Outcome) {
    match outcome
    case Tokens(response) =>
      tid in c.h.minted && c.h.minted[tid].response == response
    case Authorized(result) =>
      && t.request.Authorize?
      && (result.action in {IssueCode, ErrorToClient} ==>
            && t.request.authorize.clientID in c.w.clients
            && t.request.authorize.redirectURI in c.w.clients[t.request.authorize.clientID].redirectURIs
            && result.redirectURI == t.request.authorize.redirectURI)
      && (result.action == IssueCode ==> result.code in c.h.grants && c.h.grants[result.code].tid == tid)
    case LoggedIn(id, expiresAt) =>
      id in c.h.logins && c.h.logins[id].tid == tid && c.h.logins[id].at + SESSION_TTL <= expiresAt
    case LoggedOut => true
    case Refreshed(claims, _) =>
      && claims.tokenID in c.h.access && c.h.access[claims.tokenID].tid == tid
      && c.h.access[claims.tokenID].claims == claims
    case Registered(user) =>
      user.id in c.h.enrolled && c.h.enrolled[user.id] == EnrolRecord(tid, user)
    case ClientCreated(response) =>
      && t.request.RegisterClient?
      && response.clientID in c.w.clients
      && CreatedOk(k, t.request.client, c.w.clients[response.clientID], response)
    case Failed(_) => true
  }

  /** The answer of a registration and the row it stored. */
  ghost predicate CreatedOk(k: Primitives, req: RegisterClientRequest, client: Client,
                            response: RegisterClientResponse) {
    && client.name == response.name == req.name && client.isFirstParty == req.isFirstParty
    && client.redirectURIs == req.redirectURIs && client.scopes == req.scopes && client.grantTypes == req.grantTypes
    && (req.isPublic <==> client.secretHash == "")
    && (req.isPublic <==> response.clientSecret == "")
    && (!req.isPublic ==> |response.clientSecret| == 43 && k.matches(client.secretHash, response.clientSecret))
  }

  ghost predicate ThreadOk(k: Primitives, c: Config, tid: nat, t: Thread) {
    && t.started <= t.mark <= c.w.now
    && match t.pc
       case GrantAt(g) => GrantOk(k, c, tid, t, g)
       case AuthorizeAt(a) => AuthorizeOk(c, tid, t, a)
       case LoginAt(l) => LoginStepOk(k, c, tid, t, l)
       case LogoutAt => true
       case RefreshAt(r) => RefreshOk(k, c, tid, t, r)
       case RegisterAt(r) => RegisterOk(c, tid, t, r)
       case RegisterClientAt => true
       case Done(outcome) => OutcomeOk(k, c, tid, t, outcome)
  }

  // ---------------------------------------------------------------- facts about past events

  ghost predicate Finished(c: Config, tid: nat) {
    tid in c.threads && c.threads[tid].pc.Done?
  }

  /** A session was stored by a login that had checked the password of its user. */
  ghost predicate LoginOk(k: Primitives, c: Config, id: string) {
    id in c.h.logins ==>
      var r := c.h.logins[id];
      && DrawnBy(c, id, r.tid)
      && r.tid in c.threads && c.threads[r.tid].request.Login?
      && (c.threads[r.tid].pc.Done? || c.threads[r.tid].pc == LoginAt(ReadCookieExpiry(id)))
      && PasswordChecked(k, c, c.threads[r.tid].request, r.session.userID)
      && r.session.email == c.threads[r.tid].request.email
      && r.at <= c.w.now
  }

  /** A code was stored by an authorization under a session that was live when looked up. */
  ghost predicate CodeOk(c: Config, code: string) {
    code in c.h.grants ==>
      var r := c.h.grants[code];
      && DrawnBy(c, code, r.tid)
      && Finished(c, r.tid) && c.threads[r.tid].request.Authorize?
      && c.threads[r.tid].pc.outcome.Authorized?
      && c.threads[r.tid].pc.outcome.decision.action == IssueCode
      && c.threads[r.tid].pc.outcome.decision.code == code
      && r.sessionID == c.threads[r.tid].request.sessionID
      && DataOk(c, c.threads[r.tid].request, r.data, r.lookedUpAt)
      && c.threads[r.tid].mark == r.lookedUpAt
      && r.lookedUpAt <= r.at <= c.w.now
  }

  ghost predicate SpentOk(c: Config, code: string) {
    code in c.h.spent ==>
      && code in c.h.grants
      && c.h.spent[code] in c.threads
      && c.threads[c.h.spent[code]].request.Exchange?
      && c.threads[c.h.spent[code]].request.token.code == code
      && c.threads[c.h.spent[code]].pc != GrantAt(FindClient)
      && (c.threads[c.h.spent[code]].pc.GrantAt? ==> !c.threads[c.h.spent[code]].pc.grant.ConsumeCode?)
  }

  /** Tokens were minted by a finished redemption, for the code it consumed. */
  ghost predicate MintOk(k: Primitives, c: Config, tid: nat) {
    tid in c.h.minted ==>
      var m := c.h.minted[tid];
      && Finished(c, tid) && c.threads[tid].request.Exchange?
      && c.threads[tid].pc.outcome == Tokens(m.response)
      && m.code == c.threads[tid].request.token.code
      && m.code in c.h.grants
      && Claimed(k, c, tid, c.threads[tid].request.token, c.h.grants[m.code].data, m.consumedAt)
      && m.row.userID == c.h.grants[m.code].data.userID
      && m.row.clientID == c.h.grants[m.code].data.clientID
      && m.row.scope == c.h.grants[m.code].data.scope
      && m.row.tokenHash == HashToken(k, m.response.refreshToken)
      && m.row.revokedAt == None
      && DrawnBy(c, m.row.id, tid) && DrawnBy(c, m.response.refreshToken, tid)
      && m.row.id in c.h.rowOwner && c.h.rowOwner[m.row.id] == tid
      && ClaimsFor(c, m.response.accessToken, m.row.userID, m.row.clientID, m.row.scope)
      && m.response.accessToken.tokenID in c.h.access
      && c.h.access[m.response.accessToken.tokenID] == AccessRecord(tid, m.row.id, m.response.accessToken)
      && m.response.scope == Scopes.Join(m.row.scope)
      && m.response.tokenType == "Bearer" && m.response.expiresIn == ACCESS_TOKEN_TTL
  }

  ghost predicate OwnerOk(c: Config, rowID: string) {
    rowID in c.h.rowOwner ==>
      && DrawnBy(c, rowID, c.h.rowOwner[rowID])
      && c.h.rowOwner[rowID] in c.h.minted && c.h.minted[c.h.rowOwner[rowID]].row.id == rowID
  }

  /** An access token was returned by a finished request and carries what its refresh row carries; a
      legacy refresh presented the token of that row. */
  ghost predicate AccessOk(k: Primitives, c: Config, tokenID: string) {
    tokenID in c.h.access ==>
      var r := c.h.access[tokenID];
      && r.claims.tokenID == tokenID
      && DrawnBy(c, tokenID, r.tid)
      && Finished(c, r.tid)
      && (c.threads[r.tid].pc.outcome.Tokens? || c.threads[r.tid].pc.outcome.Refreshed?)
      && r.rowID in c.h.rowOwner && c.h.rowOwner[r.rowID] in c.h.minted
      && var row := c.h.minted[c.h.rowOwner[r.rowID]].row;
         && ClaimsFor(c, r.claims, row.userID, row.clientID, row.scope)
         && (c.threads[r.tid].request.Refresh? ==> row.tokenHash == HashToken(k, c.threads[r.tid].request.rawToken))
  }

  ghost predicate EnrolOk(c: Config, userID: string) {
    userID in c.h.enrolled ==>
      var r := c.h.enrolled[userID];
      && r.user.id == userID
      && DrawnBy(c, userID, r.tid)
      && Finished(c, r.tid) && c.threads[r.tid].pc.outcome == Registered(r.user)
      && c.threads[r.tid].request.Register? && c.threads[r.tid].request.email == r.user.email
  }

  // ---------------------------------------------------------------- the store and the tables

  /** Every key was written by a login or by an authorization, and carries that event's expiry. */
  ghost predicate EntryOk(c: Config, key: string) {
    key in c.w.entries ==>
      || (IsSessionKey(key) && SessionID(key) in c.h.logins &&
          var r := c.h.logins[SessionID(key)];
          c.w.entries[key] == Entry(SessionPayload(r.session), Some(r.at + SESSION_TTL)))
      || (IsCodeKey(key) && CodeOf(key) in c.h.grants &&
          var r := c.h.grants[CodeOf(key)];
          c.w.entries[key] == Entry(CodePayload(r.data), Some(r.at + AUTH_CODE_TTL)))
  }

  /** A consumed code is gone from the store; one neither consumed nor expired is still there. */
  ghost predicate CodeStored(c: Config, code: string) {
    code in c.h.grants ==>
      && (code in c.h.spent ==> CodeKey(code) !in c.w.entries)
      && (code !in c.h.spent && c.w.now <= c.h.grants[code].at + AUTH_CODE_TTL ==> CodeKey(code) in c.w.entries)
  }

  /** Every refresh row was inserted by a redemption and names an existing user. */
  ghost predicate RowOk(c: Config, id: string) {
    id in c.w.refreshTokens ==>
      && c.w.refreshTokens[id].id == id
      && RowKnown(c, c.w.refreshTokens[id])
      && c.w.refreshTokens[id].userID in c.w.users
  }

  ghost predicate UserOk(c: Config, id: string) {
    id in c.w.users ==> c.w.users[id].id == id && Enrolled(c, c.w.users[id])
  }

  ghost predicate ClientOk(c: Config, id: string) {
    id in c.w.clients ==>
      && c.w.clients[id].id == id
      && forall g :: g in c.w.clients[id].grantTypes ==> SupportedGrantType(g)
  }

  ghost predicate DigestsDistinct(k: Primitives, c: Config) {
    forall x, y :: x in c.h.used && y in c.h.used && HashToken(k, x) == HashToken(k, y) ==> x == y
  }

  ghost predicate Stable(k: Primitives, c: Config) {
    && (forall tid :: tid in c.threads ==> ThreadOk(k, c, tid, c.threads[tid]))
    && (forall id :: LoginOk(k, c, id))
    && (forall code :: CodeOk(c, code))
    && (forall code :: SpentOk(c, code))
    && (forall tid :: MintOk(k, c, tid))
    && (forall id :: OwnerOk(c, id))
    && (forall id :: AccessOk(k, c, id))
    && (forall id :: EnrolOk(c, id))
  }

  ghost predicate Inv(k: Primitives, c: Config) {
    && Stable(k, c)
    && (forall key :: EntryOk(c, key))
    && (forall code :: CodeStored(c, code))
    && (forall id :: RowOk(c, id))
    && (forall id :: UserOk(c, id))
    && EmailsDistinct(c.w.users)
    && (forall id :: ClientOk(c, id))
    && DigestsDistinct(k, c)
  }
}
