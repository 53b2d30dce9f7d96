/** The request handlers as programs of atomic steps: one repository call, clock reading or random
    draw a step, with the pure checks that follow it. `Advance` is the meaning of one step; nothing
    is assumed about what other requests do in between. */
module Protocol {
  import opened Prelude
  import opened Entities
  import opened Crypto
  import opened Store
  import opened Tables
  import Base64Url
  import Scopes

  /** Everything the requests share. */
  datatype World = World(
    now: int,
    entries: Entries,
    clients: Clients,
    users: Users,
    refreshTokens: RefreshTokens)

  datatype Request =
    | Exchange(token: TokenRequest)
    | Authorize(authorize: AuthorizeRequest, sessionID: string)
    | Login(email: string, password: string)
    | Logout(sessionID: string)
    | Refresh(rawToken: string)
    | Register(email: string, password: string)
    | RegisterClient(client: RegisterClientRequest)

  /** What the outside supplies to one step: whether the call fails, a UUID, 32 random bytes, a
      bcrypt salt, and the row a lookup by hash reports. */
  datatype Oracle = Oracle(fail: bool, uuid: string, random: seq<byte>, salt: string, pick: string)

  /** The instant of a step, and what the outside supplies to it. */
  datatype Moment = Moment(now: int, oracle: Oracle)

  datatype Outcome =
    | Tokens(tokens: TokenResponse)
    | Authorized(decision: AuthorizeResult)
    | LoggedIn(sessionID: string, expiresAt: int)
    | LoggedOut
    | Refreshed(accessToken: Claims, expiresIn: int)
    | Registered(user: User)
    | ClientCreated(created: RegisterClientResponse)
    | Failed(error: Error)

  datatype GrantPc =
    | FindClient
    | ConsumeCode(client: Client)
    | FindUser(client: Client, data: AuthCode)
    | ReadExpiry(client: Client, data: AuthCode, user: User)
    | ReadIssued(client: Client, data: AuthCode, user: User, expiresAt: int)
    | DrawRefresh(client: Client, data: AuthCode, claims: Claims)
    | StoreRefresh(client: Client, data: AuthCode, claims: Claims, raw: string, refreshExpiresAt: int)

  datatype AuthorizePc =
    | LookUpClient
    | FindSession(client: Client, requested: seq<string>, promptNone: bool)
    | DrawCode(client: Client, requested: seq<string>, session: Session)
    | StoreCode(code: string, data: AuthCode)

  datatype LoginPc =
    | CheckPassword
    | DrawSession(user: User)
    | StoreSession(id: string, session: Session)
    | ReadCookieExpiry(id: string)

  datatype RefreshPc =
    | FindRow
    | CheckExpiry(row: RefreshToken)
    | FindOwner(row: RefreshToken)
    | ReadTokenExpiry(row: RefreshToken, user: User)
    | IssueToken(row: RefreshToken, user: User, expiresAt: int)

  datatype RegisterPc =
    | CheckEmail
    | StoreUser(user: User)

  datatype Pc =
    | GrantAt(grant: GrantPc)
    | AuthorizeAt(authorize: AuthorizePc)
    | LoginAt(login: LoginPc)
    | LogoutAt
    | RefreshAt(refresh: RefreshPc)
    | RegisterAt(register: RegisterPc)
    | RegisterClientAt
    | Done(outcome: Outcome)

  function Fail(e: Error): Pc { Done(Failed(e)) }

  // ---------------------------------------------------------------- pure checks

  const GRANT_AUTHORIZATION_CODE := "authorization_code"
  const GRANT_REFRESH_TOKEN := "refresh_token"
  const GRANT_CLIENT_CREDENTIALS := "client_credentials"

  predicate SupportedGrantType(grantType: string) {
    grantType == GRANT_AUTHORIZATION_CODE || grantType == GRANT_REFRESH_TOKEN
  }

  /** What is wrong with one grant type of a registration, if anything. */
  function Offence(grantType: string, isPublic: bool): Option<Error> {
    if isPublic && grantType == GRANT_CLIENT_CREDENTIALS then Some(PublicClientCredentialsGrant)
    else if !SupportedGrantType(grantType) then Some(UnsupportedGrantType)
    else None
  }

  function FirstOffence(grantTypes: seq<string>, isPublic: bool): Option<Error> {
    if grantTypes == [] then None
    else if Offence(grantTypes[0], isPublic).Some? then Offence(grantTypes[0], isPublic)
    else FirstOffence(grantTypes[1..], isPublic)
  }

  /** A confidential client must present its secret; a public one need not. */
  predicate Authenticates(k: Primitives, client: Client, secret: string) {
    client.secretHash == "" || k.matches(client.secretHash, secret)
  }

  /** The code was issued to this client for this redirect target, and the verifier answers its
      S256 challenge. */
  predicate Bound(k: Primitives, req: TokenRequest, data: AuthCode) {
    && data.clientID == req.clientID
    && data.redirectURI == req.redirectURI
    && data.challengeMethod == "S256"
    && data.challenge == Challenge(k, req.codeVerifier)
  }

  const UNKNOWN_CLIENT := "unknown client_id"
  const UNREGISTERED_TARGET := "redirect_uri is not registered for this client"

  function ErrorToRedirect(req: AuthorizeRequest, oauthError: string): AuthorizeResult {
    AuthorizeResult(ErrorToClient, req.redirectURI, req.state, "", oauthError, "")
  }

  function Rejection(message: string): AuthorizeResult {
    AuthorizeResult(RejectDirect, "", "", "", "", message)
  }

  // ---------------------------------------------------------------- the programs

  /** Where a request starts. Dispatch on the grant type happens before any call. */
  function Start(request: Request): Pc {
    match request
    case Exchange(req) =>
      if req.grantType == GRANT_AUTHORIZATION_CODE then GrantAt(FindClient)
      else if req.grantType == GRANT_REFRESH_TOKEN then Fail(NotImplemented)
      else Fail(UnsupportedGrantType)
    case Authorize(_, _) => AuthorizeAt(LookUpClient)
    case Login(_, _) => LoginAt(CheckPassword)
    case Logout(_) => LogoutAt
    case Refresh(_) => RefreshAt(FindRow)
    case Register(_, _) => RegisterAt(CheckEmail)
    case RegisterClient(_) => RegisterClientAt
  }

  /** A program counter belongs to the handler of its request. */
  predicate Fits(request: Request, pc: Pc) {
    match pc
    case GrantAt(_) => request.Exchange?
    case AuthorizeAt(_) => request.Authorize?
    case LoginAt(_) => request.Login?
    case LogoutAt => request.Logout?
    case RefreshAt(_) => request.Refresh?
    case RegisterAt(_) => request.Register?
    case RegisterClientAt => request.RegisterClient?
    case Done(_) => true
  }

  /** Reading the clock cannot fail, and neither does a call that is not made. */
  predicate Fallible(request: Request, pc: Pc) {
    match pc
    case GrantAt(g) => !g.ReadExpiry? && !g.DrawRefresh?
    case AuthorizeAt(a) => a.FindSession? && request.Authorize? ==> request.sessionID != ""
    case LoginAt(l) => !l.ReadCookieExpiry?
    case LogoutAt => request.Logout? ==> request.sessionID != ""
    case RefreshAt(r) => !r.CheckExpiry? && !r.ReadTokenExpiry?
    case RegisterAt(_) => true
    case RegisterClientAt =>
      request.RegisterClient? ==> FirstOffence(request.client.grantTypes, request.client.isPublic).None?
    case Done(_) => false
  }

  /** The row a redemption stores: the owner, client and scope of the code, and the hash of the token. */
  function GrantedRow(k: Primitives, id: string, client: Client, data: AuthCode, claims: Claims, raw: string,
                      expiresAt: int): RefreshToken {
    RefreshToken(id, claims.userID, client.id, data.scope, HashToken(k, raw), expiresAt, None)
  }

  /** `TokenGrantService.authorizationCodeGrant`. */
  function GrantStep(k: Primitives, w: World, req: TokenRequest, g: GrantPc, o: Oracle): (World, Pc) {
    match g
    case FindClient =>
      if req.clientID !in w.clients || !Authenticates(k, w.clients[req.clientID], req.clientSecret)
      then (w, Fail(InvalidClient))
      else (w, GrantAt(ConsumeCode(w.clients[req.clientID])))
    case ConsumeCode(client) =>
      var key := CodeKey(req.code);
      var w' := w.(entries := w.entries - {key});
      (match Find(w.entries, key, w.now)
       case None => (w', Fail(InvalidGrant))
       case Some(SessionPayload(_)) => (w', Fail(Infrastructure))
       case Some(CodePayload(data)) =>
         (w', if Bound(k, req, data) then GrantAt(FindUser(client, data)) else Fail(InvalidGrant)))
    case FindUser(client, data) =>
      (w, if data.userID in w.users
          then GrantAt(ReadExpiry(client, data, w.users[data.userID]))
          else Fail(Infrastructure))
    case ReadExpiry(client, data, user) =>
      (w, GrantAt(ReadIssued(client, data, user, w.now + ACCESS_TOKEN_TTL)))
    case ReadIssued(client, data, user, expiresAt) =>
      var claims := Claims(user.id, user.email, client.id, Scopes.Join(data.scope), o.uuid, w.now, expiresAt);
      (w, GrantAt(DrawRefresh(client, data, claims)))
    case DrawRefresh(client, data, claims) =>
      (w, GrantAt(StoreRefresh(client, data, claims, o.uuid, w.now + REFRESH_TOKEN_TTL)))
    case StoreRefresh(client, data, claims, raw, refreshExpiresAt) =>
      var row := GrantedRow(k, o.uuid, client, data, claims, raw, refreshExpiresAt);
      match InsertRefreshToken(w.users, w.refreshTokens, row)
      case None => (w, Fail(Infrastructure))
      case Some(rows) =>
        (w.(refreshTokens := rows),
         Done(Tokens(TokenResponse(claims, "Bearer", ACCESS_TOKEN_TTL, Scopes.Join(data.scope), raw))))
  }

  /** `AuthService.SessionByID`: no call is made for an absent cookie. */
  function SessionByID(w: World, sessionID: string): Option<Payload> {
    if sessionID == "" then None else Find(w.entries, SessionKey(sessionID), w.now)
  }

  /** `AuthService.Authorize`. */
  function AuthorizeStep(w: World, req: AuthorizeRequest, sessionID: string, a: AuthorizePc, o: Oracle): (World, Pc) {
    match a
    case LookUpClient =>
      (w,
       if req.clientID !in w.clients then
         Done(Authorized(Rejection(UNKNOWN_CLIENT)))
       else if req.redirectURI !in w.clients[req.clientID].redirectURIs then
         Done(Authorized(Rejection(UNREGISTERED_TARGET)))
       else
         var client := w.clients[req.clientID];
         var requested := Scopes.Fields(req.scope);
         var prompts := Scopes.Fields(req.prompt);
         if requested == [] || !(forall scope :: scope in requested ==> scope in client.scopes) then
           Done(Authorized(ErrorToRedirect(req, "invalid_scope")))
         else if "none" in prompts && |prompts| > 1 then
           Done(Authorized(ErrorToRedirect(req, "invalid_request")))
         else
           AuthorizeAt(FindSession(client, requested, "none" in prompts)))
    case FindSession(client, requested, promptNone) =>
      (w,
       match SessionByID(w, sessionID)
       case Some(SessionPayload(session)) => AuthorizeAt(DrawCode(client, requested, session))
       case Some(CodePayload(_)) => Fail(Infrastructure)
       case None =>
         Done(Authorized(
           if promptNone then ErrorToRedirect(req, "login_required")
           else AuthorizeResult(RequireLogin, "", "", "", "", ""))))
    case DrawCode(client, requested, session) =>
      (w, AuthorizeAt(StoreCode(
            Base64Url.Encode(o.random),
            AuthCode(client.id, session.userID, req.redirectURI, requested, req.challenge, req.challengeMethod,
                     req.nonce, w.now))))
    case StoreCode(code, data) =>
      (w.(entries := Put(w.entries, CodeKey(code), CodePayload(data), AUTH_CODE_TTL, w.now)),
       Done(Authorized(AuthorizeResult(IssueCode, req.redirectURI, req.state, code, "", ""))))
  }

  /** `AuthService.Login` and `SessionRepository.Create`. */
  ghost function LoginStep(k: Primitives, w: World, email: string, password: string, l: LoginPc, o: Oracle): (World,
                           Pc) {
    match l
    case CheckPassword =>
      (w,
       match UserByEmail(w.users, email)
       case None => Fail(EmailOrPasswordWrong)
       case Some(user) =>
         if k.matches(user.passwordHash, password) then LoginAt(DrawSession(user)) else Fail(EmailOrPasswordWrong))
    case DrawSession(user) =>
      (w, LoginAt(StoreSession(o.uuid, Session(user.id, user.email, w.now))))
    case StoreSession(id, session) =>
      (w.(entries := Put(w.entries, SessionKey(id), SessionPayload(session), SESSION_TTL, w.now)),
       LoginAt(ReadCookieExpiry(id)))
    case ReadCookieExpiry(id) =>
      (w, Done(LoggedIn(id, w.now + SESSION_TTL)))
  }

  /** `AuthService.Logout`. */
  function LogoutStep(w: World, sessionID: string): (World, Pc) {
    (if sessionID == "" then w else w.(entries := w.entries - {SessionKey(sessionID)}), Done(LoggedOut))
  }

  /** The legacy `AuthService.RefreshToken`. */
  function RefreshStep(k: Primitives, w: World, raw: string, r: RefreshPc, o: Oracle): (World, Pc) {
    match r
    case FindRow =>
      (w,
       match RowByHash(w.refreshTokens, HashToken(k, raw), o.pick)
       case None => Fail(RefreshTokenNotFound)
       case Some(row) => RefreshAt(CheckExpiry(row)))
    case CheckExpiry(row) =>
      (w, if row.expiresAt < w.now then Fail(RefreshTokenExpired) else RefreshAt(FindOwner(row)))
    case FindOwner(row) =>
      (w, if row.userID in w.users
          then RefreshAt(ReadTokenExpiry(row, w.users[row.userID]))
          else Fail(Infrastructure))
    case ReadTokenExpiry(row, user) =>
      (w, RefreshAt(IssueToken(row, user, w.now + ACCESS_TOKEN_TTL)))
    case IssueToken(row, user, expiresAt) =>
      (w, Done(Refreshed(
            Claims(user.id, user.email, row.clientID, Scopes.Join(row.scope), o.uuid, w.now, expiresAt),
            ACCESS_TOKEN_TTL)))
  }

  /** `AuthService.Register`. */
  ghost function RegisterStep(k: Primitives, w: World, email: string, password: string, r: RegisterPc,
                              o: Oracle): (World, Pc) {
    match r
    case CheckEmail =>
      (w,
       if UserByEmail(w.users, email).Some? then Fail(EmailTaken)
       else if Utf8Length(password) > BCRYPT_LIMIT then Fail(Infrastructure)
       else RegisterAt(StoreUser(User(o.uuid, email, k.hash(password, o.salt)))))
    case StoreUser(user) =>
      match InsertUser(w.users, user)
      case None => (w, Fail(Infrastructure))
      case Some(users) => (w.(users := users), Done(Registered(user)))
  }

  /** The client row and the answer that a registration without an offending grant type produces. */
  function NewClient(k: Primitives, req: RegisterClientRequest, o: Oracle): (Client, RegisterClientResponse) {
    var secret := if req.isPublic then "" else Base64Url.Encode(o.random);
    var secretHash := if req.isPublic then "" else k.hash(secret, o.salt);
    (Client(o.uuid, req.name, secretHash, req.redirectURIs, req.scopes, req.grantTypes, req.isFirstParty),
     RegisterClientResponse(o.uuid, secret, req.name))
  }

  /** `ClientService.RegisterClient`. */
  function RegisterClientStep(k: Primitives, w: World, req: RegisterClientRequest, o: Oracle): (World, Pc) {
    match FirstOffence(req.grantTypes, req.isPublic)
    case Some(e) => (w, Fail(e))
    case None =>
      var (client, response) := NewClient(k, req, o);
      match InsertClient(w.clients, client)
      case None => (w, Fail(Infrastructure))
      case Some(clients) => (w.(clients := clients), Done(ClientCreated(response)))
  }

  /** One step of one request. A finished request has no further effect. */
  ghost function Advance(k: Primitives, w: World, request: Request, pc: Pc, o: Oracle): (r: (World, Pc))
    requires Fits(request, pc)
    ensures Fits(request, r.1) && r.0.now == w.now
  {
    if Fallible(request, pc) && o.fail then (w, Fail(Infrastructure))
    else
      match pc
      case GrantAt(g) => GrantStep(k, w, request.token, g, o)
      case AuthorizeAt(a) => AuthorizeStep(w, request.authorize, request.sessionID, a, o)
      case LoginAt(l) => LoginStep(k, w, request.email, request.password, l, o)
      case LogoutAt => LogoutStep(w, request.sessionID)
      case RefreshAt(r) => RefreshStep(k, w, request.rawToken, r, o)
      case RegisterAt(r) => RegisterStep(k, w, request.email, request.password, r, o)
      case RegisterClientAt => RegisterClientStep(k, w, request.client, o)
      case Done(_) => (w, pc)
  }
}
