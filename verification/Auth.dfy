/** `internal/service/auth.go`: accounts, login sessions, authorization, and the legacy refresh. */
module Auth {
  import opened Prelude
  import opened Entities
  import opened Crypto
  import opened Store
  import opened Tables
  import opened Protocol
  import opened Sequential
  import opened Repositories
  import opened Services
  import Base64Url
  import Scopes
  import Slices

  function RegisterAnswer(r: Result<User>): Outcome {
    match r case Ok(user) => Registered(user) case Err(e) => Failed(e)
  }

  function LoginAnswer(r: Result<(string, int)>): Outcome {
    match r case Ok(login) => LoggedIn(login.0, login.1) case Err(e) => Failed(e)
  }

  function LogoutAnswer(r: Result<()>): Outcome {
    match r case Ok(_) => LoggedOut case Err(e) => Failed(e)
  }

  function RefreshAnswer(r: Result<(Claims, int)>): Outcome {
    match r case Ok(refreshed) => Refreshed(refreshed.0, refreshed.1) case Err(e) => Failed(e)
  }

  function AuthorizeAnswer(r: Result<AuthorizeResult>): Outcome {
    match r case Ok(decision) => Authorized(decision) case Err(e) => Failed(e)
  }

  class AuthService {
    const k: Primitives
    const users: UserRepository
    const refreshTokens: RefreshTokenRepository
    const clients: ClientRepository
    const sessions: SessionRepository
    const authCodes: AuthCodeRepository

    ghost predicate Wired() {
      clients.db == users.db == refreshTokens.db && sessions.cache == authCodes.cache
    }

    constructor (k: Primitives, users: UserRepository, refreshTokens: RefreshTokenRepository, clients: ClientRepository,
                 sessions: SessionRepository, authCodes: AuthCodeRepository)
      requires clients.db == users.db == refreshTokens.db && sessions.cache == authCodes.cache
      ensures Wired()
      ensures this.k == k && this.users == users && this.refreshTokens == refreshTokens
      ensures this.clients == clients && this.sessions == sessions && this.authCodes == authCodes
    {
      this.k, this.users, this.refreshTokens := k, users, refreshTokens;
      this.clients, this.sessions, this.authCodes := clients, sessions, authCodes;
    }

    lemma {:induction false} Answering(w0: World, request: Request, script: seq<Moment>, i: nat, w: World,
                                       outcome: Outcome)
      requires Reaches(k, w0, request, script, i, w, Done(outcome))
      ensures Behaves(k, w0, w, request, script, outcome)
    {
      Ends(k, w0, request, script, i, w, outcome);
    }

    // ---------------------------------------------------------------- register

    lemma {:induction false} EmailLookedUp(w0: World, email: string, password: string, script: seq<Moment>, w: World,
                                           existing: Result<Option<User>>)
      requires |script| == 2 && Reaches(k, w0, Request.Register(email, password), script, 0, w, RegisterAt(CheckEmail))
      requires existing == if script[0].oracle.fail then Err(Infrastructure) else Ok(UserByEmail(w.users, email))
      ensures var hash := GenerateFromPassword(k, password, script[0].oracle.salt);
              Reaches(k, w0, Request.Register(email, password), script, 1, w,
                      if existing.Err? then Fail(existing.error)
                      else if existing.value.Some? then Fail(EmailTaken)
                      else if hash.Err? then Fail(hash.error)
                      else RegisterAt(StoreUser(User(script[0].oracle.uuid, email, hash.value))))
    {
      Steps(k, w0, Request.Register(email, password), script, 0, w, RegisterAt(CheckEmail));
      hide Reaches, UserByEmail;
    }

    lemma {:induction false} UserStored(w0: World, email: string, password: string, script: seq<Moment>, w: World,
                                        user: User, created: Result<()>)
      requires |script| == 2
               && Reaches(k, w0, Request.Register(email, password), script, 1, w, RegisterAt(StoreUser(user)))
      requires created == if script[1].oracle.fail || user.id in w.users || EmailInUse(w.users, user.email)
                          then Err(Infrastructure) else Ok(())
      ensures if created.Ok?
              then Reaches(k, w0, Request.Register(email, password), script, 2, w.(users := w.users[user.id := user]),
                           Done(Registered(user)))
              else Reaches(k, w0, Request.Register(email, password), script, 2, w, Fail(created.error))
    {
      Steps(k, w0, Request.Register(email, password), script, 1, w, RegisterAt(StoreUser(user)));
      hide Reaches, EmailInUse;
    }

    /** A user is added exactly on success: with an email that was free, and a hash that accepts the password,
        which takes at most 72 bytes in UTF-8 (one for each character and one more from U+80, from U+800 and
        from U+10000 on). */
    method Register(email: string, password: string, script: seq<Moment>) returns (r: Result<User>)
      requires Wired() && users.db.Valid() && |script| == 2
      modifies users.db`users
      ensures users.db.Valid()
      ensures Behaves(k, old(WorldOf(sessions.cache, users.db)), WorldOf(sessions.cache, users.db),
                      Request.Register(email, password), script, RegisterAnswer(r))
      ensures r == Err(EmailTaken) <==>
              !script[0].oracle.fail && exists id :: id in old(users.db.users) && old(users.db.users)[id].email == email
      ensures r.Ok? <==>
                && !script[0].oracle.fail && !script[1].oracle.fail
                && |password| + |set i | 0 <= i < |password| && password[i] as int >= 0x80|
                   + |set i | 0 <= i < |password| && password[i] as int >= 0x800|
                   + |set i | 0 <= i < |password| && password[i] as int >= 0x10000| <= 72
                && (forall id :: id in old(users.db.users) ==> old(users.db.users)[id].email != email)
                && script[0].oracle.uuid !in old(users.db.users)
      ensures r.Err? ==> r.error in {EmailTaken, Infrastructure} && users.db.users == old(users.db.users)
      ensures r.Ok? ==>
                && r.value == User(script[0].oracle.uuid, email, k.hash(password, script[0].oracle.salt))
                && users.db.users == old(users.db.users)[r.value.id := r.value]
                && (k.Valid() ==> k.matches(r.value.passwordHash, password))
    {
      ghost var request := Request.Register(email, password);
      ghost var w0 := WorldOf(sessions.cache, users.db);
      Begins(k, w0, request, script);
      hide Behaves, Reaches, RunAlone, UserByEmail;

      var existing := users.GetByEmail(email, script[0].oracle.fail);
      EmailLookedUp(w0, email, password, script, w0, existing);
      if existing.Err? {
        Answering(w0, request, script, 1, w0, Failed(existing.error));
        return Err(existing.error);
      }
      if existing.value.Some? {
        Answering(w0, request, script, 1, w0, Failed(EmailTaken));
        return Err(EmailTaken);
      }
      var hash := GenerateFromPassword(k, password, script[0].oracle.salt);
      if hash.Err? {
        Answering(w0, request, script, 1, w0, Failed(hash.error));
        return Err(hash.error);
      }
      var user := User(script[0].oracle.uuid, email, hash.value);
      var created := users.Create(user, script[1].oracle.fail);
      UserStored(w0, email, password, script, w0, user, created);
      ghost var w := WorldOf(sessions.cache, users.db);
      if created.Err? {
        Answering(w0, request, script, 2, w, Failed(created.error));
        return Err(created.error);
      }
      Answering(w0, request, script, 2, w, Registered(user));
      return Ok(user);
    }

    // ---------------------------------------------------------------- login and logout

    lemma {:induction false} PasswordLookedUp(w0: World, email: string, password: string, script: seq<Moment>,
                                              w: World, found: Result<Option<User>>)
      requires |script| == 4 && Reaches(k, w0, Request.Login(email, password), script, 0, w, LoginAt(CheckPassword))
      requires found == if script[0].oracle.fail then Err(Infrastructure) else Ok(UserByEmail(w.users, email))
      ensures Reaches(k, w0, Request.Login(email, password), script, 1, w,
                      if found.Err? then Fail(found.error)
                      else if found.value.None? || !k.matches(found.value.value.passwordHash, password)
                      then Fail(EmailOrPasswordWrong)
                      else LoginAt(DrawSession(found.value.value)))
    {
      Steps(k, w0, Request.Login(email, password), script, 0, w, LoginAt(CheckPassword));
      hide Reaches, UserByEmail;
    }

    lemma {:induction false} SessionCreated(w0: World, email: string, password: string, script: seq<Moment>, w: World,
                                            user: User)
      requires |script| == 4 && Reaches(k, w0, Request.Login(email, password), script, 1, w, LoginAt(DrawSession(user)))
      ensures var id := script[1].oracle.uuid;
              if script[1].oracle.fail then
                Reaches(k, w0, Request.Login(email, password), script, 2, w, Fail(Infrastructure))
              else if script[2].oracle.fail then
                Reaches(k, w0, Request.Login(email, password), script, 3, w, Fail(Infrastructure))
              else
                Reaches(k, w0, Request.Login(email, password), script, 4,
                        w.(entries := Put(w.entries, SessionKey(id),
                                          SessionPayload(Session(user.id, user.email, script[1].now)),
                                          SESSION_TTL, script[2].now)),
                        Done(LoggedIn(id, script[3].now + SESSION_TTL)))
    {
      var request, id, session := Request.Login(email, password), script[1].oracle.uuid,
          Session(user.id, user.email, script[1].now);
      Steps(k, w0, request, script, 1, w, LoginAt(DrawSession(user)));
      hide Reaches, Put, SessionKey;
      if !script[1].oracle.fail {
        Steps(k, w0, request, script, 2, w, LoginAt(StoreSession(id, session)));
        if !script[2].oracle.fail {
          var w' := w.(entries := Put(w.entries, SessionKey(id), SessionPayload(session), SESSION_TTL, script[2].now));
          Steps(k, w0, request, script, 3, w', LoginAt(ReadCookieExpiry(id)));
        }
      }
    }

    /** A session appears exactly on success, for the one user with that email and that password. An unknown
        email and a wrong password get the same error, and nothing else does. */
    method Login(email: string, password: string, script: seq<Moment>) returns (r: Result<(string, int)>)
      requires Wired() && users.db.Valid() && |script| == 4
      modifies sessions.cache
      ensures Behaves(k, old(WorldOf(sessions.cache, users.db)), WorldOf(sessions.cache, users.db),
                      Request.Login(email, password), script, LoginAnswer(r))
      ensures r.Err? ==> sessions.cache.entries == old(sessions.cache.entries)
      ensures r.Ok? <==>
                && !script[0].oracle.fail && !script[1].oracle.fail && !script[2].oracle.fail
                && exists id | id in users.db.users ::
                     users.db.users[id].email == email && k.matches(users.db.users[id].passwordHash, password)
      ensures r == Err(EmailOrPasswordWrong) <==>
                && !script[0].oracle.fail
                && forall id | id in users.db.users && users.db.users[id].email == email ::
                     !k.matches(users.db.users[id].passwordHash, password)
      ensures r.Ok? ==>
                && r.value == (script[1].oracle.uuid, script[3].now + 2592000)
                && exists id | id in users.db.users ::
                     && users.db.users[id].email == email && k.matches(users.db.users[id].passwordHash, password)
                     && sessions.cache.entries ==
                        Put(old(sessions.cache.entries), SessionKey(r.value.0),
                            SessionPayload(Session(id, email, script[1].now)), 2592000, script[2].now)
      ensures r.Err? ==> r.error in {EmailOrPasswordWrong, Infrastructure}
    {
      ghost var request := Request.Login(email, password);
      ghost var w0 := WorldOf(sessions.cache, users.db);
      Begins(k, w0, request, script);
      UserByEmailFinds(users.db.users, email);
      hide Behaves, Reaches, RunAlone, Put, UserByEmail;

      var found := users.GetByEmail(email, script[0].oracle.fail);
      PasswordLookedUp(w0, email, password, script, w0, found);
      if found.Err? {
        Answering(w0, request, script, 1, w0, Failed(found.error));
        return Err(found.error);
      }
      if found.value.None? {
        Answering(w0, request, script, 1, w0, Failed(EmailOrPasswordWrong));
        return Err(EmailOrPasswordWrong);
      }
      var user := found.value.value;
      if !k.matches(user.passwordHash, password) {
        Answering(w0, request, script, 1, w0, Failed(EmailOrPasswordWrong));
        return Err(EmailOrPasswordWrong);
      }
      SessionCreated(w0, email, password, script, w0, user);
      r := sessions.Create(user.id, user.email, script[1].oracle.uuid, script[1].now, script[1].oracle.fail,
                           script[2].now, script[2].oracle.fail, script[3].now);
      ghost var w := WorldOf(sessions.cache, users.db);
      ghost var steps := if script[1].oracle.fail then 2 else if script[2].oracle.fail then 3 else 4;
      Answering(w0, request, script, steps, w, LoginAnswer(r));
    }

    /** The session is gone, and an empty or unknown id is accepted. */
    method Logout(sessionID: string, script: seq<Moment>) returns (r: Result<()>)
      requires Wired() && |script| == 1
      modifies sessions.cache
      ensures Behaves(k, old(WorldOf(sessions.cache, users.db)), WorldOf(sessions.cache, users.db),
                      Request.Logout(sessionID), script, LogoutAnswer(r))
      ensures r == if sessionID != "" && script[0].oracle.fail then Err(Infrastructure) else Ok(())
      ensures r.Err? || sessionID == "" ==> sessions.cache.entries == old(sessions.cache.entries)
      ensures r.Ok? && sessionID != "" ==> forall t :: Find(sessions.cache.entries, SessionKey(sessionID), t).None?
      ensures forall key :: key != SessionKey(sessionID) ==>
                (key in sessions.cache.entries <==> key in old(sessions.cache.entries)) &&
                (key in sessions.cache.entries ==> sessions.cache.entries[key] == old(sessions.cache.entries)[key])
    {
      ghost var w0 := WorldOf(sessions.cache, users.db);
      Begins(k, w0, Request.Logout(sessionID), script);
      Steps(k, w0, Request.Logout(sessionID), script, 0, w0, LogoutAt);
      hide Behaves, Reaches, RunAlone;
      if sessionID == "" {
        r := Ok(());
      } else {
        r := sessions.Destroy(sessionID, script[0].oracle.fail);
      }
      Answering(w0, Request.Logout(sessionID), script, 1, WorldOf(sessions.cache, users.db), LogoutAnswer(r));
    }

    // ---------------------------------------------------------------- the legacy refresh

    lemma {:induction false} RowLookedUp(w0: World, raw: string, script: seq<Moment>, w: World,
                                         found: Result<Option<RefreshToken>>)
      requires |script| == 5 && Reaches(k, w0, Request.Refresh(raw), script, 0, w, RefreshAt(FindRow))
      requires found == if script[0].oracle.fail then Err(Infrastructure)
                        else Ok(RowByHash(w.refreshTokens, HashToken(k, raw), script[0].oracle.pick))
      ensures Reaches(k, w0, Request.Refresh(raw), script, 1, w,
                      if found.Err? then Fail(found.error)
                      else if found.value.None? then Fail(RefreshTokenNotFound)
                      else RefreshAt(CheckExpiry(found.value.value)))
    {
      Steps(k, w0, Request.Refresh(raw), script, 0, w, RefreshAt(FindRow));
      hide Reaches, HashToken;
    }

    lemma {:induction false} ExpiryChecked(w0: World, raw: string, script: seq<Moment>, w: World, row: RefreshToken)
      requires |script| == 5 && Reaches(k, w0, Request.Refresh(raw), script, 1, w, RefreshAt(CheckExpiry(row)))
      ensures Reaches(k, w0, Request.Refresh(raw), script, 2, w,
                      if row.expiresAt < script[1].now then Fail(RefreshTokenExpired) else RefreshAt(FindOwner(row)))
    {
      Steps(k, w0, Request.Refresh(raw), script, 1, w, RefreshAt(CheckExpiry(row)));
      hide Reaches;
    }

    lemma {:induction false} OwnerLookedUp(w0: World, raw: string, script: seq<Moment>, w: World, row: RefreshToken,
                                           owner: Result<User>)
      requires |script| == 5 && Reaches(k, w0, Request.Refresh(raw), script, 2, w, RefreshAt(FindOwner(row)))
      requires owner == if script[2].oracle.fail || row.userID !in w.users
                        then Err(Infrastructure) else Ok(w.users[row.userID])
      ensures Reaches(k, w0, Request.Refresh(raw), script, 3, w,
                      if owner.Err? then Fail(owner.error) else RefreshAt(ReadTokenExpiry(row, owner.value)))
    {
      Steps(k, w0, Request.Refresh(raw), script, 2, w, RefreshAt(FindOwner(row)));
      hide Reaches;
    }

    lemma {:induction false} TokenIssued(w0: World, raw: string, script: seq<Moment>, w: World, row: RefreshToken,
                                         user: User, issued: Result<Claims>)
      requires |script| == 5
               && Reaches(k, w0, Request.Refresh(raw), script, 3, w, RefreshAt(ReadTokenExpiry(row, user)))
      requires issued ==
                 IssueAccessToken(user.id, user.email, row.clientID, Scopes.Join(row.scope), script[3], script[4])
      ensures Reaches(k, w0, Request.Refresh(raw), script, 5, w,
                      if issued.Err? then Fail(issued.error) else Done(Refreshed(issued.value, ACCESS_TOKEN_TTL)))
    {
      Steps(k, w0, Request.Refresh(raw), script, 3, w, RefreshAt(ReadTokenExpiry(row, user)));
      Steps(k, w0, Request.Refresh(raw), script, 4, w,
            RefreshAt(IssueToken(row, user, script[3].now + ACCESS_TOKEN_TTL)));
      hide Reaches, Scopes.Join;
    }

    /** Nothing is changed, the row least of all. The token carries what an unexpired row with the hash
        of the presented string carries, revoked or not. `pick` is the row the engine reported. */
    method RefreshToken(raw: string, script: seq<Moment>) returns (r: Result<(Claims, int)>, ghost pick: string)
      requires Wired() && users.db.Valid() && |script| == 5
      ensures ValidPick(users.db.refreshTokens, HashToken(k, raw), pick)
      ensures Behaves(k, WorldOf(sessions.cache, users.db), WorldOf(sessions.cache, users.db), Request.Refresh(raw),
                      Picking(script, pick), RefreshAnswer(r))
      ensures r.Ok? <==>
                && !script[0].oracle.fail && !script[2].oracle.fail && !script[4].oracle.fail
                && pick in users.db.refreshTokens && users.db.refreshTokens[pick].tokenHash == HashToken(k, raw)
                && script[1].now <= users.db.refreshTokens[pick].expiresAt
      ensures r == Err(RefreshTokenNotFound) <==>
                && !script[0].oracle.fail
                && forall id | id in users.db.refreshTokens :: users.db.refreshTokens[id].tokenHash != HashToken(k, raw)
      ensures r == Err(RefreshTokenExpired) <==>
                && !script[0].oracle.fail
                && pick in users.db.refreshTokens && users.db.refreshTokens[pick].tokenHash == HashToken(k, raw)
                && users.db.refreshTokens[pick].expiresAt < script[1].now
      ensures r.Ok? ==>
                && pick in users.db.refreshTokens
                && var row := users.db.refreshTokens[pick];
                && r.value ==
                   (Claims(row.userID, users.db.users[row.userID].email, row.clientID, Scopes.Join(row.scope),
                           script[4].oracle.uuid, script[4].now, script[3].now + 900), 900)
      ensures r.Err? ==> r.error in {RefreshTokenNotFound, RefreshTokenExpired, Infrastructure}
    {
      var found;
      found, pick := refreshTokens.GetTokenByHash(HashToken(k, raw), script[0].oracle.fail);
      ghost var request, played := Request.Refresh(raw), Picking(script, pick);
      ghost var w := WorldOf(sessions.cache, users.db);
      Begins(k, w, request, played);
      hide Behaves, Reaches, RunAlone, HashToken, Scopes.Join;

      RowLookedUp(w, raw, played, w, found);
      if found.Err? {
        Answering(w, request, played, 1, w, Failed(found.error));
        return Err(found.error), pick;
      }
      if found.value.None? {
        Answering(w, request, played, 1, w, Failed(RefreshTokenNotFound));
        return Err(RefreshTokenNotFound), pick;
      }
      var row := found.value.value;
      ExpiryChecked(w, raw, played, w, row);
      if row.expiresAt < script[1].now {
        Answering(w, request, played, 2, w, Failed(RefreshTokenExpired));
        return Err(RefreshTokenExpired), pick;
      }
      var owner := users.GetByID(row.userID, script[2].oracle.fail);
      OwnerLookedUp(w, raw, played, w, row, owner);
      if owner.Err? {
        Answering(w, request, played, 3, w, Failed(owner.error));
        return Err(owner.error), pick;
      }
      var user := owner.value;
      var issued := IssueAccessToken(user.id, user.email, row.clientID, Scopes.Join(row.scope), script[3], script[4]);
      TokenIssued(w, raw, played, w, row, user, issued);
      if issued.Err? {
        Answering(w, request, played, 5, w, Failed(issued.error));
        return Err(issued.error), pick;
      }
      Answering(w, request, played, 5, w, Refreshed(issued.value, ACCESS_TOKEN_TTL));
      return Ok((issued.value, ACCESS_TOKEN_TTL)), pick;
    }

    /** The script in which the engine reports `pick`. */
    ghost function Picking(script: seq<Moment>, pick: string): seq<Moment>
      requires |script| > 0
    {
      script[0 := script[0].(oracle := script[0].oracle.(pick := pick))]
    }

    // ---------------------------------------------------------------- authorize

    /** No session for an empty id, without asking the store. */
    method SessionByID(sessionID: string, now: int, fail: bool) returns (r: Result<Option<Session>>)
      ensures sessionID == "" ==> r == Ok(None)
      ensures sessionID != "" ==>
                r == if fail then Err(Infrastructure)
                     else match Find(sessions.cache.entries, SessionKey(sessionID), now)
                          case Some(SessionPayload(session)) => Ok(Some(session))
                          case Some(CodePayload(_)) => Err(Infrastructure)
                          case None => Ok(None)
    {
      if sessionID == "" {
        return Ok(None);
      }
      var session := sessions.Get(sessionID, now, fail);
      match session
      case Ok(found) => return Ok(Some(found));
      case Err(SessionNotFound) => return Ok(None);
      case Err(e) => return Err(e);
    }

    lemma {:induction false} ClientLookedUp(w0: World, req: AuthorizeRequest, sessionID: string, script: seq<Moment>,
                                            w: World, found: Result<Option<Client>>)
      requires |script| == 4
               && Reaches(k, w0, Request.Authorize(req, sessionID), script, 0, w, AuthorizeAt(LookUpClient))
      requires found == if script[0].oracle.fail then Err(Infrastructure)
                        else Ok(if req.clientID in w.clients then Some(w.clients[req.clientID]) else None)
      ensures Reaches(k, w0, Request.Authorize(req, sessionID), script, 1, w,
                      if found.Err? then Fail(found.error)
                      else if found.value.None? then Done(Authorized(Rejection(UNKNOWN_CLIENT)))
                      else Checked(req, found.value.value))
    {
      Steps(k, w0, Request.Authorize(req, sessionID), script, 0, w, AuthorizeAt(LookUpClient));
      hide Reaches, Scopes.Fields;
    }

    /** Where the checks that need no lookup lead. */
    ghost function Checked(req: AuthorizeRequest, client: Client): Pc {
      var requested, prompts := Scopes.Fields(req.scope), Scopes.Fields(req.prompt);
      if req.redirectURI !in client.redirectURIs then
        Done(Authorized(Rejection(UNREGISTERED_TARGET)))
      else if requested == [] || !(forall scope :: scope in requested ==> scope in client.scopes) then
        Done(Authorized(ErrorToRedirect(req, "invalid_scope")))
      else if "none" in prompts && |prompts| > 1 then
        Done(Authorized(ErrorToRedirect(req, "invalid_request")))
      else AuthorizeAt(FindSession(client, requested, "none" in prompts))
    }

    lemma {:induction false} SessionLookedUp(w0: World, req: AuthorizeRequest, sessionID: string, script: seq<Moment>,
                                             w: World,
                          client: Client, requested: seq<string>, promptNone: bool, session: Result<Option<Session>>)
      requires |script| == 4
      requires Reaches(k, w0, Request.Authorize(req, sessionID), script, 1, w,
                       AuthorizeAt(FindSession(client, requested, promptNone)))
      requires session == if sessionID == "" then Ok(None)
                          else if script[1].oracle.fail then Err(Infrastructure)
                          else match Find(w.entries, SessionKey(sessionID), script[1].now)
                               case Some(SessionPayload(session)) => Ok(Some(session))
                               case Some(CodePayload(_)) => Err(Infrastructure)
                               case None => Ok(None)
      ensures Reaches(k, w0, Request.Authorize(req, sessionID), script, 2, w,
                      if session.Err? then Fail(session.error)
                      else if session.value.Some? then AuthorizeAt(DrawCode(client, requested, session.value.value))
                      else if promptNone then Done(Authorized(ErrorToRedirect(req, "login_required")))
                      else Done(Authorized(AuthorizeResult(RequireLogin, "", "", "", "", ""))))
    {
      Steps(k, w0, Request.Authorize(req, sessionID), script, 1, w,
            AuthorizeAt(FindSession(client, requested, promptNone)));
      hide Reaches, Find;
    }

    /** What the code will carry, but for the time of its creation. */
    function CodeData(req: AuthorizeRequest, client: Client, requested: seq<string>, session: Session): AuthCode {
      AuthCode(client.id, session.userID, req.redirectURI, requested, req.challenge, req.challengeMethod, req.nonce, 0)
    }

    lemma {:induction false} CodeCreated(w0: World, req: AuthorizeRequest, sessionID: string, script: seq<Moment>,
                                         w: World,
                      client: Client, requested: seq<string>, session: Session)
      requires |script| == 4
      requires Reaches(k, w0, Request.Authorize(req, sessionID), script, 2, w,
                       AuthorizeAt(DrawCode(client, requested, session)))
      ensures var code := Base64Url.Encode(script[2].oracle.random);
              var data := CodeData(req, client, requested, session).(createdAt := script[2].now);
              if script[2].oracle.fail then
                Reaches(k, w0, Request.Authorize(req, sessionID), script, 3, w, Fail(Infrastructure))
              else if script[3].oracle.fail then
                Reaches(k, w0, Request.Authorize(req, sessionID), script, 4, w, Fail(Infrastructure))
              else
                Reaches(k, w0, Request.Authorize(req, sessionID), script, 4,
                        w.(entries := Put(w.entries, CodeKey(code), CodePayload(data), AUTH_CODE_TTL, script[3].now)),
                        Done(Authorized(AuthorizeResult(IssueCode, req.redirectURI, req.state, code, "", ""))))
    {
      var request, code := Request.Authorize(req, sessionID), Base64Url.Encode(script[2].oracle.random);
      var data := CodeData(req, client, requested, session).(createdAt := script[2].now);
      Steps(k, w0, request, script, 2, w, AuthorizeAt(DrawCode(client, requested, session)));
      hide Reaches, Put, CodeKey;
      if !script[2].oracle.fail {
        Steps(k, w0, request, script, 3, w, AuthorizeAt(StoreCode(code, data)));
      }
    }

    /** The checks before the session lookup, in order. */
    method Check(req: AuthorizeRequest, client: Client) returns (requested: seq<string>, promptNone: bool,
                 refusal: Option<AuthorizeResult>)
      ensures Checked(req, client) ==
              match refusal
              case Some(result) => Done(Authorized(result))
              case None => AuthorizeAt(FindSession(client, requested, promptNone))
      ensures requested == Scopes.Fields(req.scope)
      ensures promptNone <==> "none" in Scopes.Fields(req.prompt)
      ensures refusal ==
              if req.redirectURI !in client.redirectURIs then
                Some(AuthorizeResult(RejectDirect, "", "", "", "", "redirect_uri is not registered for this client"))
              else if requested == [] || exists s :: s in requested && s !in client.scopes then
                Some(AuthorizeResult(ErrorToClient, req.redirectURI, req.state, "", "invalid_scope", ""))
              else if promptNone && |Scopes.Fields(req.prompt)| > 1 then
                Some(AuthorizeResult(ErrorToClient, req.redirectURI, req.state, "", "invalid_request", ""))
              else None
      ensures Scopes.Names(client.scopes, req.scope) && refusal.Some? ==> refusal.value.oauthError != "invalid_scope"
    {
      if Scopes.Names(client.scopes, req.scope) { Scopes.NamedAreRead(client.scopes, req.scope); }
      requested := Scopes.Fields(req.scope);
      var prompts := Scopes.Fields(req.prompt);
      promptNone := "none" in prompts;
      hide Scopes.Fields;
      if req.redirectURI !in client.redirectURIs {
        return requested, promptNone, Some(Rejection(UNREGISTERED_TARGET));
      }
      var covered := Slices.ContainsAll(client.scopes, requested);
      if requested == [] || !covered {
        return requested, promptNone, Some(ErrorToRedirect(req, "invalid_scope"));
      }
      if promptNone && |prompts| > 1 {
        return requested, promptNone, Some(ErrorToRedirect(req, "invalid_request"));
      }
      return requested, promptNone, None;
    }

    /** The answer to a request that has passed the checks, and what it does to the store: a code for what was
        asked and for the user of the live session behind the cookie, or the demand to log in. */
    ghost predicate AfterChecks(req: AuthorizeRequest, sessionID: string, script: seq<Moment>, silent: bool,
                                r: Result<AuthorizeResult>, entries: Entries, entries': Entries)
      requires |script| == 4
    {
      if sessionID != "" && script[1].oracle.fail then r.Err?
      else
        var found := if sessionID == "" then None else Find(entries, SessionKey(sessionID), script[1].now);
        if found.None? then
          r == Ok(if silent then AuthorizeResult(ErrorToClient, req.redirectURI, req.state, "", "login_required", "")
                  else AuthorizeResult(RequireLogin, "", "", "", "", ""))
        else if found.value.CodePayload? || script[2].oracle.fail || script[3].oracle.fail then r.Err?
        else
          var code := Base64Url.Encode(script[2].oracle.random);
          var data := AuthCode(req.clientID, found.value.session.userID, req.redirectURI, Scopes.Fields(req.scope),
                               req.challenge, req.challengeMethod, req.nonce, script[2].now);
          && r == Ok(AuthorizeResult(IssueCode, req.redirectURI, req.state, code, "", ""))
          && entries' == Put(entries, CodeKey(code), CodePayload(data), 60, script[3].now)
    }

    lemma Concluded(req: AuthorizeRequest, sessionID: string, script: seq<Moment>, silent: bool,
                    session: Result<Option<Session>>, r: Result<AuthorizeResult>, entries: Entries, entries': Entries)
      requires |script| == 4
      requires session == if sessionID == "" then Ok(None)
                          else if script[1].oracle.fail then Err(Infrastructure)
                          else match Find(entries, SessionKey(sessionID), script[1].now)
                               case Some(SessionPayload(session)) => Ok(Some(session))
                               case Some(CodePayload(_)) => Err(Infrastructure)
                               case None => Ok(None)
      requires session.Err? ==> r.Err?
      requires session == Ok(None) ==>
                 r == Ok(if silent then ErrorToRedirect(req, "login_required")
                         else AuthorizeResult(RequireLogin, "", "", "", "", ""))
      requires session.Ok? && session.value.Some? && (script[2].oracle.fail || script[3].oracle.fail) ==> r.Err?
      requires session.Ok? && session.value.Some? && !script[2].oracle.fail && !script[3].oracle.fail ==>
                 var code := Base64Url.Encode(script[2].oracle.random);
                 var data := AuthCode(req.clientID, session.value.value.userID, req.redirectURI,
                                      Scopes.Fields(req.scope), req.challenge, req.challengeMethod, req.nonce,
                                      script[2].now);
                 && r == Ok(AuthorizeResult(IssueCode, req.redirectURI, req.state, code, "", ""))
                 && entries' == Put(entries, CodeKey(code), CodePayload(data), AUTH_CODE_TTL, script[3].now)
      ensures AfterChecks(req, sessionID, script, silent, r, entries, entries')
    {
      hide Find, Put, SessionKey, CodeKey, Scopes.Fields, Base64Url.Encode;
    }

    /** Every answer, by the checks in their order. A code is stored exactly when the answer is to issue it. A
        request for one or more registered scope tokens, with single spaces between them, is never told that
        its scope is invalid. */
    method Authorize(req: AuthorizeRequest, sessionID: string, script: seq<Moment>) returns (r: Result<AuthorizeResult>)
      requires Wired() && users.db.Valid() && |script| == 4 && |script[2].oracle.random| == 32
      modifies authCodes.cache
      ensures Behaves(k, old(WorldOf(authCodes.cache, users.db)), WorldOf(authCodes.cache, users.db),
                      Request.Authorize(req, sessionID), script, AuthorizeAnswer(r))
      ensures !(r.Ok? && r.value.action == IssueCode) ==> authCodes.cache.entries == old(authCodes.cache.entries)
      ensures r.Err? ==> r == Err(Infrastructure)
      ensures script[0].oracle.fail ==> r.Err?
      ensures !script[0].oracle.fail && req.clientID !in clients.db.clients ==>
                r == Ok(AuthorizeResult(RejectDirect, "", "", "", "", "unknown client_id"))
      ensures !script[0].oracle.fail && req.clientID in clients.db.clients ==>
                var client, requested, prompts :=
                  clients.db.clients[req.clientID], Scopes.Fields(req.scope), Scopes.Fields(req.prompt);
                if req.redirectURI !in client.redirectURIs then
                  r == Ok(AuthorizeResult(RejectDirect, "", "", "", "",
                                          "redirect_uri is not registered for this client"))
                else if requested == [] || exists s :: s in requested && s !in client.scopes then
                  r == Ok(AuthorizeResult(ErrorToClient, req.redirectURI, req.state, "", "invalid_scope", ""))
                else if "none" in prompts && |prompts| > 1 then
                  r == Ok(AuthorizeResult(ErrorToClient, req.redirectURI, req.state, "", "invalid_request", ""))
                else AfterChecks(req, sessionID, script, "none" in prompts, r, old(authCodes.cache.entries),
                                 authCodes.cache.entries)
      ensures req.clientID in clients.db.clients && Scopes.Names(clients.db.clients[req.clientID].scopes, req.scope) ==>
                !(r.Ok? && r.value.oauthError == "invalid_scope")
    {
      ghost var request := Request.Authorize(req, sessionID);
      ghost var w0 := WorldOf(authCodes.cache, users.db);
      Begins(k, w0, request, script);
      hide Behaves, Reaches, RunAlone, Scopes.Fields, Checked, Put, Find, SessionKey, Scopes.Names,
           AfterChecks;

      var found := clients.GetByID(req.clientID, script[0].oracle.fail);
      ClientLookedUp(w0, req, sessionID, script, w0, found);
      if found.Err? {
        Answering(w0, request, script, 1, w0, Failed(found.error));
        return Err(found.error);
      }
      if found.value.None? {
        Answering(w0, request, script, 1, w0, Authorized(Rejection(UNKNOWN_CLIENT)));
        return Ok(Rejection(UNKNOWN_CLIENT));
      }
      var client := found.value.value;
      var requested, promptNone, refusal := Check(req, client);
      if refusal.Some? {
        Answering(w0, request, script, 1, w0, Authorized(refusal.value));
        return Ok(refusal.value);
      }

      var session := SessionByID(sessionID, script[1].now, script[1].oracle.fail);
      SessionLookedUp(w0, req, sessionID, script, w0, client, requested, promptNone, session);
      if session.Err? {
        Answering(w0, request, script, 2, w0, Failed(session.error));
        Concluded(req, sessionID, script, promptNone, session, Err(session.error), w0.entries, w0.entries);
        return Err(session.error);
      }
      if session.value.None? {
        var result := if promptNone then ErrorToRedirect(req, "login_required")
                      else AuthorizeResult(RequireLogin, "", "", "", "", "");
        Answering(w0, request, script, 2, w0, Authorized(result));
        Concluded(req, sessionID, script, promptNone, session, Ok(result), w0.entries, w0.entries);
        return Ok(result);
      }

      CodeCreated(w0, req, sessionID, script, w0, client, requested, session.value.value);
      var code := authCodes.Create(CodeData(req, client, requested, session.value.value), script[2].oracle.random,
                                   script[2].now, script[2].oracle.fail, script[3].now, script[3].oracle.fail);
      ghost var w := WorldOf(authCodes.cache, users.db);
      if code.Err? {
        Answering(w0, request, script, if script[2].oracle.fail then 3 else 4, w, Failed(code.error));
        Concluded(req, sessionID, script, promptNone, session, Err(code.error), w0.entries, w.entries);
        return Err(code.error);
      }
      r := Ok(AuthorizeResult(IssueCode, req.redirectURI, req.state, code.value, "", ""));
      Answering(w0, request, script, 4, w, Authorized(r.value));
      Concluded(req, sessionID, script, promptNone, session, r, w0.entries, w.entries);
    }
  }
}
