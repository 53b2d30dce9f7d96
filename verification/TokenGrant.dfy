/** `internal/service/token_grant.go`: the token endpoint's grants. */
module TokenGrant {
  import opened Prelude
  import opened Entities
  import opened Crypto
  import opened Store
  import opened Tables
  import opened Protocol
  import opened Sequential
  import opened Repositories
  import opened Services
  import Base64Url
  import Scopes

  class TokenGrantService {
    const k: Primitives
    const clients: ClientRepository
    const users: UserRepository
    const authCodes: AuthCodeRepository
    const refreshTokens: RefreshTokenRepository

    ghost predicate Wired() {
      clients.db == users.db == refreshTokens.db
    }

    constructor (k: Primitives, clients: ClientRepository, users: UserRepository,
                 authCodes: AuthCodeRepository, refreshTokens: RefreshTokenRepository)
      requires clients.db == users.db == refreshTokens.db
      ensures Wired()
      ensures this.k == k && this.clients == clients && this.users == users
      ensures this.authCodes == authCodes && this.refreshTokens == refreshTokens
    {
      this.k, this.clients, this.users := k, clients, users;
      this.authCodes, this.refreshTokens := authCodes, refreshTokens;
    }

    ghost predicate At(w0: World, req: TokenRequest, script: seq<Moment>, i: nat, w: World, pc: Pc) {
      Reaches(k, w0, Request.Exchange(req), script, i, w, pc)
    }

    lemma {:induction false} ClientLookedUp(w0: World, req: TokenRequest, script: seq<Moment>, w: World,
                                            found: Result<Option<Client>>)
      requires |script| == 7 && At(w0, req, script, 0, w, GrantAt(FindClient))
      requires found == if script[0].oracle.fail then Err(Infrastructure)
                        else Ok(if req.clientID in w.clients then Some(w.clients[req.clientID]) else None)
      ensures found.Err? ==> At(w0, req, script, 1, w, Fail(found.error))
      ensures found.Ok? && found.value.None? ==> At(w0, req, script, 1, w, Fail(InvalidClient))
      ensures found.Ok? && found.value.Some? ==>
                At(w0, req, script, 1, w,
                   if Authenticates(k, found.value.value, req.clientSecret) then GrantAt(ConsumeCode(found.value.value))
                   else Fail(InvalidClient))
    {
      Steps(k, w0, Request.Exchange(req), script, 0, w, GrantAt(FindClient));
      hide Reaches, Authenticates;
    }

    lemma {:induction false} CodeConsumed(w0: World, req: TokenRequest, script: seq<Moment>, w: World, client: Client,
                                          consumed: Result<AuthCode>)
      requires |script| == 7 && At(w0, req, script, 1, w, GrantAt(ConsumeCode(client)))
      requires consumed == if script[1].oracle.fail then Err(Infrastructure)
                           else match Find(w.entries, CodeKey(req.code), script[1].now)
                                case Some(CodePayload(data)) => Ok(data)
                                case Some(SessionPayload(_)) => Err(Infrastructure)
                                case None => Err(AuthCodeNotFound)
      ensures var w' := if script[1].oracle.fail then w else w.(entries := w.entries - {CodeKey(req.code)});
              && (consumed.Err? ==>
                    At(w0, req, script, 2, w',
                       Fail(if consumed.error.AuthCodeNotFound? then InvalidGrant else consumed.error)))
              && (consumed.Ok? ==>
                    At(w0, req, script, 2, w',
                       if Bound(k, req, consumed.value) then GrantAt(FindUser(client, consumed.value))
                       else Fail(InvalidGrant)))
    {
      Steps(k, w0, Request.Exchange(req), script, 1, w, GrantAt(ConsumeCode(client)));
      hide Reaches, Bound, Find;
    }

    lemma {:induction false} UserLookedUp(w0: World, req: TokenRequest, script: seq<Moment>, w: World, client: Client,
                                          data: AuthCode, owner: Result<User>)
      requires |script| == 7 && At(w0, req, script, 2, w, GrantAt(FindUser(client, data)))
      requires owner == if script[2].oracle.fail || data.userID !in w.users
                        then Err(Infrastructure) else Ok(w.users[data.userID])
      ensures owner.Err? ==> At(w0, req, script, 3, w, Fail(owner.error))
      ensures owner.Ok? ==> At(w0, req, script, 3, w, GrantAt(ReadExpiry(client, data, owner.value)))
    {
      Steps(k, w0, Request.Exchange(req), script, 2, w, GrantAt(FindUser(client, data)));
      hide Reaches;
    }

    lemma {:induction false} AccessTokenIssued(w0: World, req: TokenRequest, script: seq<Moment>, w: World,
                                               client: Client, data: AuthCode, user: User, issued: Result<Claims>)
      requires |script| == 7 && At(w0, req, script, 3, w, GrantAt(ReadExpiry(client, data, user)))
      requires issued == IssueAccessToken(user.id, user.email, client.id, Scopes.Join(data.scope), script[3], script[4])
      ensures issued.Err? ==> At(w0, req, script, 5, w, Fail(issued.error))
      ensures issued.Ok? ==> At(w0, req, script, 5, w, GrantAt(DrawRefresh(client, data, issued.value)))
    {
      Steps(k, w0, Request.Exchange(req), script, 3, w, GrantAt(ReadExpiry(client, data, user)));
      Steps(k, w0, Request.Exchange(req), script, 4, w,
            GrantAt(ReadIssued(client, data, user, script[3].now + ACCESS_TOKEN_TTL)));
      hide Reaches, Scopes.Join;
    }

    lemma {:induction false} RowStored(w0: World, req: TokenRequest, script: seq<Moment>, w: World, client: Client,
                                       data: AuthCode, claims: Claims, row: RefreshToken, stored: Result<()>)
      requires |script| == 7 && At(w0, req, script, 5, w, GrantAt(DrawRefresh(client, data, claims)))
      requires var (raw, expiresAt) := IssueRefreshToken(script[5]);
               row == GrantedRow(k, script[6].oracle.uuid, client, data, claims, raw, expiresAt)
      requires stored == if script[6].oracle.fail || row.id in w.refreshTokens || row.userID !in w.users
                         then Err(Infrastructure) else Ok(())
      ensures stored.Err? ==> At(w0, req, script, 7, w, Fail(stored.error))
      ensures stored.Ok? ==>
                At(w0, req, script, 7, w.(refreshTokens := w.refreshTokens[row.id := row]),
                   Done(Tokens(TokenResponse(claims, "Bearer", ACCESS_TOKEN_TTL, Scopes.Join(data.scope),
                                             IssueRefreshToken(script[5]).0))))
    {
      var (raw, expiresAt) := IssueRefreshToken(script[5]);
      Steps(k, w0, Request.Exchange(req), script, 5, w, GrantAt(DrawRefresh(client, data, claims)));
      Steps(k, w0, Request.Exchange(req), script, 6, w, GrantAt(StoreRefresh(client, data, claims, raw, expiresAt)));
      hide Reaches, Scopes.Join, GrantedRow;
    }

    lemma {:induction false} Answering(w0: World, req: TokenRequest, script: seq<Moment>, i: nat, w: World,
                                       outcome: Outcome)
      requires At(w0, req, script, i, w, Done(outcome))
      ensures Behaves(k, w0, w, Request.Exchange(req), script, outcome)
    {
      Ends(k, w0, Request.Exchange(req), script, i, w, outcome);
    }

    /** The lookup gets through, and the client is not registered or presents the wrong secret. */
    ghost predicate UnknownClient(w: World, req: TokenRequest, script: seq<Moment>)
      requires |script| == 7
    {
      && !script[0].oracle.fail
      && (req.clientID in w.clients ==>
            && w.clients[req.clientID].secretHash != ""
            && !k.matches(w.clients[req.clientID].secretHash, req.clientSecret))
    }

    /** The lookup gets through, and the client is a registered one that is public or presents its secret. */
    ghost predicate KnownClient(w: World, req: TokenRequest, script: seq<Moment>)
      requires |script| == 7
    {
      && !script[0].oracle.fail && req.clientID in w.clients
      && var client := w.clients[req.clientID];
         client.secretHash == "" || k.matches(client.secretHash, req.clientSecret)
    }

    /** The request names the client and the redirect target that the code was issued for, and its verifier
        answers the S256 challenge of the code. */
    ghost predicate RightlyPresented(req: TokenRequest, data: AuthCode) {
      && req.clientID == data.clientID && req.redirectURI == data.redirectURI
      && data.challengeMethod == "S256" && data.challenge == Base64Url.Encode(k.sha256(req.codeVerifier))
    }

    /** The client is in order, and the code is live and was issued for what the request presents. */
    ghost predicate Presentable(w: World, req: TokenRequest, script: seq<Moment>)
      requires |script| == 7
    {
      && KnownClient(w, req, script) && !script[1].oracle.fail
      && var found := Find(w.entries, CodeKey(req.code), script[1].now);
         found.Some? && found.value.CodePayload? && RightlyPresented(req, found.value.authCode)
    }

    /** The client is in order, and the code is not live or was issued for something else. */
    ghost predicate WrongCode(w: World, req: TokenRequest, script: seq<Moment>)
      requires |script| == 7
    {
      && KnownClient(w, req, script) && !script[1].oracle.fail
      && var found := Find(w.entries, CodeKey(req.code), script[1].now);
         found.None? || (found.value.CodePayload? && !RightlyPresented(req, found.value.authCode))
    }

    /** The first half of the code grant: the client, the code, and what binds the code to the request. The
        presented code is gone exactly when the client is in order and the consumption gets through, and
        nothing else changes. */
    method RedeemCode(req: TokenRequest, script: seq<Moment>) returns (r: Result<(Client, AuthCode)>)
      requires Wired() && users.db.Valid()
      requires req.grantType == "authorization_code" && |script| == 7
      modifies authCodes.cache
      ensures r.Ok? ==> At(old(WorldOf(authCodes.cache, users.db)), req, script, 2, WorldOf(authCodes.cache, users.db),
                           GrantAt(FindUser(r.value.0, r.value.1)))
      ensures r.Err? ==> Behaves(k, old(WorldOf(authCodes.cache, users.db)), WorldOf(authCodes.cache, users.db),
                                 Request.Exchange(req), script, Failed(r.error))
      ensures r.Ok? <==>
                && !script[0].oracle.fail && !script[1].oracle.fail
                && req.clientID in users.db.clients
                && var client := users.db.clients[req.clientID];
                && (client.secretHash == "" || k.matches(client.secretHash, req.clientSecret))
                && var found := Find(old(authCodes.cache.entries), CodeKey(req.code), script[1].now);
                && found.Some? && found.value.CodePayload?
                && var data := found.value.authCode;
                && req.clientID == data.clientID && req.redirectURI == data.redirectURI
                && data.challengeMethod == "S256" && data.challenge == Base64Url.Encode(k.sha256(req.codeVerifier))
      ensures r == Err(InvalidGrant) <==>
                && !script[0].oracle.fail && !script[1].oracle.fail
                && req.clientID in users.db.clients
                && var client := users.db.clients[req.clientID];
                && (client.secretHash == "" || k.matches(client.secretHash, req.clientSecret))
                && var found := Find(old(authCodes.cache.entries), CodeKey(req.code), script[1].now);
                   found.Some? ==>
                     && found.value.CodePayload?
                     && var data := found.value.authCode;
                        !(req.clientID == data.clientID && req.redirectURI == data.redirectURI
                          && data.challengeMethod == "S256"
                          && data.challenge == Base64Url.Encode(k.sha256(req.codeVerifier)))
      ensures r == Err(InvalidClient) <==> UnknownClient(old(WorldOf(authCodes.cache, users.db)), req, script)
      ensures r.Err? ==> r.error in {InvalidClient, InvalidGrant, Infrastructure}
      ensures r.Ok? ==>
                && Find(old(authCodes.cache.entries), CodeKey(req.code), script[1].now) == Some(CodePayload(r.value.1))
                && Bound(k, req, r.value.1)
                && req.clientID in users.db.clients && r.value.0 == users.db.clients[req.clientID]
      ensures authCodes.cache.entries ==
              if KnownClient(old(WorldOf(authCodes.cache, users.db)), req, script) && !script[1].oracle.fail
              then old(authCodes.cache.entries) - {CodeKey(req.code)}
              else old(authCodes.cache.entries)
    {
      var cache, db := authCodes.cache, users.db;
      ghost var w0 := WorldOf(cache, db);
      Begins(k, w0, Request.Exchange(req), script);
      assert At(w0, req, script, 0, w0, GrantAt(FindClient));
      hide Behaves, Reaches, At, RunAlone, Find, Challenge;

      var found := clients.GetByID(req.clientID, script[0].oracle.fail);
      ClientLookedUp(w0, req, script, w0, found);
      if found.Err? {
        Answering(w0, req, script, 1, w0, Failed(found.error));
        return Err(found.error);
      }
      if found.value.None? {
        Answering(w0, req, script, 1, w0, Failed(InvalidClient));
        return Err(InvalidClient);
      }
      var client := found.value.value;
      if client.secretHash != "" && !k.matches(client.secretHash, req.clientSecret) {
        Answering(w0, req, script, 1, w0, Failed(InvalidClient));
        return Err(InvalidClient);
      }

      var consumed := authCodes.Consume(req.code, script[1].now, script[1].oracle.fail);
      CodeConsumed(w0, req, script, w0, client, consumed);
      ghost var w := WorldOf(cache, db);
      if consumed.Err? {
        var e := if consumed.error.AuthCodeNotFound? then InvalidGrant else consumed.error;
        Answering(w0, req, script, 2, w, Failed(e));
        return Err(e);
      }
      var authCode := consumed.value;
      if authCode.clientID != req.clientID || authCode.redirectURI != req.redirectURI
         || authCode.challengeMethod != "S256" || Challenge(k, req.codeVerifier) != authCode.challenge {
        Answering(w0, req, script, 2, w, Failed(InvalidGrant));
        return Err(InvalidGrant);
      }
      return Ok((client, authCode));
    }

    /** The row that a redemption of `data` adds, and its answer. */
    ghost predicate Minted(script: seq<Moment>, client: Client, data: AuthCode, user: User, response: TokenResponse,
                           rows: RefreshTokens, rows': RefreshTokens)
      requires |script| == 7
    {
      var id, raw := script[6].oracle.uuid, script[5].oracle.uuid;
      && id !in rows
      && rows' ==
           rows[id := RefreshToken(id, user.id, client.id, data.scope, HashToken(k, raw), script[5].now + 604800, None)]
      && response ==
           TokenResponse(
             Claims(user.id, user.email, client.id, Scopes.Join(data.scope), script[4].oracle.uuid, script[4].now,
                    script[3].now + 900),
             "Bearer", 900, Scopes.Join(data.scope), raw)
    }

    /** The last part of the code grant: both tokens, and the row of the refresh token. */
    method Mint(ghost w0: World, req: TokenRequest, client: Client, authCode: AuthCode, user: User, script: seq<Moment>)
      returns (r: Result<TokenResponse>)
      requires Wired() && users.db.Valid() && |script| == 7
      requires At(w0, req, script, 3, WorldOf(authCodes.cache, users.db), GrantAt(ReadExpiry(client, authCode, user)))
      modifies users.db`refreshTokens
      ensures users.db.Valid()
      ensures Behaves(k, w0, WorldOf(authCodes.cache, users.db), Request.Exchange(req), script, GrantAnswer(r))
      ensures r.Err? ==> r == Err(Infrastructure) && users.db.refreshTokens == old(users.db.refreshTokens)
      ensures r.Ok? <==> !script[4].oracle.fail && !script[6].oracle.fail &&
                         script[6].oracle.uuid !in old(users.db.refreshTokens) && user.id in users.db.users
      ensures r.Ok? ==>
                Minted(script, client, authCode, user, r.value, old(users.db.refreshTokens), users.db.refreshTokens)
    {
      hide Behaves, At, HashToken, Scopes.Join;
      var scope := Scopes.Join(authCode.scope);
      ghost var w := WorldOf(authCodes.cache, users.db);

      var issued := IssueAccessToken(user.id, user.email, client.id, scope, script[3], script[4]);
      AccessTokenIssued(w0, req, script, w, client, authCode, user, issued);
      if issued.Err? {
        Answering(w0, req, script, 5, w, Failed(issued.error));
        return Err(issued.error);
      }

      var (refreshTokenRaw, refreshExpiresAt) := IssueRefreshToken(script[5]);
      var row := RefreshToken(script[6].oracle.uuid, user.id, client.id, authCode.scope,
                              HashToken(k, refreshTokenRaw), refreshExpiresAt, None);
      var stored := refreshTokens.Create(row, script[6].oracle.fail);
      RowStored(w0, req, script, w, client, authCode, issued.value, row, stored);
      if stored.Err? {
        Answering(w0, req, script, 7, w, Failed(stored.error));
        return Err(stored.error);
      }
      r := Ok(TokenResponse(issued.value, "Bearer", ACCESS_TOKEN_TTL, scope, refreshTokenRaw));
      Answering(w0, req, script, 7, WorldOf(authCodes.cache, users.db), Tokens(r.value));
    }

    /** Every answer and every change of state are those of the request's steps; an error leaves the
        tables alone; and tokens mean that a live code bound to the request is gone and that exactly one
        row was added, for the code's user, client and scope and with the hash of the returned token. */
    method AuthorizationCodeGrant(req: TokenRequest, script: seq<Moment>) returns (r: Result<TokenResponse>)
      requires Wired() && users.db.Valid()
      requires req.grantType == "authorization_code" && |script| == 7
      modifies authCodes.cache, users.db`refreshTokens
      ensures users.db.Valid()
      ensures Behaves(k, old(WorldOf(authCodes.cache, users.db)), WorldOf(authCodes.cache, users.db),
                      Request.Exchange(req), script, GrantAnswer(r))
      ensures authCodes.cache.entries ==
              if KnownClient(old(WorldOf(authCodes.cache, users.db)), req, script) && !script[1].oracle.fail
              then old(authCodes.cache.entries) - {CodeKey(req.code)}
              else old(authCodes.cache.entries)
      ensures r == Err(InvalidClient) <==> UnknownClient(old(WorldOf(authCodes.cache, users.db)), req, script)
      ensures r == Err(InvalidGrant) <==> WrongCode(old(WorldOf(authCodes.cache, users.db)), req, script)
      ensures r.Err? ==> r.error in {InvalidClient, InvalidGrant, Infrastructure}
      ensures r.Err? ==> users.db.refreshTokens == old(users.db.refreshTokens)
      ensures r.Ok? <==>
                && Presentable(old(WorldOf(authCodes.cache, users.db)), req, script)
                && !script[2].oracle.fail && !script[4].oracle.fail && !script[6].oracle.fail
                && script[6].oracle.uuid !in old(users.db.refreshTokens)
                && var found := Find(old(authCodes.cache.entries), CodeKey(req.code), script[1].now);
                   found.value.authCode.userID in users.db.users
      ensures r.Ok? ==>
                && var data := Find(old(authCodes.cache.entries), CodeKey(req.code), script[1].now).value.authCode;
                   Minted(script, users.db.clients[req.clientID], data, users.db.users[data.userID], r.value,
                          old(users.db.refreshTokens), users.db.refreshTokens)
    {
      ghost var w0 := WorldOf(authCodes.cache, users.db);
      hide Behaves, At, Find, HashToken, Scopes.Join, Bound, Minted, UnknownClient, KnownClient;

      var redeemed := RedeemCode(req, script);
      if redeemed.Err? {
        return Err(redeemed.error);
      }
      var (client, authCode) := redeemed.value;

      var owner := users.GetByID(authCode.userID, script[2].oracle.fail);
      ghost var w := WorldOf(authCodes.cache, users.db);
      UserLookedUp(w0, req, script, w, client, authCode, owner);
      if owner.Err? {
        Answering(w0, req, script, 3, w, Failed(owner.error));
        return Err(owner.error);
      }
      r := Mint(w0, req, client, authCode, owner.value, script);
    }

    /** Dispatch on the grant type. */
    method Exchange(req: TokenRequest, script: seq<Moment>) returns (r: Result<TokenResponse>)
      requires Wired() && users.db.Valid() && |script| == 7
      modifies authCodes.cache, users.db`refreshTokens
      ensures users.db.Valid()
      ensures Behaves(k, old(WorldOf(authCodes.cache, users.db)), WorldOf(authCodes.cache, users.db),
                      Request.Exchange(req), script, GrantAnswer(r))
      ensures r == Err(NotImplemented) <==> req.grantType == "refresh_token"
      ensures r == Err(UnsupportedGrantType) <==>
              req.grantType != "refresh_token" && req.grantType != "authorization_code"
      ensures req.grantType != "authorization_code" ==> authCodes.cache.entries == old(authCodes.cache.entries)
      ensures r.Err? ==> users.db.refreshTokens == old(users.db.refreshTokens)
    {
      ghost var w0 := WorldOf(authCodes.cache, users.db);
      Begins(k, w0, Request.Exchange(req), script);
      if req.grantType == GRANT_AUTHORIZATION_CODE {
        r := AuthorizationCodeGrant(req, script);
      } else {
        r := Err(if req.grantType == GRANT_REFRESH_TOKEN then NotImplemented else UnsupportedGrantType);
        Ends(k, w0, Request.Exchange(req), script, 0, w0, Failed(r.error));
      }
    }
  }
}
