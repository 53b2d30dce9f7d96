/** What the services over the repositories have in common. Every service call is proved to do what the
    steps of its request do when nothing interleaves; a script says when each step happens and what it
    is supplied with. */
module Services {
  import opened Entities
  import opened Crypto
  import opened Protocol
  import opened Cache
  import opened Repositories

  /** What the requests share, as it is held by objects. */
  ghost function WorldOf(cache: RedisClient, db: Database): World
    reads cache, db
  {
    World(0, cache.entries, db.clients, db.users, db.refreshTokens)
  }

  function GrantAnswer(r: Result<TokenResponse>): Outcome {
    match r case Ok(tokens) => Tokens(tokens) case Err(e) => Failed(e)
  }

  /** `bcrypt.GenerateFromPassword`: it refuses exactly a password of more than 72 bytes, counting one for each
      character and one more from U+80, from U+800 and from U+10000 on; every hash that it makes accepts
      its password. */
  function GenerateFromPassword(k: Primitives, password: string, salt: string): (r: Result<string>)
    ensures r.Err? <==>
            |password| + |set i | 0 <= i < |password| && password[i] as int >= 0x80|
            + |set i | 0 <= i < |password| && password[i] as int >= 0x800|
            + |set i | 0 <= i < |password| && password[i] as int >= 0x10000| > 72
    ensures r.Err? <==> Utf8Length(password) > BCRYPT_LIMIT
    ensures r.Err? ==> r == Err(Infrastructure)
    ensures r.Ok? && k.Valid() ==> r.value != "" && k.matches(r.value, password)
  {
    Utf8Counts(password);
    if Utf8Length(password) > BCRYPT_LIMIT then Err(Infrastructure) else Ok(k.hash(password, salt))
  }

  /** The token's expiry is computed from one reading of the clock and its time of issue is a second
      one, so it lives for at most its fifteen minutes. */
  function IssueAccessToken(userID: string, email: string, clientID: string, scope: string, first: Moment,
                            second: Moment): (r: Result<Claims>)
    ensures r.Err? <==> second.oracle.fail
    ensures r.Ok? ==>
              && r.value.userID == userID && r.value.email == email
              && r.value.clientID == clientID && r.value.scope == scope
              && r.value.tokenID == second.oracle.uuid && r.value.issuedAt == second.now
              && r.value.expiresAt == first.now + 900
    ensures r.Ok? && first.now <= second.now ==> r.value.expiresAt - r.value.issuedAt <= 900
    ensures r.Err? ==> r == Err(Infrastructure)
  {
    if second.oracle.fail then Err(Infrastructure)
    else Ok(Claims(userID, email, clientID, scope, second.oracle.uuid, second.now, first.now + ACCESS_TOKEN_TTL))
  }

  function IssueRefreshToken(at: Moment): (string, int) {
    (at.oracle.uuid, at.now + REFRESH_TOKEN_TTL)
  }
}
