/** `internal/repository` over the key/value store and over the three tables. Each call is one
    statement or one command; `fail` says that it does not get through. */
module Repositories {
  import opened Prelude
  import opened Entities
  import opened Store
  import opened Tables
  import opened Cache
  import Base64Url

  // ---------------------------------------------------------------- over the store

  /** `rand.Read`: the buffer is filled with what the source of randomness supplies. */
  method FillRandom(buffer: array<byte>, random: seq<byte>)
    requires buffer.Length == |random|
    modifies buffer
    ensures buffer[..] == random
  {
    for i := 0 to buffer.Length
      invariant buffer[..i] == random[..i]
    {
      buffer[i] := random[i];
    }
  }

  class AuthCodeRepository {
    const cache: RedisClient

    constructor (cache: RedisClient)
      ensures this.cache == cache
    {
      this.cache := cache;
    }

    /** A new code of 43 characters, under which the data is found for the next minute. */
    method Create(data: AuthCode, random: seq<byte>, drawnAt: int, drawFails: bool, now: int, fail: bool)
      returns (r: Result<string>)
      requires |random| == 32
      modifies cache
      ensures r.Ok? <==> !drawFails && !fail
      ensures r.Err? ==> r == Err(Infrastructure) && cache.entries == old(cache.entries)
      ensures r.Ok? ==>
                && r.value == Base64Url.Encode(random) && |r.value| == 43 && Base64Url.InAlphabet(r.value)
                && cache.entries ==
                   Put(old(cache.entries), CodeKey(r.value), CodePayload(data.(createdAt := drawnAt)), 60, now)
                && (forall t :: Find(cache.entries, CodeKey(r.value), t) ==
                                if t <= now + 60 then Some(CodePayload(data.(createdAt := drawnAt)))
                                else None)
    {
      if drawFails {
        return Err(Infrastructure);
      }
      var raw := new byte[32];
      FillRandom(raw, random);
      var code := Base64Url.Encode(raw[..]);
      Base64Url.Shape(random);
      var stored := cache.Set(CodeKey(code), CodePayload(data.(createdAt := drawnAt)), AUTH_CODE_TTL, now, fail);
      return match stored case Ok(_) => Ok(code) case Err(e) => Err(e);
    }

    /** The data behind the code, which nobody will get again. */
    method Consume(code: string, now: int, fail: bool) returns (r: Result<AuthCode>)
      modifies cache
      ensures cache.entries == if fail then old(cache.entries) else old(cache.entries) - {CodeKey(code)}
      ensures r == if fail then Err(Infrastructure)
                   else match Find(old(cache.entries), CodeKey(code), now)
                        case Some(CodePayload(data)) => Ok(data)
                        case Some(SessionPayload(_)) => Err(Infrastructure)
                        case None => Err(AuthCodeNotFound)
      ensures !fail ==> forall t :: Find(cache.entries, CodeKey(code), t).None?
    {
      var raw := cache.GetDel(CodeKey(code), now, fail);
      match raw
      case Ok(CodePayload(data)) => return Ok(data);
      case Ok(SessionPayload(_)) => return Err(Infrastructure);
      case Err(KeyNotFound) => return Err(AuthCodeNotFound);
      case Err(e) => return Err(e);
    }
  }

  class SessionRepository {
    const cache: RedisClient

    constructor (cache: RedisClient)
      ensures this.cache == cache
    {
      this.cache := cache;
    }

    /** The session is found under the returned id for 30 days; the returned instant is read after the
        store has answered, so it is not before the session's own expiry. */
    method Create(userID: string, email: string, id: string, drawnAt: int, marshalFails: bool,
                  now: int, fail: bool, readAt: int)
      returns (r: Result<(string, int)>)
      modifies cache
      ensures r.Ok? <==> !marshalFails && !fail
      ensures r.Err? ==> r == Err(Infrastructure) && cache.entries == old(cache.entries)
      ensures r.Ok? ==>
                && r.value == (id, readAt + 2592000)
                && cache.entries ==
                   Put(old(cache.entries), SessionKey(id), SessionPayload(Session(userID, email, drawnAt)),
                       2592000, now)
                && (forall t :: Find(cache.entries, SessionKey(id), t) ==
                                if t <= now + 2592000 then Some(SessionPayload(Session(userID, email, drawnAt)))
                                else None)
                && (now <= readAt ==> forall t :: Find(cache.entries, SessionKey(id), t).Some? ==> t <= r.value.1)
    {
      if marshalFails {
        return Err(Infrastructure);
      }
      var stored := cache.Set(SessionKey(id), SessionPayload(Session(userID, email, drawnAt)), SESSION_TTL, now, fail);
      return match stored case Ok(_) => Ok((id, readAt + SESSION_TTL)) case Err(e) => Err(e);
    }

    method Get(id: string, now: int, fail: bool) returns (r: Result<Session>)
      ensures r == if fail then Err(Infrastructure)
                   else match Find(cache.entries, SessionKey(id), now)
                        case Some(SessionPayload(session)) => Ok(session)
                        case Some(CodePayload(_)) => Err(Infrastructure)
                        case None => Err(SessionNotFound)
    {
      var raw := cache.Get(SessionKey(id), now, fail);
      match raw
      case Ok(SessionPayload(session)) => return Ok(session);
      case Ok(CodePayload(_)) => return Err(Infrastructure);
      case Err(KeyNotFound) => return Err(SessionNotFound);
      case Err(e) => return Err(e);
    }

    method Destroy(id: string, fail: bool) returns (r: Result<()>)
      modifies cache
      ensures r == if fail then Err(Infrastructure) else Ok(())
      ensures cache.entries == if fail then old(cache.entries) else old(cache.entries) - {SessionKey(id)}
      ensures !fail ==> forall t :: Find(cache.entries, SessionKey(id), t).None?
    {
      assert (set key | key in [SessionKey(id)]) == {SessionKey(id)};
      r := cache.Delete([SessionKey(id)], fail);
    }
  }

  // ---------------------------------------------------------------- over the tables

  class Database {
    var users: Users
    var clients: Clients
    var refreshTokens: RefreshTokens

    /** The constraints of the schema: primary keys, unique emails, and the foreign key. */
    ghost predicate Valid()
      reads this
    {
      && (forall id :: id in users ==> users[id].id == id)
      && (forall id :: id in clients ==> clients[id].id == id)
      && (forall id :: id in refreshTokens ==> refreshTokens[id].id == id && refreshTokens[id].userID in users)
      && EmailsDistinct(users)
    }

    constructor ()
      ensures Valid()
      ensures users == map[] && clients == map[] && refreshTokens == map[]
    {
      users, clients, refreshTokens := map[], map[], map[];
    }
  }

  class UserRepository {
    const db: Database

    constructor (db: Database)
      ensures this.db == db
    {
      this.db := db;
    }

    method Create(u: User, fail: bool) returns (r: Result<()>)
      requires db.Valid()
      modifies db`users
      ensures db.Valid()
      ensures r == if fail || u.id in old(db.users)
                      || exists id :: id in old(db.users) && old(db.users)[id].email == u.email
                   then Err(Infrastructure) else Ok(())
      ensures db.users == if r.Ok? then old(db.users)[u.id := u] else old(db.users)
    {
      if fail || u.id in db.users || exists id :: id in db.users && db.users[id].email == u.email {
        return Err(Infrastructure);
      }
      db.users := db.users[u.id := u];
      return Ok(());
    }

    /** A missing user is an error, not an absent value. */
    method GetByID(id: string, fail: bool) returns (r: Result<User>)
      ensures r == if fail || id !in db.users then Err(Infrastructure) else Ok(db.users[id])
    {
      if fail || id !in db.users {
        return Err(Infrastructure);
      }
      return Ok(db.users[id]);
    }

    method GetByEmail(email: string, fail: bool) returns (r: Result<Option<User>>)
      requires db.Valid()
      ensures r == if fail then Err(Infrastructure) else Ok(UserByEmail(db.users, email))
      ensures r.Ok? ==>
                && (r.value.Some? <==> exists id :: id in db.users && db.users[id].email == email)
                && (forall id :: id in db.users && db.users[id].email == email ==> r.value == Some(db.users[id]))
    {
      UserByEmailFinds(db.users, email);
      if fail {
        return Err(Infrastructure);
      }
      if id :| id in db.users && db.users[id].email == email {
        return Ok(Some(db.users[id]));
      }
      return Ok(None);
    }

    /** The rows of the user go with it, and nothing else does. */
    method Delete(id: string, fail: bool) returns (r: Result<()>)
      requires db.Valid()
      modifies db`users, db`refreshTokens
      ensures db.Valid()
      ensures r == if fail then Err(Infrastructure) else Ok(())
      ensures db.users == if fail then old(db.users) else old(db.users) - {id}
      ensures db.refreshTokens == if fail then old(db.refreshTokens) else WithoutUser(old(db.refreshTokens), id)
      ensures !fail ==> forall row :: row in db.refreshTokens <==>
                                      row in old(db.refreshTokens) && old(db.refreshTokens)[row].userID != id
      ensures forall row :: row in db.refreshTokens ==> db.refreshTokens[row] == old(db.refreshTokens)[row]
    {
      if fail {
        return Err(Infrastructure);
      }
      db.users := db.users - {id};
      db.refreshTokens := map row | row in db.refreshTokens && db.refreshTokens[row].userID != id
                            :: db.refreshTokens[row];
      return Ok(());
    }
  }

  class ClientRepository {
    const db: Database

    constructor (db: Database)
      ensures this.db == db
    {
      this.db := db;
    }

    /** The registry only grows: an id in use is refused, never overwritten. */
    method Create(c: Client, fail: bool) returns (r: Result<()>)
      requires db.Valid()
      modifies db`clients
      ensures db.Valid()
      ensures r == if fail || c.id in old(db.clients) then Err(Infrastructure) else Ok(())
      ensures db.clients == if r.Ok? then old(db.clients)[c.id := c] else old(db.clients)
      ensures Extends(old(db.clients), db.clients)
    {
      if fail || c.id in db.clients {
        return Err(Infrastructure);
      }
      db.clients := db.clients[c.id := c];
      return Ok(());
    }

    method GetByID(id: string, fail: bool) returns (r: Result<Option<Client>>)
      ensures r == if fail then Err(Infrastructure)
                   else Ok(if id in db.clients then Some(db.clients[id]) else None)
    {
      if fail {
        return Err(Infrastructure);
      }
      return Ok(if id in db.clients then Some(db.clients[id]) else None);
    }
  }

  class RefreshTokenRepository {
    const db: Database

    constructor (db: Database)
      ensures this.db == db
    {
      this.db := db;
    }

    method Create(row: RefreshToken, fail: bool) returns (r: Result<()>)
      requires db.Valid()
      modifies db`refreshTokens
      ensures db.Valid()
      ensures r == if fail || row.id in old(db.refreshTokens) || row.userID !in db.users
                   then Err(Infrastructure) else Ok(())
      ensures db.refreshTokens == if r.Ok? then old(db.refreshTokens)[row.id := row] else old(db.refreshTokens)
    {
      if fail || row.id in db.refreshTokens || row.userID !in db.users {
        return Err(Infrastructure);
      }
      db.refreshTokens := db.refreshTokens[row.id := row];
      return Ok(());
    }

    method GetByID(id: string, fail: bool) returns (r: Result<Option<RefreshToken>>)
      ensures r == if fail then Err(Infrastructure)
                   else Ok(if id in db.refreshTokens then Some(db.refreshTokens[id]) else None)
    {
      if fail {
        return Err(Infrastructure);
      }
      return Ok(if id in db.refreshTokens then Some(db.refreshTokens[id]) else None);
    }

    /** Exactly the rows of the user that are neither revoked nor at or past their expiry. */
    method GetActiveByUserID(userID: string, now: int, fail: bool) returns (r: Result<set<RefreshToken>>)
      ensures r.Err? <==> fail
      ensures r.Err? ==> r == Err(Infrastructure)
      ensures r.Ok? ==> r.value == ActiveFor(db.refreshTokens, userID, now)
      ensures r.Ok? ==> forall id :: id in db.refreshTokens ==>
                var row := db.refreshTokens[id];
                row.userID == userID && row.revokedAt.None? && now < row.expiresAt ==> row in r.value
      ensures r.Ok? ==> forall row :: row in r.value ==>
                row.userID == userID && row.revokedAt.None? && now < row.expiresAt
                && exists id :: id in db.refreshTokens && db.refreshTokens[id] == row
    {
      if fail {
        return Err(Infrastructure);
      }
      return Ok(ActiveFor(db.refreshTokens, userID, now));
    }

    /** The time of revocation is written again when the row is revoked already. */
    method Revoke(id: string, now: int, fail: bool) returns (r: Result<()>)
      requires db.Valid()
      modifies db`refreshTokens
      ensures db.Valid()
      ensures r == if fail then Err(Infrastructure) else Ok(())
      ensures db.refreshTokens == if fail then old(db.refreshTokens) else RevokeRow(old(db.refreshTokens), id, now)
      ensures db.refreshTokens.Keys == old(db.refreshTokens).Keys
      ensures forall row :: row in db.refreshTokens ==>
                db.refreshTokens[row] ==
                if !fail && row == id then old(db.refreshTokens)[row].(revokedAt := Some(now))
                else old(db.refreshTokens)[row]
    {
      if fail {
        return Err(Infrastructure);
      }
      if id in db.refreshTokens {
        db.refreshTokens := db.refreshTokens[id := db.refreshTokens[id].(revokedAt := Some(now))];
      }
      return Ok(());
    }

    /** The rows of the user that were not revoked get the time of revocation; those revoked before keep
        theirs. */
    method RevokeAllForUser(userID: string, now: int, fail: bool) returns (r: Result<()>)
      requires db.Valid()
      modifies db`refreshTokens
      ensures db.Valid()
      ensures r == if fail then Err(Infrastructure) else Ok(())
      ensures db.refreshTokens == if fail then old(db.refreshTokens)
                                  else RevokeRowsOf(old(db.refreshTokens), userID, now)
      ensures !fail ==> forall t :: ActiveFor(db.refreshTokens, userID, t) == {}
      ensures db.refreshTokens.Keys == old(db.refreshTokens).Keys
      ensures forall id :: id in db.refreshTokens ==>
                db.refreshTokens[id] ==
                if !fail && old(db.refreshTokens)[id].userID == userID && old(db.refreshTokens)[id].revokedAt == None
                then old(db.refreshTokens)[id].(revokedAt := Some(now))
                else old(db.refreshTokens)[id]
    {
      if fail {
        return Err(Infrastructure);
      }
      db.refreshTokens := RevokeRowsOf(db.refreshTokens, userID, now);
      return Ok(());
    }

    /** Exactly the rows whose expiry is before the clock go. */
    method DeleteExpired(now: int, fail: bool) returns (r: Result<()>)
      requires db.Valid()
      modifies db`refreshTokens
      ensures db.Valid()
      ensures r == if fail then Err(Infrastructure) else Ok(())
      ensures db.refreshTokens == if fail then old(db.refreshTokens) else WithoutExpired(old(db.refreshTokens), now)
      ensures !fail ==> forall id :: id in db.refreshTokens <==>
                                     id in old(db.refreshTokens) && now <= old(db.refreshTokens)[id].expiresAt
      ensures forall id :: id in db.refreshTokens ==> db.refreshTokens[id] == old(db.refreshTokens)[id]
    {
      if fail {
        return Err(Infrastructure);
      }
      db.refreshTokens := map id | id in db.refreshTokens && !(db.refreshTokens[id].expiresAt < now)
                            :: db.refreshTokens[id];
      return Ok(());
    }

    /** Some row with that hash, if there is one; which one is up to the engine, and `pick` names it. */
    method GetTokenByHash(hash: string, fail: bool) returns (r: Result<Option<RefreshToken>>, ghost pick: string)
      ensures ValidPick(db.refreshTokens, hash, pick)
      ensures r == if fail then Err(Infrastructure) else Ok(RowByHash(db.refreshTokens, hash, pick))
      ensures r.Ok? ==>
                match r.value
                case Some(row) => row.tokenHash == hash && pick in db.refreshTokens && row == db.refreshTokens[pick]
                case None => forall id :: id in db.refreshTokens ==> db.refreshTokens[id].tokenHash != hash
    {
      if id :| id in db.refreshTokens && db.refreshTokens[id].tokenHash == hash {
        pick := id;
        r := if fail then Err(Infrastructure) else Ok(Some(db.refreshTokens[id]));
      } else {
        pick := "";
        r := if fail then Err(Infrastructure) else Ok(None);
      }
    }
  }
}
