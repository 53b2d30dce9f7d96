/** The three SQL tables, each keyed by its primary key, and what every statement does to them. */
module Tables {
  import opened Prelude
  import opened Entities

  type Users = map<string, User>
  type Clients = map<string, Client>
  type RefreshTokens = map<string, RefreshToken>

  ghost predicate EmailInUse(users: Users, email: string) {
    exists id :: id in users && users[id].email == email
  }

  /** The UNIQUE constraint on the email column. */
  ghost predicate EmailsDistinct(users: Users) {
    forall id, id' :: id in users && id' in users && users[id].email == users[id'].email ==> id == id'
  }

  /** `SELECT * FROM users WHERE email = ?`. */
  ghost function UserByEmail(users: Users, email: string): Option<User> {
    if EmailInUse(users, email) then
      var id :| id in users && users[id].email == email;
      Some(users[id])
    else None
  }

  /** The lookup reports a user with that email exactly when there is one; with distinct emails it is
      the only one. */
  lemma UserByEmailFinds(users: Users, email: string)
    ensures UserByEmail(users, email).Some? <==> EmailInUse(users, email)
    ensures match UserByEmail(users, email)
            case Some(u) => u.email == email && exists id :: id in users && users[id] == u
            case None => true
    ensures EmailsDistinct(users) ==>
              forall id :: id in users && users[id].email == email ==> UserByEmail(users, email) == Some(users[id])
  {}

  /** `INSERT INTO users`: the primary key and the email must both be free. */
  ghost function InsertUser(users: Users, u: User): Option<Users> {
    if u.id in users || EmailInUse(users, u.email) then None else Some(users[u.id := u])
  }

  function InsertClient(clients: Clients, c: Client): Option<Clients> {
    if c.id in clients then None else Some(clients[c.id := c])
  }

  /** `INSERT INTO refresh_tokens`: the primary key must be free and the user must exist. */
  function InsertRefreshToken(users: Users, rows: RefreshTokens, row: RefreshToken): Option<RefreshTokens> {
    if row.id in rows || row.userID !in users then None else Some(rows[row.id := row])
  }

  /** `ON DELETE CASCADE`: the rows that outlive the deletion of a user. */
  function WithoutUser(rows: RefreshTokens, userID: string): RefreshTokens {
    map id | id in rows && rows[id].userID != userID :: rows[id]
  }

  /** `pick` is the row the engine returns; it must match, and is arbitrary when none does. */
  ghost predicate ValidPick(rows: RefreshTokens, hash: string, pick: string) {
    || (pick in rows && rows[pick].tokenHash == hash)
    || forall id :: id in rows ==> rows[id].tokenHash != hash
  }

  function RowByHash(rows: RefreshTokens, hash: string, pick: string): Option<RefreshToken> {
    if pick in rows && rows[pick].tokenHash == hash then Some(rows[pick]) else None
  }

  function ActiveFor(rows: RefreshTokens, userID: string, now: int): set<RefreshToken> {
    set id | id in rows && rows[id].userID == userID && rows[id].revokedAt.None? && rows[id].expiresAt > now :: rows[id]
  }

  function RevokeRow(rows: RefreshTokens, id: string, now: int): RefreshTokens {
    if id in rows then rows[id := rows[id].(revokedAt := Some(now))] else rows
  }

  function RevokeRowsOf(rows: RefreshTokens, userID: string, now: int): RefreshTokens {
    map id | id in rows ::
      if rows[id].userID == userID && rows[id].revokedAt.None? then rows[id].(revokedAt := Some(now)) else rows[id]
  }

  function WithoutExpired(rows: RefreshTokens, now: int): RefreshTokens {
    map id | id in rows && !(rows[id].expiresAt < now) :: rows[id]
  }
}
