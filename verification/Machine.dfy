/** Any number of requests, interleaved step by step with each other, with the clock and with
    maintenance of the tables. */
module Machine {
  import opened Entities
  import opened Crypto
  import opened Store
  import opened Tables
  import opened Protocol
  import Base64Url

  datatype ThreadState = ThreadState(request: Request, pc: Pc, started: int, mark: int)

  /** A request in flight or finished. `mark` is the instant of the read its outcome hangs on: the
      session lookup, the consumption of the code, or the expiry check of the refresh token. */
  type Thread = t: ThreadState | Fits(t.request, t.pc) witness ThreadState(Logout(""), LogoutAt, 0, 0)

  // ---------------------------------------------------------------- what has happened

  datatype LoginRecord = LoginRecord(tid: nat, session: Session, at: int)
  datatype GrantRecord = GrantRecord(tid: nat, sessionID: string, data: AuthCode, lookedUpAt: int, at: int)
  datatype MintRecord = MintRecord(code: string, consumedAt: int, row: RefreshToken, response: TokenResponse)
  datatype AccessRecord = AccessRecord(tid: nat, rowID: string, claims: Claims)
  datatype EnrolRecord = EnrolRecord(tid: nat, user: User)

  /** The past of a run, kept beside the state; no step reads it. `used` says which request drew a
      random value, `spent` which one consumed a code, `rowOwner` which one inserted a row. */
  datatype History = History(
    used: map<string, nat>,
    logins: map<string, LoginRecord>,
    grants: map<string, GrantRecord>,
    spent: map<string, nat>,
    minted: map<nat, MintRecord>,
    rowOwner: map<string, nat>,
    access: map<string, AccessRecord>,
    enrolled: map<string, EnrolRecord>)

  datatype Config = Config(w: World, threads: map<nat, Thread>, h: History)

  function Initial(now: int): Config {
    Config(
      World(now, map[], map[], map[], map[]),
      map[],
      History(map[], map[], map[], map[], map[], map[], map[], map[]))
  }

  // ---------------------------------------------------------------- steps

  datatype Action =
    | Tick(later: int)
    | Arrive(tid: nat, request: Request)
    | Run(tid: nat, oracle: Oracle)
    | DeleteUser(userID: string)
    | Revoke(rowID: string)
    | RevokeAllForUser(userID: string)
    | DeleteExpired

  /** Random values are new, and their digests do not collide with those of earlier ones. */
  ghost predicate Fresh(k: Primitives, h: History, o: Oracle) {
    && |o.random| == 32
    && var code := Base64Url.Encode(o.random);
    && o.uuid !in h.used && code !in h.used && o.uuid != code
    && HashToken(k, o.uuid) != HashToken(k, code)
    && forall x :: x in h.used ==> HashToken(k, x) != HashToken(k, o.uuid) && HashToken(k, x) != HashToken(k, code)
  }

  ghost predicate Enabled(k: Primitives, c: Config, a: Action) {
    match a
    case Tick(later) => c.w.now <= later
    case Arrive(tid, _) => tid !in c.threads
    case Run(tid, o) =>
      && tid in c.threads
      && Fresh(k, c.h, o)
      && (c.threads[tid].pc == RefreshAt(FindRow) ==>
            ValidPick(c.w.refreshTokens, HashToken(k, c.threads[tid].request.rawToken), o.pick))
    case DeleteUser(_) => true
    case Revoke(_) => true
    case RevokeAllForUser(_) => true
    case DeleteExpired => true
  }

  predicate TakesMark(pc: Pc) {
    match pc
    case GrantAt(g) => g.ConsumeCode?
    case AuthorizeAt(a) => a.FindSession?
    case RefreshAt(r) => r.CheckExpiry?
    case _ => false
  }

  predicate Consumes(w: World, t: Thread, o: Oracle) {
    && t.pc.GrantAt? && t.pc.grant.ConsumeCode? && !o.fail
    && Find(w.entries, CodeKey(t.request.token.code), w.now).Some?
  }

  predicate Stores(t: Thread, pc': Pc) {
    t.pc.LoginAt? && t.pc.login.StoreSession? && pc'.LoginAt?
  }

  predicate Grants(t: Thread, pc': Pc) {
    t.pc.AuthorizeAt? && t.pc.authorize.StoreCode? && pc'.Done? && pc'.outcome.Authorized?
  }

  predicate Mints(t: Thread, pc': Pc) {
    t.pc.GrantAt? && t.pc.grant.StoreRefresh? && pc'.Done? && pc'.outcome.Tokens?
  }

  predicate Refreshes(t: Thread, pc': Pc) {
    t.pc.RefreshAt? && t.pc.refresh.IssueToken? && pc'.Done? && pc'.outcome.Refreshed?
  }

  predicate Enrols(t: Thread, pc': Pc) {
    t.pc.RegisterAt? && t.pc.register.StoreUser? && pc'.Done? && pc'.outcome.Registered?
  }

  function MintedRow(k: Primitives, t: Thread, o: Oracle): RefreshToken
    requires t.pc.GrantAt? && t.pc.grant.StoreRefresh?
  {
    var g := t.pc.grant;
    GrantedRow(k, o.uuid, g.client, g.data, g.claims, g.raw, g.refreshExpiresAt)
  }

  function NoteLogins(m: map<string, LoginRecord>, tid: nat, t: Thread, w: World, pc': Pc): map<string, LoginRecord> {
    if Stores(t, pc') then m[t.pc.login.id := LoginRecord(tid, t.pc.login.session, w.now)] else m
  }

  function NoteGrants(m: map<string, GrantRecord>, tid: nat, t: Thread, w: World, pc': Pc): map<string, GrantRecord> {
    if Grants(t, pc')
    then m[t.pc.authorize.code := GrantRecord(tid, t.request.sessionID, t.pc.authorize.data, t.mark, w.now)]
    else m
  }

  function NoteSpent(m: map<string, nat>, tid: nat, t: Thread, w: World, o: Oracle): map<string, nat> {
    if Consumes(w, t, o) then m[t.request.token.code := tid] else m
  }

  function NoteMinted(k: Primitives, m: map<nat, MintRecord>, tid: nat, t: Thread, o: Oracle,
                      pc': Pc): map<nat, MintRecord> {
    if Mints(t, pc')
    then m[tid := MintRecord(t.request.token.code, t.mark, MintedRow(k, t, o), pc'.outcome.tokens)]
    else m
  }

  function NoteOwner(m: map<string, nat>, tid: nat, t: Thread, o: Oracle, pc': Pc): map<string, nat> {
    if Mints(t, pc') then m[o.uuid := tid] else m
  }

  function NoteAccess(m: map<string, AccessRecord>, tid: nat, t: Thread, o: Oracle,
                      pc': Pc): map<string, AccessRecord> {
    if Mints(t, pc') then m[t.pc.grant.claims.tokenID := AccessRecord(tid, o.uuid, t.pc.grant.claims)]
    else if Refreshes(t, pc') then m[o.uuid := AccessRecord(tid, t.pc.refresh.row.id, pc'.outcome.accessToken)]
    else m
  }

  function NoteEnrolled(m: map<string, EnrolRecord>, tid: nat, t: Thread, pc': Pc): map<string, EnrolRecord> {
    if Enrols(t, pc') then m[t.pc.register.user.id := EnrolRecord(tid, t.pc.register.user)] else m
  }

  /** The past after the step of request `tid` from `t`, in world `w`, to `pc'`. */
  function Note(k: Primitives, h: History, tid: nat, t: Thread, w: World, o: Oracle, pc': Pc): History {
    History(
      h.used[o.uuid := tid][Base64Url.Encode(o.random) := tid],
      NoteLogins(h.logins, tid, t, w, pc'),
      NoteGrants(h.grants, tid, t, w, pc'),
      NoteSpent(h.spent, tid, t, w, o),
      NoteMinted(k, h.minted, tid, t, o, pc'),
      NoteOwner(h.rowOwner, tid, t, o, pc'),
      NoteAccess(h.access, tid, t, o, pc'),
      NoteEnrolled(h.enrolled, tid, t, pc'))
  }

  /** Maintenance of the tables: `UserRepository.Delete`, whose foreign key cascades, and `Revoke`,
      `RevokeAllForUser` and `DeleteExpired` of the refresh-token repository. */
  function MaintainedUsers(users: Users, a: Action): Users {
    if a.DeleteUser? then users - {a.userID} else users
  }

  function MaintainedRows(rows: RefreshTokens, a: Action, now: int): RefreshTokens {
    match a
    case DeleteUser(userID) => WithoutUser(rows, userID)
    case Revoke(rowID) => RevokeRow(rows, rowID, now)
    case RevokeAllForUser(userID) => RevokeRowsOf(rows, userID, now)
    case DeleteExpired => WithoutExpired(rows, now)
    case _ => rows
  }

  ghost function Apply(k: Primitives, c: Config, a: Action): Config
    requires Enabled(k, c, a)
  {
    match a
    case Tick(later) => c.(w := c.w.(now := later))
    case Arrive(tid, request) =>
      c.(threads := c.threads[tid := ThreadState(request, Start(request), c.w.now, c.w.now)])
    case Run(tid, o) =>
      var t := c.threads[tid];
      var (w', pc') := Advance(k, c.w, t.request, t.pc, o);
      var mark := if TakesMark(t.pc) then c.w.now else t.mark;
      Config(w', c.threads[tid := ThreadState(t.request, pc', t.started, mark)], Note(k, c.h, tid, t, c.w, o, pc'))
    case _ =>
      c.(w := c.w.(users := MaintainedUsers(c.w.users, a),
                   refreshTokens := MaintainedRows(c.w.refreshTokens, a, c.w.now)))
  }

  // ---------------------------------------------------------------- runs

  ghost predicate CanRun(k: Primitives, c: Config, actions: seq<Action>)
    decreases |actions|
  {
    actions == [] || (Enabled(k, c, actions[0]) && CanRun(k, Apply(k, c, actions[0]), actions[1..]))
  }

  ghost function Exec(k: Primitives, c: Config, actions: seq<Action>): Config
    requires CanRun(k, c, actions)
    decreases |actions|
  {
    if actions == [] then c else Exec(k, Apply(k, c, actions[0]), actions[1..])
  }
}
