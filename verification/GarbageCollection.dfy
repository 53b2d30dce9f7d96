/** Deleting expired refresh rows is invisible. */
module GarbageCollection {
  import opened Entities
  import opened Crypto
  import opened Store
  import opened Tables
  import opened Protocol
  import opened Machine
  import opened Invariants
  import opened Growth
  import opened Safety
  import opened Uniqueness
  import Scopes

  /** `rows'` is `rows` without some that have expired. */
  ghost predicate RowsCollected(rows: RefreshTokens, rows': RefreshTokens, now: int) {
    && (forall id :: id in rows' ==> id in rows && rows'[id] == rows[id])
    && (forall id :: id in rows && id !in rows' ==> rows[id].expiresAt < now)
  }

  /** A refresh that has found an expired row has lost, one that found none has failed already. */
  predicate Lost(request: Request, pc: Pc, now: int) {
    && request.Refresh?
    && ((pc.Done? && pc.outcome.Failed?) ||
        (pc.RefreshAt? && pc.refresh.CheckExpiry? && pc.refresh.row.expiresAt < now))
  }

  ghost predicate SameThread(t: Thread, t': Thread, now: int) {
    t == t' || (t.request == t'.request && Lost(t.request, t.pc, now) && Lost(t'.request, t'.pc, now) && t'.pc.Done?)
  }

  /** `d` is where the run that collected garbage is while the other run is at `c`. */
  ghost predicate Collected(c: Config, d: Config) {
    && d.w == c.w.(refreshTokens := d.w.refreshTokens) && d.h == c.h
    && RowsCollected(c.w.refreshTokens, d.w.refreshTokens, c.w.now)
    && c.threads.Keys == d.threads.Keys
    && forall tid :: tid in c.threads ==> SameThread(c.threads[tid], d.threads[tid], c.w.now)
  }

  lemma CollectingCollects(c: Config, d: Config)
    requires d == c.(w := c.w.(refreshTokens := WithoutExpired(c.w.refreshTokens, c.w.now)))
    ensures Collected(c, d)
  {}

  /** What can be seen of a configuration is the same: the active rows of every user, and every
      request that has not failed. */
  lemma CollectedLooksTheSame(c: Config, d: Config, userID: string, tid: nat)
    requires Collected(c, d)
    ensures ActiveFor(d.w.refreshTokens, userID, d.w.now) == ActiveFor(c.w.refreshTokens, userID, c.w.now)
    ensures tid in c.threads <==> tid in d.threads
    ensures tid in c.threads && c.threads[tid].pc.Done? && !c.threads[tid].pc.outcome.Failed? ==>
              d.threads[tid] == c.threads[tid]
    ensures tid in d.threads && d.threads[tid].pc.Done? && !d.threads[tid].pc.outcome.Failed? ==>
              d.threads[tid] == c.threads[tid]
  {
    var a, b := ActiveFor(c.w.refreshTokens, userID, c.w.now), ActiveFor(d.w.refreshTokens, userID, d.w.now);
    forall row | row in a ensures row in b {
      var id :| id in c.w.refreshTokens && c.w.refreshTokens[id] == row && row.userID == userID
                && row.revokedAt.None? && row.expiresAt > c.w.now;
      assert id in d.w.refreshTokens;
    }
    forall row | row in b ensures row in a {
      var id :| id in d.w.refreshTokens && d.w.refreshTokens[id] == row && row.userID == userID
                && row.revokedAt.None? && row.expiresAt > d.w.now;
      assert id in c.w.refreshTokens;
    }
  }

  lemma MaintenanceCollects(rows: RefreshTokens, rows': RefreshTokens, a: Action, now: int)
    requires RowsCollected(rows, rows', now)
    ensures RowsCollected(MaintainedRows(rows, a, now), MaintainedRows(rows', a, now), now)
  {}

  /** The result of a step from `w`, and of the same step from `w` with other rows. */
  ghost predicate SameButRows(w: World, rows: RefreshTokens, r: (World, Pc), r': (World, Pc)) {
    r.0.refreshTokens == w.refreshTokens && r' == (r.0.(refreshTokens := rows), r.1)
  }

  lemma GrantsIgnoreRows(k: Primitives, w: World, rows: RefreshTokens, req: TokenRequest, g: GrantPc, o: Oracle)
    requires !g.StoreRefresh?
    ensures SameButRows(w, rows, GrantStep(k, w, req, g, o), GrantStep(k, w.(refreshTokens := rows), req, g, o))
  {
    hide Find, Bound, Authenticates, Scopes.Join;
  }

  lemma AuthorizationsIgnoreRows(w: World, rows: RefreshTokens, req: AuthorizeRequest, id: string, a: AuthorizePc,
                                 o: Oracle)
    ensures SameButRows(w, rows, AuthorizeStep(w, req, id, a, o),
                        AuthorizeStep(w.(refreshTokens := rows), req, id, a, o))
  {
    hide Find, Put, Scopes.Fields;
  }

  lemma RefreshesIgnoreRows(k: Primitives, w: World, rows: RefreshTokens, raw: string, r: RefreshPc, o: Oracle)
    requires !r.FindRow?
    ensures SameButRows(w, rows, RefreshStep(k, w, raw, r, o), RefreshStep(k, w.(refreshTokens := rows), raw, r, o))
  {
    hide Scopes.Join;
  }

  lemma LoginsIgnoreRows(k: Primitives, w: World, rows: RefreshTokens, email: string, password: string, l: LoginPc,
                         o: Oracle)
    ensures SameButRows(w, rows, LoginStep(k, w, email, password, l, o),
                        LoginStep(k, w.(refreshTokens := rows), email, password, l, o))
  {
    hide Put, UserByEmail, SessionKey;
  }

  lemma RegistrationsIgnoreRows(k: Primitives, w: World, rows: RefreshTokens, email: string, password: string,
                                r: RegisterPc, o: Oracle)
    ensures SameButRows(w, rows, RegisterStep(k, w, email, password, r, o),
                        RegisterStep(k, w.(refreshTokens := rows), email, password, r, o))
  {
    hide UserByEmail, InsertUser, Utf8Length;
  }

  lemma ClientsIgnoreRows(k: Primitives, w: World, rows: RefreshTokens, req: RegisterClientRequest, o: Oracle)
    ensures SameButRows(w, rows, RegisterClientStep(k, w, req, o),
                        RegisterClientStep(k, w.(refreshTokens := rows), req, o))
  {
    hide FirstOffence, NewClient, InsertClient;
  }

  /** Only the lookup of a refresh row and the insertion of one depend on the rows. */
  lemma RowsIrrelevant(k: Primitives, w: World, rows: RefreshTokens, t: Thread, o: Oracle)
    requires !(t.pc.RefreshAt? && t.pc.refresh.FindRow?) && !(t.pc.GrantAt? && t.pc.grant.StoreRefresh?)
    ensures SameButRows(w, rows, Advance(k, w, t.request, t.pc, o),
                        Advance(k, w.(refreshTokens := rows), t.request, t.pc, o))
  {
    hide GrantStep, AuthorizeStep, LoginStep, RefreshStep, RegisterStep, RegisterClientStep;
    match t.pc
    case GrantAt(g) => GrantsIgnoreRows(k, w, rows, t.request.token, g, o);
    case AuthorizeAt(a) => AuthorizationsIgnoreRows(w, rows, t.request.authorize, t.request.sessionID, a, o);
    case RefreshAt(r) => RefreshesIgnoreRows(k, w, rows, t.request.rawToken, r, o);
    case LoginAt(l) => LoginsIgnoreRows(k, w, rows, t.request.email, t.request.password, l, o);
    case RegisterAt(r) => RegistrationsIgnoreRows(k, w, rows, t.request.email, t.request.password, r, o);
    case RegisterClientAt => ClientsIgnoreRows(k, w, rows, t.request.client, o);
    case LogoutAt =>
    case Done(_) =>
  }

  // ---------------------------------------------------------------- one step, in both runs

  ghost predicate Alike(t: Thread, u: Thread, pc: Pc, qc: Pc, now: int) {
    || (t == u && pc == qc)
    || (t.request == u.request && Lost(t.request, pc, now) && Lost(u.request, qc, now) && qc.Done?
        && Unrecorded(t, pc) && Unrecorded(u, qc))
  }

  /** Where a step of the same request leads in the two runs. */
  ghost predicate StepsAlike(k: Primitives, w: World, v: World, t: Thread, u: Thread, o: Oracle) {
    var (w', pc), (v', qc) := Advance(k, w, t.request, t.pc, o), Advance(k, v, u.request, u.pc, o);
    && v' == w'.(refreshTokens := v'.refreshTokens)
    && RowsCollected(w'.refreshTokens, v'.refreshTokens, w.now)
    && Alike(t, u, pc, qc, w.now)
  }

  /** The step leaves no record but its draws. */
  predicate Unrecorded(t: Thread, pc': Pc) {
    t.request.Refresh? && !Refreshes(t, pc')
  }

  /** A row with a new id is inserted in both tables or in neither. */
  lemma InsertAlike(users: Users, rows: RefreshTokens, rows': RefreshTokens, row: RefreshToken, now: int)
    requires RowsCollected(rows, rows', now) && row.id !in rows
    ensures var r, r' := InsertRefreshToken(users, rows, row), InsertRefreshToken(users, rows', row);
            && (r.None? <==> r'.None?)
            && (r.Some? ==> RowsCollected(r.value, r'.value, now))
  {}

  lemma StoreRefreshAlike(k: Primitives, w: World, v: World, t: Thread, o: Oracle)
    requires v == w.(refreshTokens := v.refreshTokens) && RowsCollected(w.refreshTokens, v.refreshTokens, w.now)
    requires t.pc.GrantAt? && t.pc.grant.StoreRefresh? && o.uuid !in w.refreshTokens
    ensures StepsAlike(k, w, v, t, t, o)
  {
    InsertAlike(w.users, w.refreshTokens, v.refreshTokens, MintedRow(k, t, o), w.now);
    hide InsertRefreshToken, RowsCollected, HashToken, Scopes.Join;
  }

  /** The lookup finds the same row in both tables, or one that has expired in the larger one. */
  lemma FindRowAlike(k: Primitives, w: World, v: World, t: Thread, o: Oracle)
    requires v == w.(refreshTokens := v.refreshTokens) && RowsCollected(w.refreshTokens, v.refreshTokens, w.now)
    requires t.pc.RefreshAt? && t.pc.refresh.FindRow?
    requires ValidPick(w.refreshTokens, HashToken(k, t.request.rawToken), o.pick)
    requires forall id, id' ::
               (id in w.refreshTokens && id' in w.refreshTokens
                && w.refreshTokens[id].tokenHash == w.refreshTokens[id'].tokenHash) ==> id == id'
    ensures ValidPick(v.refreshTokens, HashToken(k, t.request.rawToken), o.pick)
    ensures StepsAlike(k, w, v, t, t, o)
  {
    hide HashToken;
  }

  lemma OtherAlike(k: Primitives, w: World, v: World, t: Thread, o: Oracle)
    requires v == w.(refreshTokens := v.refreshTokens) && RowsCollected(w.refreshTokens, v.refreshTokens, w.now)
    requires !(t.pc.RefreshAt? && t.pc.refresh.FindRow?) && !(t.pc.GrantAt? && t.pc.grant.StoreRefresh?)
    ensures StepsAlike(k, w, v, t, t, o)
  {
    RowsIrrelevant(k, w, v.refreshTokens, t, o);
    hide Advance;
  }

  lemma LostAlike(k: Primitives, w: World, v: World, t: Thread, u: Thread, o: Oracle)
    requires v == w.(refreshTokens := v.refreshTokens) && RowsCollected(w.refreshTokens, v.refreshTokens, w.now)
    requires t.request == u.request && Lost(t.request, t.pc, w.now) && Lost(u.request, u.pc, w.now) && u.pc.Done?
    ensures StepsAlike(k, w, v, t, u, o)
  {}

  lemma StepCollected(k: Primitives, c: Config, d: Config, tid: nat, o: Oracle)
    requires Inv(k, c) && Collected(c, d) && Enabled(k, c, Run(tid, o))
    ensures Enabled(k, d, Run(tid, o))
    ensures StepsAlike(k, c.w, d.w, c.threads[tid], d.threads[tid], o)
  {
    var t, u := c.threads[tid], d.threads[tid];
    assert SameThread(t, u, c.w.now);
    NewRowID(k, c, o.uuid);
    forall id, id' | id in c.w.refreshTokens && id' in c.w.refreshTokens
                     && c.w.refreshTokens[id].tokenHash == c.w.refreshTokens[id'].tokenHash
      ensures id == id'
    {
      HashesDistinct(k, c, id, id');
    }
    hide Inv, StepsAlike, HashToken;
    if t != u {
      LostAlike(k, c.w, d.w, t, u, o);
    } else if t.pc.RefreshAt? && t.pc.refresh.FindRow? {
      FindRowAlike(k, c.w, d.w, t, o);
    } else if t.pc.GrantAt? && t.pc.grant.StoreRefresh? {
      StoreRefreshAlike(k, c.w, d.w, t, o);
    } else {
      OtherAlike(k, c.w, d.w, t, o);
    }
  }

  lemma NotesAlike(k: Primitives, h: History, tid: nat, t: Thread, u: Thread, w: World, v: World, o: Oracle, pc: Pc,
                   qc: Pc)
    requires v.now == w.now && v.entries == w.entries && Alike(t, u, pc, qc, w.now)
    ensures Note(k, h, tid, u, v, o, qc) == Note(k, h, tid, t, w, o, pc)
  {}

  lemma AfterCollected(k: Primitives, c: Config, d: Config, tid: nat, o: Oracle, w': World, v': World, pc: Pc, qc: Pc)
    requires Collected(c, d) && tid in c.threads && Fits(c.threads[tid].request, pc) && Fits(d.threads[tid].request, qc)
    requires w'.now == c.w.now && v' == w'.(refreshTokens := v'.refreshTokens)
    requires RowsCollected(w'.refreshTokens, v'.refreshTokens, c.w.now)
    requires Alike(c.threads[tid], d.threads[tid], pc, qc, c.w.now)
    ensures Collected(After(k, c, tid, o, w', pc), After(k, d, tid, o, v', qc))
  {
    NotesAlike(k, c.h, tid, c.threads[tid], d.threads[tid], c.w, d.w, o, pc, qc);
    hide Note, RowsCollected;
  }

  lemma RunCollected(k: Primitives, c: Config, d: Config, tid: nat, o: Oracle)
    requires Inv(k, c) && Collected(c, d) && Enabled(k, c, Run(tid, o))
    ensures Enabled(k, d, Run(tid, o))
    ensures Collected(Apply(k, c, Run(tid, o)), Apply(k, d, Run(tid, o)))
  {
    StepCollected(k, c, d, tid, o);
    RunIsAfter(k, c, tid, o);
    RunIsAfter(k, d, tid, o);
    var (w', pc) := Stepped(k, c, tid, o);
    var (v', qc) := Stepped(k, d, tid, o);
    hide Inv, Enabled, Apply, Advance, After, RowsCollected, Alike;
    AfterCollected(k, c, d, tid, o, w', v', pc, qc);
  }

  // ---------------------------------------------------------------- whole runs

  lemma ActionCollected(k: Primitives, c: Config, d: Config, a: Action)
    requires Inv(k, c) && Collected(c, d) && Enabled(k, c, a)
    ensures Enabled(k, d, a)
    ensures Collected(Apply(k, c, a), Apply(k, d, a))
  {
    if a.Run? {
      RunCollected(k, c, d, a.tid, a.oracle);
    } else {
      MaintenanceCollects(c.w.refreshTokens, d.w.refreshTokens, a, c.w.now);
      hide Inv, MaintainedRows, MaintainedUsers;
    }
  }

  lemma {:induction false} RunsCollected(k: Primitives, c: Config, d: Config, actions: seq<Action>)
    requires k.Valid() && Inv(k, c) && Collected(c, d) && CanRun(k, c, actions)
    ensures CanRun(k, d, actions)
    ensures Collected(Exec(k, c, actions), Exec(k, d, actions))
    decreases |actions|
  {
    hide Inv, Enabled, Apply, Collected;
    if actions != [] {
      ActionCollected(k, c, d, actions[0]);
      ActionInv(k, c, actions[0]);
      RunsCollected(k, Apply(k, c, actions[0]), Apply(k, d, actions[0]), actions[1..]);
    }
  }

  /** Collecting garbage at any point of any run changes nothing that can be seen afterwards, at the end
      of `post`, whatever `post` is: the run goes on exactly as before, every request that succeeds does
      so with the same answer, and every user has the same active rows. All requests are in the very
      same place, but for refreshes of an expired row, which fail in both runs. */
  lemma {:induction false} CollectionIsInvisible(k: Primitives, now: int, pre: seq<Action>, post: seq<Action>,
                                                 userID: string, tid: nat)
    requires k.Valid() && CanRun(k, Initial(now), pre + post)
    ensures CanRun(k, Initial(now), pre + [DeleteExpired] + post)
    ensures var c, d := Exec(k, Initial(now), pre + post), Exec(k, Initial(now), pre + [DeleteExpired] + post);
            && ActiveFor(d.w.refreshTokens, userID, d.w.now) == ActiveFor(c.w.refreshTokens, userID, c.w.now)
            && (tid in c.threads <==> tid in d.threads)
            && (tid in c.threads && c.threads[tid].pc.Done? && !c.threads[tid].pc.outcome.Failed? ==>
                  d.threads[tid] == c.threads[tid])
            && (tid in d.threads && d.threads[tid].pc.Done? && !d.threads[tid].pc.outcome.Failed? ==>
                  c.threads[tid] == d.threads[tid])
            && (tid in c.threads ==> SameThread(c.threads[tid], d.threads[tid], c.w.now))
            && (tid in c.threads && !c.threads[tid].request.Refresh? ==> d.threads[tid] == c.threads[tid])
            && d.w == c.w.(refreshTokens := d.w.refreshTokens) && d.h == c.h
  {
    var c0 := Initial(now);
    RunsCompose(k, c0, pre, post);
    ReachableInv(k, now, pre);
    var c := Exec(k, c0, pre);
    var d := Apply(k, c, DeleteExpired);
    CollectingCollects(c, d);
    hide Inv, Initial, Collected, Apply, Enabled;
    RunsCollected(k, c, d, post);
    assert Enabled(k, c, DeleteExpired);
    assert CanRun(k, c, [DeleteExpired]) && Exec(k, c, [DeleteExpired]) == d;
    RunsCompose(k, c0, pre, [DeleteExpired]);
    RunsCompose(k, c0, pre + [DeleteExpired], post);
    CollectedLooksTheSame(Exec(k, c, post), Exec(k, d, post), userID, tid);
    CollectedSameWorld(Exec(k, c, post), Exec(k, d, post), tid);
  }

  lemma CollectedSameWorld(c: Config, d: Config, tid: nat)
    requires Collected(c, d)
    ensures d.w == c.w.(refreshTokens := d.w.refreshTokens) && d.h == c.h
    ensures tid in c.threads ==> SameThread(c.threads[tid], d.threads[tid], c.w.now)
  {}
}
