/** How long anything derived from one login can last. */
module Lifetime {
  import opened Prelude
  import opened Entities
  import opened Crypto
  import opened Store
  import opened Tables
  import opened Protocol
  import opened Machine
  import opened Invariants
  import opened Growth
  import opened Effects
  import opened Safety
  import opened Provenance

  /** No request takes a step more than `d` seconds after it arrived. */
  ghost predicate Timely(c: Config, a: Action, d: nat) {
    a.Run? && a.tid in c.threads ==> c.threads[a.tid].pc.Done? || c.w.now <= c.threads[a.tid].started + d
  }

  ghost predicate CanRunWithin(k: Primitives, c: Config, actions: seq<Action>, d: nat)
    decreases |actions|
  {
    actions == [] ||
    (Enabled(k, c, actions[0]) && Timely(c, actions[0], d) && CanRunWithin(k, Apply(k, c, actions[0]), actions[1..], d))
  }

  /** What a request carries expires within its time of the instant its outcome hangs on. */
  predicate GrantPcLife(g: GrantPc, mark: int, d: nat) {
    match g
    case ReadIssued(_, _, _, expiresAt) => expiresAt <= mark + d + ACCESS_TOKEN_TTL
    case DrawRefresh(_, _, claims) => claims.expiresAt <= mark + d + ACCESS_TOKEN_TTL
    case StoreRefresh(_, _, claims, _, refreshExpiresAt) =>
      claims.expiresAt <= mark + d + ACCESS_TOKEN_TTL && refreshExpiresAt <= mark + d + REFRESH_TOKEN_TTL
    case _ => true
  }

  predicate RefreshPcLife(r: RefreshPc, mark: int, d: nat) {
    r.IssueToken? ==> r.expiresAt <= mark + d + ACCESS_TOKEN_TTL
  }

  predicate ThreadLife(t: Thread, d: nat) {
    && (t.pc.GrantAt? ==> GrantPcLife(t.pc.grant, t.mark, d))
    && (t.pc.RefreshAt? ==> RefreshPcLife(t.pc.refresh, t.mark, d))
  }

  ghost predicate GrantLife(c: Config, code: string, d: nat) {
    code in c.h.grants ==> c.h.grants[code].at <= c.h.grants[code].lookedUpAt + d
  }

  ghost predicate MintLife(c: Config, tid: nat, d: nat) {
    tid in c.h.minted ==> c.h.minted[tid].row.expiresAt <= c.h.minted[tid].consumedAt + d + REFRESH_TOKEN_TTL
  }

  ghost predicate AccessLife(c: Config, tokenID: string, d: nat) {
    tokenID in c.h.access ==>
      var r := c.h.access[tokenID];
      r.rowID in c.h.rowOwner && c.h.rowOwner[r.rowID] in c.h.minted &&
      r.claims.expiresAt <= c.h.minted[c.h.rowOwner[r.rowID]].consumedAt + REFRESH_TOKEN_TTL + ACCESS_TOKEN_TTL + 2 * d
  }

  ghost predicate Life(c: Config, d: nat) {
    && (forall tid :: tid in c.threads ==> ThreadLife(c.threads[tid], d))
    && (forall code :: GrantLife(c, code, d))
    && (forall tid :: MintLife(c, tid, d))
    && (forall id :: AccessLife(c, id, d))
  }

  lemma GrantStepLife(k: Primitives, w: World, req: TokenRequest, g: GrantPc, o: Oracle, mark: int, d: nat)
    requires GrantPcLife(g, mark, d) && mark <= w.now <= mark + d
    ensures var pc' := GrantStep(k, w, req, g, o).1;
            pc'.GrantAt? ==> GrantPcLife(pc'.grant, if g.ConsumeCode? then w.now else mark, d)
  {
    hide Find, Bound, Authenticates;
  }

  lemma RefreshStepLife(k: Primitives, w: World, raw: string, r: RefreshPc, o: Oracle, mark: int, d: nat)
    requires RefreshPcLife(r, mark, d) && mark <= w.now <= mark + d
    ensures var pc' := RefreshStep(k, w, raw, r, o).1;
            pc'.RefreshAt? ==> RefreshPcLife(pc'.refresh, if r.CheckExpiry? then w.now else mark, d)
  {
    hide RowByHash;
  }

  lemma ThreadTimes(k: Primitives, c: Config, tid: nat)
    requires Inv(k, c) && tid in c.threads
    ensures c.threads[tid].started <= c.threads[tid].mark <= c.w.now
  {
    assert ThreadOk(k, c, tid, c.threads[tid]);
  }

  lemma StepThreadLife(k: Primitives, c: Config, tid: nat, o: Oracle, d: nat)
    requires Inv(k, c) && Enabled(k, c, Run(tid, o)) && Timely(c, Run(tid, o), d) && ThreadLife(c.threads[tid], d)
    ensures ThreadLife(Apply(k, c, Run(tid, o)).threads[tid], d)
  {
    hide Inv, ThreadOk;
    var t := c.threads[tid];
    ThreadTimes(k, c, tid);
    RunIsAfter(k, c, tid, o);
    hide Enabled, Apply, Note, GrantStep, RefreshStep, GrantPcLife, RefreshPcLife;
    if t.pc.GrantAt? { GrantStepLife(k, c.w, t.request.token, t.pc.grant, o, t.mark, d); }
    if t.pc.RefreshAt? { RefreshStepLife(k, c.w, t.request.rawToken, t.pc.refresh, o, t.mark, d); }
  }

  lemma RecordsLast(c: Config, c': Config, d: nat)
    requires HistoryGrows(c.h, c'.h) && Life(c, d)
    ensures forall code :: code in c.h.grants ==> GrantLife(c', code, d)
    ensures forall tid :: tid in c.h.minted ==> MintLife(c', tid, d)
    ensures forall id :: id in c.h.access ==> AccessLife(c', id, d)
  {
    forall code | code in c.h.grants ensures GrantLife(c', code, d) { assert GrantLife(c, code, d); }
    forall tid | tid in c.h.minted ensures MintLife(c', tid, d) { assert MintLife(c, tid, d); }
    forall id | id in c.h.access ensures AccessLife(c', id, d) { assert AccessLife(c, id, d); }
  }

  /** A timely step of request `tid` has led from `c` to `c'`. */
  ghost predicate TimelyStep(k: Primitives, c: Config, c': Config, tid: nat, o: Oracle, d: nat) {
    && StepShape(k, c, c', tid, o) && Life(c, d) && ThreadOk(k, c, tid, c.threads[tid])
    && (c.threads[tid].pc.Done? || c.w.now <= c.threads[tid].started + d)
    && c'.threads[tid].pc == Advance(k, c.w, c.threads[tid].request, c.threads[tid].pc, o).1
  }

  // What such a step leaves on record.

  lemma NewGrantsLast(k: Primitives, c: Config, c': Config, tid: nat, o: Oracle, d: nat)
    requires TimelyStep(k, c, c', tid, o, d)
    ensures forall code :: code in c'.h.grants && code !in c.h.grants ==> GrantLife(c', code, d)
  {
    assert c.threads[tid].started <= c.threads[tid].mark;
    hide EntriesAfter, Advance, EmailInUse, Consumes, ThreadOk, Life, Grows, MintedRow;
  }

  lemma NewMintsLast(k: Primitives, c: Config, c': Config, tid: nat, o: Oracle, d: nat)
    requires TimelyStep(k, c, c', tid, o, d)
    ensures forall id :: id in c'.h.minted && id !in c.h.minted ==> MintLife(c', id, d)
  {
    assert ThreadLife(c.threads[tid], d);
    hide EntriesAfter, Advance, EmailInUse, Consumes, ThreadOk, Life, Grows, HashToken;
  }

  lemma MintedAccessLasts(k: Primitives, c: Config, c': Config, tid: nat, o: Oracle, d: nat)
    requires TimelyStep(k, c, c', tid, o, d) && Mints(c.threads[tid], c'.threads[tid].pc)
    ensures forall id :: id in c'.h.access && id !in c.h.access ==> AccessLife(c', id, d)
  {
    assert ThreadLife(c.threads[tid], d);
    hide EntriesAfter, Advance, EmailInUse, Consumes, ThreadOk, Life, Grows, HashToken;
  }

  lemma RefreshedAccessLasts(k: Primitives, c: Config, c': Config, tid: nat, o: Oracle, d: nat)
    requires TimelyStep(k, c, c', tid, o, d) && Refreshes(c.threads[tid], c'.threads[tid].pc)
    ensures forall id :: id in c'.h.access && id !in c.h.access ==> AccessLife(c', id, d)
  {
    var t, pc' := c.threads[tid], c'.threads[tid].pc;
    assert ThreadLife(t, d) && t.started <= t.mark;
    var row := t.pc.refresh.row;
    assert RowKnown(c, row) && t.mark <= row.expiresAt;
    assert MintLife(c, c.h.rowOwner[row.id], d);
    assert pc'.outcome.accessToken.expiresAt == t.pc.refresh.expiresAt;
    hide EntriesAfter, Advance, EmailInUse, Consumes, ThreadOk, Life, HashToken;
  }

  lemma NewAccessLasts(k: Primitives, c: Config, c': Config, tid: nat, o: Oracle, d: nat)
    requires TimelyStep(k, c, c', tid, o, d)
    ensures forall id :: id in c'.h.access && id !in c.h.access ==> AccessLife(c', id, d)
  {
    var t, pc' := c.threads[tid], c'.threads[tid].pc;
    if Mints(t, pc') {
      hide TimelyStep, AccessLife, Mints, Refreshes;
      MintedAccessLasts(k, c, c', tid, o, d);
    } else if Refreshes(t, pc') {
      hide TimelyStep, AccessLife, Mints, Refreshes;
      RefreshedAccessLasts(k, c, c', tid, o, d);
    } else {
      assert c'.h.access == c.h.access;
      hide AccessLife;
    }
  }

  lemma RunNewRecordsLast(k: Primitives, c: Config, tid: nat, o: Oracle, d: nat)
    requires Inv(k, c) && Life(c, d) && Enabled(k, c, Run(tid, o)) && Timely(c, Run(tid, o), d)
    ensures var c' := Apply(k, c, Run(tid, o));
            && StepShape(k, c, c', tid, o)
            && (forall code :: code in c'.h.grants && code !in c.h.grants ==> GrantLife(c', code, d))
            && (forall id :: id in c'.h.minted && id !in c.h.minted ==> MintLife(c', id, d))
            && (forall id :: id in c'.h.access && id !in c.h.access ==> AccessLife(c', id, d))
  {
    RunShape(k, c, tid, o);
    RunIsAfter(k, c, tid, o);
    assert ThreadOk(k, c, tid, c.threads[tid]);
    var c' := Apply(k, c, Run(tid, o));
    hide Inv, Life, Enabled, Apply, Advance, Note, StepShape, ThreadOk, GrantLife, MintLife, AccessLife;
    assert TimelyStep(k, c, c', tid, o, d);
    hide TimelyStep;
    NewGrantsLast(k, c, c', tid, o, d);
    NewMintsLast(k, c, c', tid, o, d);
    NewAccessLasts(k, c, c', tid, o, d);
  }

  lemma RunLife(k: Primitives, c: Config, tid: nat, o: Oracle, d: nat)
    requires Inv(k, c) && Life(c, d) && Enabled(k, c, Run(tid, o)) && Timely(c, Run(tid, o), d)
    ensures Life(Apply(k, c, Run(tid, o)), d)
  {
    var c' := Apply(k, c, Run(tid, o));
    StepThreadLife(k, c, tid, o, d);
    RunNewRecordsLast(k, c, tid, o, d);
    assert Grows(c, c') && c'.threads == c.threads[tid := c'.threads[tid]];
    hide Inv, Apply, Enabled, Timely, StepShape, GrantLife, MintLife, AccessLife, ThreadLife;
    RecordsLast(c, c', d);
  }

  lemma ActionLife(k: Primitives, c: Config, a: Action, d: nat)
    requires Inv(k, c) && Life(c, d) && Enabled(k, c, a) && Timely(c, a, d)
    ensures Life(Apply(k, c, a), d)
  {
    if a.Run? {
      RunLife(k, c, a.tid, a.oracle, d);
    } else {
      var c' := Apply(k, c, a);
      assert c'.h == c.h;
      hide Inv, Enabled, GrantLife, MintLife, AccessLife;
      RecordsLast(c, c', d);
    }
  }

  lemma {:induction false} RunsKeepLife(k: Primitives, c: Config, actions: seq<Action>, d: nat)
    requires k.Valid() && Inv(k, c) && Life(c, d) && CanRunWithin(k, c, actions, d)
    ensures CanRun(k, c, actions) && Life(Exec(k, c, actions), d)
    decreases |actions|
  {
    hide Inv, Life, Enabled, Timely, Apply;
    if actions != [] {
      ActionInv(k, c, actions[0]);
      ActionLife(k, c, actions[0], d);
      RunsKeepLife(k, Apply(k, c, actions[0]), actions[1..], d);
    }
  }

  /** If every request finishes within `d` seconds, no access token returned in any run, directly or
      by any number of legacy refreshes, outlives the login it goes back to by more than the sum of
      the lifetimes on the way and three times `d`. */
  lemma {:induction false} EndToEndLifetime(k: Primitives, now: int, actions: seq<Action>, d: nat, tid: nat,
                                            claims: Claims)
    requires k.Valid() && CanRunWithin(k, Initial(now), actions, d) && CanRun(k, Initial(now), actions)
    requires Returned(Exec(k, Initial(now), actions), tid, claims)
    ensures var c := Exec(k, Initial(now), actions);
            && claims.tokenID in c.h.access && c.h.access[claims.tokenID].rowID in c.h.rowOwner
            && MinterOf(c, claims) in c.h.minted
            && var code := c.h.minted[MinterOf(c, claims)].code;
               && code in c.h.grants && c.h.grants[code].sessionID in c.h.logins
               && claims.expiresAt <= c.h.logins[c.h.grants[code].sessionID].at
                    + 2592000 + 60 + 604800 + 900 + 3 * d
  {
    var c := Exec(k, Initial(now), actions);
    InitialInv(k, now);
    assert Life(Initial(now), d);
    RunsKeepInv(k, Initial(now), actions);
    RunsKeepLife(k, Initial(now), actions, d);
    ReturnedOnRecord(k, c, tid, claims);
    var minter := MinterOf(c, claims);
    var code := c.h.minted[minter].code;
    MintLeadsBack(k, c, minter);
    assert MintOk(k, c, minter);
    assert AccessLife(c, claims.tokenID, d) && GrantLife(c, code, d);
  }

  /** The expiry of a refresh row is fixed when it is stored: no later step rewrites it. */
  lemma RowExpiryIsFixed(k: Primitives, c: Config, a: Action, rowID: string)
    requires k.Valid() && Inv(k, c) && Enabled(k, c, a)
    requires rowID in c.w.refreshTokens && rowID in Apply(k, c, a).w.refreshTokens
    ensures Apply(k, c, a).w.refreshTokens[rowID].(revokedAt := None) == c.w.refreshTokens[rowID].(revokedAt := None)
  {
    if a.Run? {
      RunShape(k, c, a.tid, a.oracle);
      hide Apply, Enabled, Inv, EntriesAfter, Note, Grows;
    }
  }

  // ---------------------------------------------------------------- and how long it lasts at least

  /** Claims on an access token that was being made from instant `mark` on: it expires no sooner than its
      fifteen minutes after `mark`, and no later than that after its time of issue. */
  predicate ClaimsDated(claims: Claims, mark: int, now: int) {
    mark + 900 <= claims.expiresAt <= claims.issuedAt + 900 && claims.issuedAt <= now
  }

  predicate PcDated(pc: Pc, mark: int, now: int) {
    && (pc.GrantAt? ==>
          match pc.grant
          case ReadIssued(_, _, _, expiresAt) => mark + ACCESS_TOKEN_TTL <= expiresAt <= now + ACCESS_TOKEN_TTL
          case DrawRefresh(_, _, claims) => ClaimsDated(claims, mark, now)
          case StoreRefresh(_, _, claims, _, refreshExpiresAt) =>
            ClaimsDated(claims, mark, now) && mark + REFRESH_TOKEN_TTL <= refreshExpiresAt <= now + REFRESH_TOKEN_TTL
          case _ => true)
    && (pc.RefreshAt? && pc.refresh.IssueToken? ==>
          mark + ACCESS_TOKEN_TTL <= pc.refresh.expiresAt <= now + ACCESS_TOKEN_TTL)
    && (pc.Done? && pc.outcome.Tokens? ==> ClaimsDated(pc.outcome.tokens.accessToken, mark, now))
    && (pc.Done? && pc.outcome.Refreshed? ==> ClaimsDated(pc.outcome.accessToken, mark, now))
  }

  ghost predicate Dated(c: Config) {
    && (forall tid :: tid in c.threads ==> PcDated(c.threads[tid].pc, c.threads[tid].mark, c.w.now))
    && (forall tid :: MintDated(c, tid))
  }

  ghost predicate MintDated(c: Config, tid: nat) {
    tid in c.h.minted ==>
      c.h.minted[tid].consumedAt + REFRESH_TOKEN_TTL <= c.h.minted[tid].row.expiresAt <= c.w.now + REFRESH_TOKEN_TTL
  }

  lemma StepDated(k: Primitives, w: World, t: Thread, o: Oracle)
    requires PcDated(t.pc, t.mark, w.now) && t.mark <= w.now
    ensures PcDated(Advance(k, w, t.request, t.pc, o).1, if TakesMark(t.pc) then w.now else t.mark, w.now)
  {
    hide Find, Bound, Authenticates, FirstOffence, NewClient, UserByEmail, Scopes.Join, Scopes.Fields;
    match t.pc
    case GrantAt(g) =>
    case AuthorizeAt(a) =>
    case LoginAt(l) =>
    case LogoutAt =>
    case RefreshAt(r) =>
    case RegisterAt(r) =>
    case RegisterClientAt =>
    case Done(_) =>
  }

  /** The row that a step stores expires as the request had computed. */
  lemma MintsDated(k: Primitives, c: Config, c': Config, tid: nat, o: Oracle, pc': Pc)
    requires tid in c.threads && PcDated(c.threads[tid].pc, c.threads[tid].mark, c.w.now) && c'.w.now == c.w.now
    requires c'.h.minted == NoteMinted(k, c.h.minted, tid, c.threads[tid], o, pc')
    requires forall id :: MintDated(c, id)
    ensures forall id :: MintDated(c', id)
  {
    hide HashToken;
    forall id ensures MintDated(c', id) { assert MintDated(c, id); }
  }

  lemma RunDated(k: Primitives, c: Config, tid: nat, o: Oracle)
    requires Inv(k, c) && Enabled(k, c, Run(tid, o)) && Dated(c)
    ensures Dated(Apply(k, c, Run(tid, o)))
  {
    var t, c' := c.threads[tid], Apply(k, c, Run(tid, o));
    hide Inv, ThreadOk;
    ThreadTimes(k, c, tid);
    assert PcDated(t.pc, t.mark, c.w.now);
    StepDated(k, c.w, t, o);
    RunIsAfter(k, c, tid, o);
    assert c'.h.minted == NoteMinted(k, c.h.minted, tid, t, o, c'.threads[tid].pc);
    hide Enabled, Apply, Advance, Note, PcDated, MintDated;
    MintsDated(k, c, c', tid, o, c'.threads[tid].pc);
  }

  lemma TimeKeepsDates(pc: Pc, mark: int, now: int, later: int)
    requires PcDated(pc, mark, now) && now <= later
    ensures PcDated(pc, mark, later)
  {}

  lemma ActionDated(k: Primitives, c: Config, a: Action)
    requires Inv(k, c) && Enabled(k, c, a) && Dated(c)
    ensures Dated(Apply(k, c, a))
  {
    if a.Run? {
      RunDated(k, c, a.tid, a.oracle);
    } else {
      var c' := Apply(k, c, a);
      hide Inv, PcDated;
      forall tid | tid in c.threads ensures PcDated(c.threads[tid].pc, c.threads[tid].mark, c'.w.now) {
        TimeKeepsDates(c.threads[tid].pc, c.threads[tid].mark, c.w.now, c'.w.now);
      }
      forall tid ensures MintDated(c', tid) { assert MintDated(c, tid); }
      if a.Arrive? { StartIsDated(a.request, c'.w.now); }
    }
  }

  lemma StartIsDated(request: Request, now: int)
    ensures PcDated(Start(request), now, now)
  {}

  lemma {:induction false} RunsDated(k: Primitives, c: Config, actions: seq<Action>)
    requires k.Valid() && Inv(k, c) && CanRun(k, c, actions) && Dated(c)
    ensures Dated(Exec(k, c, actions))
    decreases |actions|
  {
    hide Inv, Enabled, Apply, Dated;
    if actions != [] {
      ActionInv(k, c, actions[0]);
      ActionDated(k, c, actions[0]);
      RunsDated(k, Apply(k, c, actions[0]), actions[1..]);
    }
  }

  /** In every run, a returned access token lasts at least fifteen minutes from the instant its request
      hung on, the consumption of the code or the expiry check of the refresh token, and at most fifteen
      minutes from its time of issue; and the row that an exchange stores lasts at least seven days from
      that consumption. */
  lemma {:induction false} TokensAreDated(k: Primitives, now: int, actions: seq<Action>, tid: nat, claims: Claims)
    requires k.Valid() && CanRun(k, Initial(now), actions)
    requires Returned(Exec(k, Initial(now), actions), tid, claims)
    ensures var c := Exec(k, Initial(now), actions);
            && ClaimsDated(claims, c.threads[tid].mark, c.w.now)
            && (c.threads[tid].pc.outcome.Tokens? ==>
                  tid in c.h.minted && c.h.minted[tid].consumedAt + 604800 <= c.h.minted[tid].row.expiresAt)
  {
    var c := Exec(k, Initial(now), actions);
    InitialInv(k, now);
    ReachableInv(k, now, actions);
    RunsDated(k, Initial(now), actions);
    assert ThreadOk(k, c, tid, c.threads[tid]) && MintDated(c, tid);
    hide Inv;
  }
}
