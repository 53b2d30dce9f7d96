/** Maintenance of the tables, seen over whole runs: what a deletion or a revocation does at once, and that
    nothing which runs afterwards undoes it. */
module Maintenance {
  import opened Prelude
  import opened Entities
  import opened Crypto
  import opened Store
  import opened Tables
  import opened Protocol
  import opened Machine
  import opened Invariants
  import opened Growth
  import opened Effects
  import opened Safety
  import opened RoundTrip

  // ---------------------------------------------------------------- expired rows

  lemma {:induction false} GoneForGood(k: Primitives, c: Config, actions: seq<Action>, id: string)
    requires k.Valid() && Inv(k, c) && CanRun(k, c, actions) && id in c.h.used && id !in c.w.refreshTokens
    ensures id !in Exec(k, c, actions).w.refreshTokens
    decreases |actions|
  {
    if actions != [] {
      ActionInv(k, c, actions[0]);
      ActionGrows(k, c, actions[0]);
      GoneStaysGone(k, c, actions[0], id);
      assert id in Apply(k, c, actions[0]).h.used;
      hide Inv, Enabled, Apply, Grows;
      GoneForGood(k, Apply(k, c, actions[0]), actions[1..], id);
    }
  }

  lemma ExpiredRowGoes(k: Primitives, c: Config, minter: nat)
    requires Inv(k, c) && minter in c.h.minted && c.h.minted[minter].row.expiresAt < c.w.now
    ensures Enabled(k, c, DeleteExpired)
    ensures c.h.minted[minter].row.id !in Apply(k, c, DeleteExpired).w.refreshTokens
    ensures c.h.minted[minter].row.id in c.h.used
  {
    assert MintOk(k, c, minter);
    if c.h.minted[minter].row.id in c.w.refreshTokens { StoredRow(k, c, minter); }
    hide Inv;
  }

  /** Right after expired rows are collected exactly the unexpired ones are left. The refresh token of a row
      that had expired is not found from then on, by any request that arrives later, in any run. */
  lemma {:induction false} CollectedIsNotFound(k: Primitives, now: int, pre: seq<Action>, minter: nat,
                                               mid: seq<Action>, tid: nat, post: seq<Action>)
    requires k.Valid() && CanRun(k, Initial(now), pre)
    requires var c := Exec(k, Initial(now), pre);
             && minter in c.h.minted && c.h.minted[minter].row.expiresAt < c.w.now
             && CanRun(k, Apply(k, c, DeleteExpired), mid)
    requires var c := Exec(k, Initial(now), pre);
             var d := Exec(k, Apply(k, c, DeleteExpired), mid);
             var request := Refresh(c.h.minted[minter].response.refreshToken);
             CanRun(k, d, [Arrive(tid, request)] + post) && NoCallFails(post, tid)
    ensures var c := Exec(k, Initial(now), pre);
            var rows, rows' := c.w.refreshTokens, Apply(k, c, DeleteExpired).w.refreshTokens;
            && (forall id :: id in rows' <==> id in rows && c.w.now <= rows[id].expiresAt)
            && (forall id :: id in rows' ==> rows'[id] == rows[id])
    ensures var c := Exec(k, Initial(now), pre);
            var request := Refresh(c.h.minted[minter].response.refreshToken);
            var c' := Exec(k, Exec(k, Apply(k, c, DeleteExpired), mid), [Arrive(tid, request)] + post);
            tid in c'.threads && (c'.threads[tid].pc.Done? ==> c'.threads[tid].pc == Fail(RefreshTokenNotFound))
  {
    var c := Exec(k, Initial(now), pre);
    ReachableInv(k, now, pre);
    ExpiredRowGoes(k, c, minter);
    var d := Apply(k, c, DeleteExpired);
    ActionInv(k, c, DeleteExpired);
    assert d.h == c.h;
    hide Inv, Enabled, Apply, NoCallFails;
    GoneForGood(k, d, mid, c.h.minted[minter].row.id);
    RunsKeepInv(k, d, mid);
    RunsGrow(k, d, mid);
    assert Exec(k, d, mid).h.minted[minter] == c.h.minted[minter];
    TokenIsNotFound(k, Exec(k, d, mid), tid, minter, post);
  }

  // ---------------------------------------------------------------- revocation

  /** The row has been stored, and it is revoked as long as it is there. */
  ghost predicate RevokedIfThere(c: Config, id: string) {
    id in c.h.used && (id in c.w.refreshTokens ==> c.w.refreshTokens[id].revokedAt.Some?)
  }

  lemma RevokedStays(k: Primitives, c: Config, a: Action, id: string)
    requires Inv(k, c) && Enabled(k, c, a) && RevokedIfThere(c, id)
    ensures RevokedIfThere(Apply(k, c, a), id)
  {
    ActionGrows(k, c, a);
    assert id in Apply(k, c, a).h.used;
    if a.Run? {
      assert a.oracle.uuid !in c.h.used;
      RunShape(k, c, a.tid, a.oracle);
      hide Inv, Enabled, Apply, EntriesAfter, Note, Grows, EmailInUse, HashToken;
    }
  }

  lemma {:induction false} RevokedForGood(k: Primitives, c: Config, actions: seq<Action>, id: string)
    requires k.Valid() && Inv(k, c) && CanRun(k, c, actions) && RevokedIfThere(c, id)
    ensures RevokedIfThere(Exec(k, c, actions), id)
    decreases |actions|
  {
    if actions != [] {
      hide Inv, Enabled, Apply, RevokedIfThere;
      ActionInv(k, c, actions[0]);
      RevokedStays(k, c, actions[0], id);
      RevokedForGood(k, Apply(k, c, actions[0]), actions[1..], id);
    }
  }

  lemma RowWasDrawn(k: Primitives, c: Config, id: string)
    requires Inv(k, c) && id in c.w.refreshTokens
    ensures id in c.h.used && id in c.h.rowOwner && c.h.rowOwner[id] in c.h.minted
    ensures c.h.minted[c.h.rowOwner[id]].row == c.w.refreshTokens[id].(revokedAt := None)
  {
    assert RowOk(c, id) && OwnerOk(c, id);
  }

  /** A revocation writes its time into that row and into no other, and in every run the row stays revoked for
      as long as it is stored. */
  lemma {:induction false} RevocationIsFinal(k: Primitives, now: int, pre: seq<Action>, id: string,
                                             post: seq<Action>)
    requires k.Valid() && CanRun(k, Initial(now), pre)
    requires CanRun(k, Apply(k, Exec(k, Initial(now), pre), Revoke(id)), post)
    ensures var c := Exec(k, Initial(now), pre);
            var rows, rows' := c.w.refreshTokens, Apply(k, c, Revoke(id)).w.refreshTokens;
            && rows'.Keys == rows.Keys
            && forall row :: row in rows ==>
                 rows'[row] == if row == id then rows[row].(revokedAt := Some(c.w.now)) else rows[row]
    ensures var c := Exec(k, Initial(now), pre);
            var e := Exec(k, Apply(k, c, Revoke(id)), post);
            id in c.w.refreshTokens && id in e.w.refreshTokens ==> e.w.refreshTokens[id].revokedAt.Some?
  {
    var c := Exec(k, Initial(now), pre);
    ReachableInv(k, now, pre);
    ActionInv(k, c, Revoke(id));
    if id in c.w.refreshTokens {
      RowWasDrawn(k, c, id);
      assert RevokedIfThere(Apply(k, c, Revoke(id)), id);
      hide Inv, Enabled, Apply;
      RevokedForGood(k, Apply(k, c, Revoke(id)), post, id);
    }
  }

  lemma {:induction false} UserRowStaysRevoked(k: Primitives, c: Config, userID: string, post: seq<Action>, id: string)
    requires k.Valid() && Inv(k, c) && CanRun(k, Apply(k, c, RevokeAllForUser(userID)), post) && id in c.w.refreshTokens
    ensures var e := Exec(k, Apply(k, c, RevokeAllForUser(userID)), post);
            id in e.w.refreshTokens && e.w.refreshTokens[id].userID == userID ==>
              e.w.refreshTokens[id].revokedAt.Some?
  {
    var e := Exec(k, Apply(k, c, RevokeAllForUser(userID)), post);
    var d := Apply(k, c, RevokeAllForUser(userID));
    ActionInv(k, c, RevokeAllForUser(userID));
    RowWasDrawn(k, c, id);
    assert d.h == c.h;
    assert c.w.refreshTokens[id].userID == userID ==> RevokedIfThere(d, id);
    hide Inv, Enabled, Apply;
    RunsKeepInv(k, d, post);
    RunsGrow(k, d, post);
    if c.w.refreshTokens[id].userID == userID { RevokedForGood(k, d, post, id); }
    if id in e.w.refreshTokens { RowWasDrawn(k, e, id); }
  }

  /** Revoking all tokens of a user writes the time into the rows of that user that were not revoked, leaves
      earlier revocations and other rows alone, and in every run a row of the user that is not revoked
      afterwards was inserted afterwards. */
  lemma {:induction false} RevokingAllIsFinal(k: Primitives, now: int, pre: seq<Action>, userID: string,
                                              post: seq<Action>)
    requires k.Valid() && CanRun(k, Initial(now), pre)
    requires CanRun(k, Apply(k, Exec(k, Initial(now), pre), RevokeAllForUser(userID)), post)
    ensures var c := Exec(k, Initial(now), pre);
            var rows, rows' := c.w.refreshTokens, Apply(k, c, RevokeAllForUser(userID)).w.refreshTokens;
            && rows'.Keys == rows.Keys
            && forall row :: row in rows ==>
                 rows'[row] == if rows[row].userID == userID && rows[row].revokedAt == None
                               then rows[row].(revokedAt := Some(c.w.now)) else rows[row]
    ensures var c := Exec(k, Initial(now), pre);
            var e := Exec(k, Apply(k, c, RevokeAllForUser(userID)), post);
            forall id ::
              (id in e.w.refreshTokens && e.w.refreshTokens[id].userID == userID
               && e.w.refreshTokens[id].revokedAt == None) ==> id !in c.w.refreshTokens
  {
    var c := Exec(k, Initial(now), pre);
    ReachableInv(k, now, pre);
    var e := Exec(k, Apply(k, c, RevokeAllForUser(userID)), post);
    forall id | id in e.w.refreshTokens && e.w.refreshTokens[id].userID == userID
                && e.w.refreshTokens[id].revokedAt == None
      ensures id !in c.w.refreshTokens
    {
      if id in c.w.refreshTokens { UserRowStaysRevoked(k, c, userID, post, id); }
    }
    hide Inv, Exec, CanRun;
  }

  // ---------------------------------------------------------------- deletion of a user

  /** The request has nothing of the user in hand. */
  predicate Clean(pc: Pc, userID: string) {
    match pc
    case GrantAt(ReadExpiry(_, _, user)) => user.id != userID
    case GrantAt(ReadIssued(_, _, user, _)) => user.id != userID
    case GrantAt(DrawRefresh(_, _, claims)) => claims.userID != userID
    case GrantAt(StoreRefresh(_, _, claims, _, _)) => claims.userID != userID
    case LoginAt(DrawSession(user)) => user.id != userID
    case LoginAt(StoreSession(_, session)) => session.userID != userID
    case RefreshAt(ReadTokenExpiry(_, user)) => user.id != userID
    case RefreshAt(IssueToken(_, user, _)) => user.id != userID
    case Done(Tokens(response)) => response.accessToken.userID != userID
    case Done(Refreshed(claims, _)) => claims.userID != userID
    case _ => true
  }

  ghost predicate LoginsClean(base: Config, c: Config, userID: string) {
    forall id :: id in c.h.logins && c.h.logins[id].tid !in base.threads ==> c.h.logins[id].session.userID != userID
  }

  ghost predicate MintsClean(base: Config, c: Config, userID: string) {
    forall tid :: tid in c.h.minted && tid !in base.h.minted ==> c.h.minted[tid].row.userID != userID
  }

  ghost predicate ThreadsClean(base: Config, c: Config, userID: string) {
    && (forall tid :: tid in base.threads ==> tid in c.threads)
    && forall tid :: tid in c.threads && tid !in base.threads ==> Clean(c.threads[tid].pc, userID)
  }

  /** The user was enrolled once and is gone, and no request that is not in `base` has anything of it. */
  ghost predicate Erased(base: Config, c: Config, userID: string) {
    && userID in c.h.enrolled && userID !in c.w.users
    && ThreadsClean(base, c, userID) && LoginsClean(base, c, userID) && MintsClean(base, c, userID)
  }

  lemma StepIsClean(k: Primitives, w: World, t: Thread, o: Oracle, userID: string)
    requires Clean(t.pc, userID) && userID !in w.users && forall id :: id in w.users ==> w.users[id].id == id
    ensures Clean(Advance(k, w, t.request, t.pc, o).1, userID)
  {
    if t.request.Login? { UserByEmailFinds(w.users, t.request.email); }
    hide Find, Put, Bound, Authenticates, UserByEmail, FirstOffence, NewClient, HashToken;
    match t.pc
    case GrantAt(g) =>
    case AuthorizeAt(a) =>
    case LoginAt(l) =>
    case LogoutAt =>
    case RefreshAt(r) =>
    case RegisterAt(r) =>
    case RegisterClientAt =>
    case Done(_) =>
  }

  lemma NotBroughtBack(k: Primitives, c: Config, tid: nat, o: Oracle, userID: string)
    requires Inv(k, c) && Enabled(k, c, Run(tid, o)) && userID in c.h.enrolled && userID !in c.w.users
    ensures var c' := Apply(k, c, Run(tid, o)); userID in c'.h.enrolled && userID !in c'.w.users
  {
    var t, pc' := c.threads[tid], Stepped(k, c, tid, o).1;
    RunIsAfter(k, c, tid, o);
    RecordIsNew(k, c, tid, o, pc');
    StepUsers(k, c.w, t, o);
    assert Apply(k, c, Run(tid, o)).h.enrolled == NoteEnrolled(c.h.enrolled, tid, t, pc');
    hide Inv, Enabled, Apply, Advance, Note, EmailInUse, Consumes;
  }

  lemma StepLoginsClean(base: Config, c: Config, c': Config, tid: nat, t: Thread, pc': Pc, userID: string)
    requires LoginsClean(base, c, userID) && c'.h.logins == NoteLogins(c.h.logins, tid, t, c.w, pc')
    requires tid !in base.threads ==> Clean(t.pc, userID)
    ensures LoginsClean(base, c', userID)
  {}

  lemma StepMintsClean(k: Primitives, base: Config, c: Config, c': Config, tid: nat, t: Thread, o: Oracle, pc': Pc,
                       userID: string)
    requires MintsClean(base, c, userID) && c'.h.minted == NoteMinted(k, c.h.minted, tid, t, o, pc')
    requires Mints(t, pc') ==> MintedRow(k, t, o).userID in c.w.users
    requires userID !in c.w.users
    ensures MintsClean(base, c', userID)
  {
    hide MintedRow;
  }

  /** A step neither brings the user back nor records anything of it. */
  lemma RunErased(k: Primitives, base: Config, c: Config, tid: nat, o: Oracle, userID: string)
    requires Inv(k, c) && Enabled(k, c, Run(tid, o)) && Erased(base, c, userID)
    ensures Erased(base, Apply(k, c, Run(tid, o)), userID)
  {
    var t, c', pc' := c.threads[tid], Apply(k, c, Run(tid, o)), Stepped(k, c, tid, o).1;
    NotBroughtBack(k, c, tid, o, userID);
    RunIsAfter(k, c, tid, o);
    forall id | id in c.w.users ensures c.w.users[id].id == id { assert UserOk(c, id); }
    assert c'.threads == c.threads[tid := c'.threads[tid]] && c'.threads[tid].pc == pc';
    assert c'.h.logins == NoteLogins(c.h.logins, tid, t, c.w, pc');
    assert c'.h.minted == NoteMinted(k, c.h.minted, tid, t, o, pc');
    hide Inv, Enabled, Apply, Advance, Note, NoteLogins, NoteMinted, Clean, LoginsClean, MintsClean, Mints, EmailInUse,
         MintedRow;
    StepRows(k, c.w, t, o);
    if tid !in base.threads { StepIsClean(k, c.w, t, o, userID); }
    StepLoginsClean(base, c, c', tid, t, pc', userID);
    StepMintsClean(k, base, c, c', tid, t, o, pc', userID);
  }

  lemma ActionErased(k: Primitives, base: Config, c: Config, a: Action, userID: string)
    requires Inv(k, c) && Enabled(k, c, a) && Erased(base, c, userID)
    ensures Erased(base, Apply(k, c, a), userID)
  {
    if a.Run? {
      RunErased(k, base, c, a.tid, a.oracle, userID);
    } else {
      hide Inv;
    }
  }

  lemma {:induction false} ErasedForGood(k: Primitives, base: Config, c: Config, actions: seq<Action>, userID: string)
    requires k.Valid() && Inv(k, c) && CanRun(k, c, actions) && Erased(base, c, userID)
    ensures Erased(base, Exec(k, c, actions), userID)
    decreases |actions|
  {
    if actions != [] {
      hide Inv, Enabled, Apply, Erased;
      ActionInv(k, c, actions[0]);
      ActionErased(k, base, c, actions[0], userID);
      ErasedForGood(k, base, Apply(k, c, actions[0]), actions[1..], userID);
    }
  }

  lemma DeletionErases(k: Primitives, c: Config, userID: string)
    requires Inv(k, c) && userID in c.w.users
    ensures Enabled(k, c, DeleteUser(userID)) && Erased(c, Apply(k, c, DeleteUser(userID)), userID)
  {
    assert UserOk(c, userID);
    forall id | id in c.h.logins ensures c.h.logins[id].tid in c.threads { assert LoginOk(k, c, id); }
    hide Inv;
  }

  lemma DeletionRemoves(k: Primitives, c: Config, userID: string)
    ensures Enabled(k, c, DeleteUser(userID))
    ensures var d := Apply(k, c, DeleteUser(userID));
            && d.w.users == c.w.users - {userID}
            && (forall id :: id in d.w.refreshTokens <==>
                             id in c.w.refreshTokens && c.w.refreshTokens[id].userID != userID)
            && (forall id :: id in d.w.refreshTokens ==> d.w.refreshTokens[id] == c.w.refreshTokens[id])
  {}

  /** The deletion of a user removes that user and its rows, and nothing else; and it is final: in every run
      afterwards the user is not there, no row names it, no exchange mints for it any more, and no request
      that arrives later is given a session or a token for it. */
  lemma {:induction false} DeletionIsFinal(k: Primitives, now: int, pre: seq<Action>, userID: string,
                                           post: seq<Action>)
    requires k.Valid() && CanRun(k, Initial(now), pre)
    requires userID in Exec(k, Initial(now), pre).w.users
    requires CanRun(k, Apply(k, Exec(k, Initial(now), pre), DeleteUser(userID)), post)
    ensures var c := Exec(k, Initial(now), pre);
            var d := Apply(k, c, DeleteUser(userID));
            && d.w.users == c.w.users - {userID}
            && (forall id :: id in d.w.refreshTokens <==>
                             id in c.w.refreshTokens && c.w.refreshTokens[id].userID != userID)
            && (forall id :: id in d.w.refreshTokens ==> d.w.refreshTokens[id] == c.w.refreshTokens[id])
    ensures var c := Exec(k, Initial(now), pre);
            var e := Exec(k, Apply(k, c, DeleteUser(userID)), post);
            && userID !in e.w.users
            && (forall id :: id in e.w.refreshTokens ==> e.w.refreshTokens[id].userID != userID)
            && (forall tid :: tid in e.h.minted && tid !in c.h.minted ==> e.h.minted[tid].row.userID != userID)
            && (forall id :: id in e.h.logins && e.h.logins[id].tid !in c.threads ==>
                  e.h.logins[id].session.userID != userID)
            && (forall tid :: tid in e.threads && tid !in c.threads && e.threads[tid].pc.Done? ==>
                  var outcome := e.threads[tid].pc.outcome;
                  && (outcome.Tokens? ==> outcome.tokens.accessToken.userID != userID)
                  && (outcome.Refreshed? ==> outcome.accessToken.userID != userID))
  {
    var c := Exec(k, Initial(now), pre);
    ReachableInv(k, now, pre);
    DeletionErases(k, c, userID);
    var d := Apply(k, c, DeleteUser(userID));
    ActionInv(k, c, DeleteUser(userID));
    DeletionRemoves(k, c, userID);
    hide Enabled, Exec, CanRun, Inv, Apply;
    ErasedForGood(k, c, d, post, userID);
    RunsKeepInv(k, d, post);
    var e := Exec(k, d, post);
    NothingIsLeft(k, c, e, userID);
  }

  lemma NothingIsLeft(k: Primitives, base: Config, c: Config, userID: string)
    requires Inv(k, c) && Erased(base, c, userID)
    ensures forall id :: id in c.w.refreshTokens ==> c.w.refreshTokens[id].userID != userID
    ensures forall tid :: tid in c.threads && tid !in base.threads && c.threads[tid].pc.Done? ==>
              var outcome := c.threads[tid].pc.outcome;
              && (outcome.Tokens? ==> outcome.tokens.accessToken.userID != userID)
              && (outcome.Refreshed? ==> outcome.accessToken.userID != userID)
  {
    forall id | id in c.w.refreshTokens ensures c.w.refreshTokens[id].userID != userID { RowHasUser(k, c, id); }
    forall tid | tid in c.threads && tid !in base.threads && c.threads[tid].pc.Done?
      ensures Clean(c.threads[tid].pc, userID)
    {}
    hide Inv;
  }

  lemma RowHasUser(k: Primitives, c: Config, id: string)
    requires Inv(k, c) && id in c.w.refreshTokens
    ensures c.w.refreshTokens[id].userID in c.w.users
  {
    assert RowOk(c, id);
  }
}
