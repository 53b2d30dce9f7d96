/** What one endpoint hands out, the next one accepts: who registers can log in, a session buys a code, a
    code buys tokens, and the refresh token among them buys another access token for the same user,
    client and scope. All of it holds while any number of other requests, the clock and maintenance
    interleave with the steps of the request; what they can spoil is said exactly. */
module RoundTrip {
  import opened Prelude
  import opened Entities
  import opened Crypto
  import opened Store
  import opened Tables
  import opened Protocol
  import opened Machine
  import opened Answers
  import opened Invariants
  import opened Growth
  import opened Preservation
  import opened Effects
  import opened Safety
  import opened SessionEnd
  import opened Sightings
  import opened Decision
  import opened Lifetime
  import opened Outcomes
  import Base64Url
  import Conservation
  import Scopes

  // ---------------------------------------------------------------- what can be spoiled

  /** What a request comes with: the refresh token that exchange `minter` returned, a code that was issued
      for what it presents, or the id of a stored session. */
  datatype Voucher =
    | TokenOf(minter: nat)
    | CodeFor(code: string)
    | SessionOf(id: string)

  /** The request presents the voucher, and everything about it that cannot change is in order. */
  ghost predicate Presents(k: Primitives, c: Config, request: Request, v: Voucher) {
    match v
    case TokenOf(minter) =>
      minter in c.h.minted && request == Refresh(c.h.minted[minter].response.refreshToken)
    case CodeFor(code) =>
      && request.Exchange? && request.token.code == code && Implemented(request)
      && code in c.h.grants && Bound(k, request.token, c.h.grants[code].data)
      && request.token.clientID in c.w.clients
      && Authenticates(k, c.w.clients[request.token.clientID], request.token.clientSecret)
    case SessionOf(id) =>
      && request.Authorize? && request.sessionID == id && id in c.h.logins
      && Trusted(c.w.clients, request.authorize) && ScopeGranted(c.w.clients, request.authorize)
      && !PromptConflict(request.authorize)
  }

  /** What the step at `pc` needs of the things that can change. A refresh: its row stored at the lookup,
      not past its expiry at the check, and the user there when it is read. An exchange: the code unspent
      and within its minute when it is consumed, and the user there when it is read and when the row is
      stored. An authorization: the session served at the lookup. */
  ghost predicate Valuable(c: Config, pc: Pc, v: Voucher) {
    match v
    case TokenOf(minter) =>
      pc.RefreshAt? && minter in c.h.minted ==>
        var row := c.h.minted[minter].row;
        && (pc.refresh.FindRow? ==> row.id in c.w.refreshTokens)
        && (pc.refresh.CheckExpiry? ==> c.w.now <= row.expiresAt)
        && (pc.refresh.FindOwner? ==> row.userID in c.w.users)
    case CodeFor(code) =>
      pc.GrantAt? && code in c.h.grants ==>
        && (pc.grant.ConsumeCode? ==> CodeUsable(c, code))
        && (pc.grant.FindUser? || pc.grant.StoreRefresh? ==> c.h.grants[code].data.userID in c.w.users)
    case SessionOf(id) =>
      pc.AuthorizeAt? && pc.authorize.FindSession? ==> Serves(c.w, id)
  }

  /** The voucher is good at each step of request `tid`, when that step is taken. */
  ghost predicate GoodWhenUsed(k: Primitives, c: Config, actions: seq<Action>, tid: nat, v: Voucher)
    requires CanRun(k, c, actions)
    decreases |actions|
  {
    actions == [] ||
    ((actions[0].Run? && actions[0].tid == tid ==> Valuable(c, c.threads[tid].pc, v))
     && GoodWhenUsed(k, Apply(k, c, actions[0]), actions[1..], tid, v))
  }

  lemma PresentsGrows(k: Primitives, c: Config, c': Config, request: Request, v: Voucher)
    requires Grows(c, c') && Presents(k, c, request, v)
    ensures Presents(k, c', request, v)
  {
    hide Bound, Authenticates, Scopes.Fields, PromptConflict;
  }

  /** The row that a refresh has found is the one of its token. */
  lemma RowIsThatOfToken(k: Primitives, c: Config, row: RefreshToken, minter: nat)
    requires Inv(k, c) && RowKnown(c, row) && minter in c.h.minted
    requires row.tokenHash == HashToken(k, c.h.minted[minter].response.refreshToken)
    ensures row.(revokedAt := None) == c.h.minted[minter].row
  {
    assert MintOk(k, c, minter) && MintOk(k, c, c.h.rowOwner[row.id]);
    hide Stable, HashToken;
  }

  lemma TokenHasRow(k: Primitives, c: Config, minter: nat)
    requires Inv(k, c) && minter in c.h.minted
    ensures HasRow(k, c.w.refreshTokens, c.h.minted[minter].response.refreshToken) <==>
            c.h.minted[minter].row.id in c.w.refreshTokens
  {
    var m := c.h.minted[minter];
    assert MintOk(k, c, minter);
    if m.row.id in c.w.refreshTokens { assert RowOk(c, m.row.id); }
    if HasRow(k, c.w.refreshTokens, m.response.refreshToken) {
      var id :| id in c.w.refreshTokens && c.w.refreshTokens[id].tokenHash == HashToken(k, m.response.refreshToken);
      assert RowOk(c, id);
      RowIsThatOfToken(k, c, c.w.refreshTokens[id], minter);
    }
    hide Stable, HashToken;
  }

  lemma TokenConditions(k: Primitives, c: Config, tid: nat, minter: nat)
    requires Inv(k, c) && tid in c.threads && Presents(k, c, c.threads[tid].request, TokenOf(minter))
    ensures Condition(k, c, c.threads[tid]) <==> Valuable(c, c.threads[tid].pc, TokenOf(minter))
  {
    var t := c.threads[tid];
    TokenHasRow(k, c, minter);
    assert ThreadOk(k, c, tid, t);
    if t.pc.RefreshAt? && (t.pc.refresh.CheckExpiry? || t.pc.refresh.FindOwner?) {
      RowIsThatOfToken(k, c, t.pc.refresh.row, minter);
    }
    hide Inv, HashToken, HasRow, RowKnown;
  }

  lemma CodeConditions(k: Primitives, c: Config, tid: nat, code: string)
    requires Inv(k, c) && tid in c.threads && Presents(k, c, c.threads[tid].request, CodeFor(code))
    ensures Condition(k, c, c.threads[tid]) <==> Valuable(c, c.threads[tid].pc, CodeFor(code))
  {
    assert ThreadOk(k, c, tid, c.threads[tid]);
    hide Inv, Bound, Authenticates, CodeUsable;
  }

  /** The general conditions, for a request that presents a voucher, are that the voucher is good. */
  lemma ConditionIsValue(k: Primitives, c: Config, tid: nat, v: Voucher)
    requires Inv(k, c) && tid in c.threads && Presents(k, c, c.threads[tid].request, v)
    ensures Condition(k, c, c.threads[tid]) <==> Valuable(c, c.threads[tid].pc, v)
  {
    match v
    case TokenOf(minter) => TokenConditions(k, c, tid, minter);
    case CodeFor(code) => CodeConditions(k, c, tid, code);
    case SessionOf(id) => hide Inv, Serves, Trusted, ScopeGranted, PromptConflict;
  }

  lemma {:induction false} MetIsGood(k: Primitives, c: Config, actions: seq<Action>, tid: nat, v: Voucher)
    requires k.Valid() && Inv(k, c) && CanRun(k, c, actions)
    requires tid in c.threads && Presents(k, c, c.threads[tid].request, v)
    ensures Met(k, c, actions, tid) <==> GoodWhenUsed(k, c, actions, tid, v)
    decreases |actions|
  {
    if actions != [] {
      var c1 := Apply(k, c, actions[0]);
      ActionGrows(k, c, actions[0]);
      ActionInv(k, c, actions[0]);
      assert tid in c1.threads && c1.threads[tid].request == c.threads[tid].request;
      hide Inv, Enabled, Apply, Grows, Condition, Valuable, Presents;
      PresentsGrows(k, c, c1, c.threads[tid].request, v);
      ConditionIsValue(k, c, tid, v);
      MetIsGood(k, c1, actions[1..], tid, v);
    }
  }

  /** In every run and under any interleaving: a request that presents a voucher, once answered and with no
      call of its own failing, succeeds exactly if the voucher is good each time it is used. */
  lemma {:induction false} VoucherDecides(k: Primitives, now: int, pre: seq<Action>, tid: nat, request: Request,
                                          post: seq<Action>, v: Voucher)
    requires k.Valid() && CanRun(k, Initial(now), pre)
    requires var c := Exec(k, Initial(now), pre);
             && CanRun(k, c, [Arrive(tid, request)] + post) && NoCallFails(post, tid)
             && Presents(k, c, request, v)
    ensures var c := Exec(k, Initial(now), pre);
            var c' := Exec(k, c, [Arrive(tid, request)] + post);
            && tid in c'.threads && c'.threads[tid].request == request && Answered(c'.threads[tid])
            && (c'.threads[tid].pc.Done? ==>
                  (Succeeded(c'.threads[tid].pc.outcome) <==>
                   GoodWhenUsed(k, c, [Arrive(tid, request)] + post, tid, v)))
  {
    var c := Exec(k, Initial(now), pre);
    var c1 := Apply(k, c, Arrive(tid, request));
    ReachableInv(k, now, pre);
    SucceedsExactly(k, now, pre, tid, request, post);
    ArrivalUnfolds(k, c, tid, request, post);
    ActionInv(k, c, Arrive(tid, request));
    ActionGrows(k, c, Arrive(tid, request));
    assert c1.threads[tid].request == request;
    assert Implemented(request);
    hide Inv, Presents, Enabled, Apply, Valuable, Grows, Succeeded, Answered, NoCallFails, Implemented;
    PresentsGrows(k, c, c1, request, v);
    MetIsGood(k, c1, post, tid, v);
    GoodFromArrival(k, c, tid, request, post, v);
  }

  lemma {:induction false} GoodFromArrival(k: Primitives, c: Config, tid: nat, request: Request, post: seq<Action>,
                                           v: Voucher)
    requires CanRun(k, c, [Arrive(tid, request)] + post) && Enabled(k, c, Arrive(tid, request))
    requires CanRun(k, Apply(k, c, Arrive(tid, request)), post)
    ensures GoodWhenUsed(k, c, [Arrive(tid, request)] + post, tid, v) <==>
            GoodWhenUsed(k, Apply(k, c, Arrive(tid, request)), post, tid, v)
  {
    var actions := [Arrive(tid, request)] + post;
    assert actions[0] == Arrive(tid, request) && actions[1..] == post;
  }

  // ---------------------------------------------------------------- when nobody spoils it

  lemma ActionKeepsUser(k: Primitives, c: Config, a: Action, userID: string)
    requires Inv(k, c) && Enabled(k, c, a) && userID in c.w.users && a != DeleteUser(userID)
    ensures userID in Apply(k, c, a).w.users && Apply(k, c, a).w.users[userID] == c.w.users[userID]
  {
    if a.Run? {
      RunShape(k, c, a.tid, a.oracle);
      hide Inv, Enabled, Apply, EntriesAfter, Note, Grows, EmailInUse;
    }
  }

  /** The row of a token lasts until it expires, unless its user is deleted. */
  lemma ActionKeepsRow(k: Primitives, c: Config, a: Action, id: string)
    requires Inv(k, c) && Enabled(k, c, a) && id in c.w.refreshTokens && c.w.now <= c.w.refreshTokens[id].expiresAt
    requires a != DeleteUser(c.w.refreshTokens[id].userID)
    ensures id in Apply(k, c, a).w.refreshTokens
  {
    if a.Run? {
      RunShape(k, c, a.tid, a.oracle);
      hide Inv, Enabled, Apply, EntriesAfter, Note, Grows, EmailInUse;
    }
  }

  lemma StoredRow(k: Primitives, c: Config, minter: nat)
    requires Inv(k, c) && minter in c.h.minted && c.h.minted[minter].row.id in c.w.refreshTokens
    ensures var row := c.h.minted[minter].row;
            && c.w.refreshTokens[row.id].(revokedAt := None) == row && row.userID in c.w.users
  {
    assert MintOk(k, c, minter) && RowOk(c, c.h.minted[minter].row.id);
  }

  lemma {:induction false} TokenLasts(k: Primitives, c: Config, actions: seq<Action>, tid: nat, minter: nat)
    requires k.Valid() && Inv(k, c) && CanRun(k, c, actions) && minter in c.h.minted
    requires c.h.minted[minter].row.id in c.w.refreshTokens
    requires DeleteUser(c.h.minted[minter].row.userID) !in actions
    requires Exec(k, c, actions).w.now <= c.h.minted[minter].row.expiresAt
    ensures GoodWhenUsed(k, c, actions, tid, TokenOf(minter))
    decreases |actions|
  {
    if actions != [] {
      var a, c1 := actions[0], Apply(k, c, actions[0]);
      StoredRow(k, c, minter);
      ActionGrows(k, c, a);
      ActionInv(k, c, a);
      RunsGrow(k, c, actions);
      assert c1.h.minted[minter] == c.h.minted[minter];
      assert forall b :: b in actions[1..] ==> b in actions;
      hide Inv, Enabled, Apply, Grows;
      ActionKeepsRow(k, c, a, c.h.minted[minter].row.id);
      TokenLasts(k, c1, actions[1..], tid, minter);
    }
  }

  /** By `end` nobody but request `tid` has taken the code, its minute is not over, and its user is there. */
  ghost predicate Unspoiled(c: Config, end: Config, tid: nat, code: string) {
    && Grows(c, end) && tid in c.threads && code in c.h.grants
    && c.h.grants[code].data.userID in c.w.users
    && (code in end.h.spent ==> end.h.spent[code] == tid)
    && end.w.now <= c.h.grants[code].at + 60
  }

  lemma UnspoiledIsValuable(k: Primitives, c: Config, end: Config, tid: nat, code: string)
    requires Inv(k, c) && Unspoiled(c, end, tid, code)
    ensures Valuable(c, c.threads[tid].pc, CodeFor(code))
  {
    assert SpentOk(c, code);
    hide Stable;
  }

  lemma UnspoiledStays(k: Primitives, c: Config, a: Action, end: Config, tid: nat, code: string)
    requires Inv(k, c) && Enabled(k, c, a) && Unspoiled(c, end, tid, code) && Grows(Apply(k, c, a), end)
    requires a != DeleteUser(c.h.grants[code].data.userID)
    ensures Unspoiled(Apply(k, c, a), end, tid, code)
    ensures Apply(k, c, a).h.grants[code] == c.h.grants[code]
  {
    ActionGrows(k, c, a);
    ActionKeepsUser(k, c, a, c.h.grants[code].data.userID);
    hide Inv, Enabled, Apply;
  }

  lemma {:induction false} CodeLasts(k: Primitives, c: Config, actions: seq<Action>, tid: nat, code: string)
    requires k.Valid() && Inv(k, c) && CanRun(k, c, actions) && Unspoiled(c, Exec(k, c, actions), tid, code)
    requires DeleteUser(c.h.grants[code].data.userID) !in actions
    ensures GoodWhenUsed(k, c, actions, tid, CodeFor(code))
    decreases |actions|
  {
    if actions != [] {
      var a, c1, end := actions[0], Apply(k, c, actions[0]), Exec(k, c, actions);
      assert forall b :: b in actions[1..] ==> b in actions;
      hide Inv, Enabled, Apply, Grows, Valuable;
      ActionInv(k, c, a);
      RunsGrow(k, c1, actions[1..]);
      UnspoiledIsValuable(k, c, end, tid, code);
      UnspoiledStays(k, c, a, end, tid, code);
      hide Unspoiled;
      CodeLasts(k, c1, actions[1..], tid, code);
    }
  }

  lemma SessionStillServed(k: Primitives, c: Config, id: string)
    requires Inv(k, c) && id in c.h.logins && id != "" && !Ended(c, id)
    ensures Serves(c.w, id)
  {
    FoundSession(k, c, id);
    hide Inv;
  }

  lemma {:induction false} SessionLasts(k: Primitives, c: Config, actions: seq<Action>, tid: nat, id: string)
    requires k.Valid() && Inv(k, c) && CanRun(k, c, actions) && id in c.h.logins && id != ""
    requires !Ended(Exec(k, c, actions), id)
    ensures GoodWhenUsed(k, c, actions, tid, SessionOf(id))
    decreases |actions|
  {
    if actions != [] {
      var a, c1 := actions[0], Apply(k, c, actions[0]);
      ActionGrows(k, c, a);
      ActionInv(k, c, a);
      assert id in c1.h.logins;
      hide Inv, Enabled, Apply, Grows, Ended, Serves, NoneServedSince;
      if Ended(c, id) {
        BaseServesNobody(k, c, id);
        EndedForGood(k, c, c, actions, id);
      }
      SessionStillServed(k, c, id);
      SessionLasts(k, c1, actions[1..], tid, id);
    }
  }

  // ---------------------------------------------------------------- registration to login

  /** The stored hash accepts the password that was registered. */
  ghost predicate PasswordKept(k: Primitives, t: Thread) {
    t.request.Register? ==>
      && (t.pc.RegisterAt? && t.pc.register.StoreUser? ==>
            k.matches(t.pc.register.user.passwordHash, t.request.password))
      && (t.pc.Done? && t.pc.outcome.Registered? ==> k.matches(t.pc.outcome.user.passwordHash, t.request.password))
  }

  ghost predicate PasswordsKept(k: Primitives, c: Config) {
    forall tid :: tid in c.threads ==> PasswordKept(k, c.threads[tid])
  }

  lemma StepKeepsPassword(k: Primitives, c: Config, tid: nat, o: Oracle)
    requires k.Valid() && Enabled(k, c, Run(tid, o)) && PasswordKept(k, c.threads[tid])
    ensures PasswordKept(k, Apply(k, c, Run(tid, o)).threads[tid])
  {
    RunIsAfter(k, c, tid, o);
    hide Enabled, Apply, Note, GrantStep, AuthorizeStep, RefreshStep, UserByEmail;
  }

  lemma ActionKeepsPasswords(k: Primitives, c: Config, a: Action)
    requires k.Valid() && Enabled(k, c, a) && PasswordsKept(k, c)
    ensures PasswordsKept(k, Apply(k, c, a))
  {
    if a.Run? {
      StepKeepsPassword(k, c, a.tid, a.oracle);
      RunIsAfter(k, c, a.tid, a.oracle);
      hide Enabled, Apply, Advance, Note, PasswordKept;
    }
  }

  lemma {:induction false} RunsKeepPasswords(k: Primitives, c: Config, actions: seq<Action>)
    requires k.Valid() && CanRun(k, c, actions) && PasswordsKept(k, c)
    ensures PasswordsKept(k, Exec(k, c, actions))
    decreases |actions|
  {
    hide Enabled, Apply, PasswordsKept;
    if actions != [] {
      ActionKeepsPasswords(k, c, actions[0]);
      RunsKeepPasswords(k, Apply(k, c, actions[0]), actions[1..]);
    }
  }

  /** A login that has got past the lookup is one of user `u`. */
  ghost predicate LoginFor(c: Config, pc: Pc, u: User) {
    && (pc.LoginAt? && pc.login.DrawSession? ==> pc.login.user == u)
    && (pc.LoginAt? && pc.login.StoreSession? ==> pc.login.session.userID == u.id)
    && (pc.LoginAt? && pc.login.ReadCookieExpiry? ==> SessionIsOf(c, pc.login.id, u))
    && (pc.Done? && pc.outcome.LoggedIn? ==> SessionIsOf(c, pc.outcome.sessionID, u))
  }

  ghost predicate SessionIsOf(c: Config, id: string, u: User) {
    id in c.h.logins && c.h.logins[id].session.userID == u.id
  }

  /** Where a login of `u` can go from `pc`. */
  predicate LoginMove(pc: Pc, pc': Pc, u: User) {
    || pc' == pc || (pc'.Done? && pc'.outcome.Failed?)
    || (pc.LoginAt? && match pc.login
                       case CheckPassword => pc' == LoginAt(DrawSession(u))
                       case DrawSession(_) =>
                         pc'.LoginAt? && pc'.login.StoreSession? && pc'.login.session.userID == pc.login.user.id
                       case StoreSession(id, _) => pc' == LoginAt(ReadCookieExpiry(id))
                       case ReadCookieExpiry(id) =>
                         pc'.Done? && pc'.outcome.LoggedIn? && pc'.outcome.sessionID == id)
  }

  lemma LoginMoves(k: Primitives, w: World, t: Thread, o: Oracle, u: User)
    requires t.request.Login? && UserByEmail(w.users, t.request.email) == Some(u)
    ensures LoginMove(t.pc, Advance(k, w, t.request, t.pc, o).1, u)
  {
    hide UserByEmail, Put;
  }

  lemma LoginMovesFor(c: Config, c': Config, tid: nat, t: Thread, w: World, pc': Pc, u: User)
    requires LoginFor(c, t.pc, u) && LoginMove(t.pc, pc', u) && Extends(c.h.logins, c'.h.logins)
    requires c'.h.logins == NoteLogins(c.h.logins, tid, t, w, pc')
    ensures LoginFor(c', pc', u)
  {}

  lemma LoginStepFor(k: Primitives, c: Config, tid: nat, o: Oracle, u: User)
    requires Inv(k, c) && Enabled(k, c, Run(tid, o)) && c.threads[tid].request.Login?
    requires u.id in c.w.users && c.w.users[u.id] == u && u.email == c.threads[tid].request.email
    requires LoginFor(c, c.threads[tid].pc, u)
    ensures LoginFor(Apply(k, c, Run(tid, o)), Apply(k, c, Run(tid, o)).threads[tid].pc, u)
  {
    var t, c' := c.threads[tid], Apply(k, c, Run(tid, o));
    UserByEmailFinds(c.w.users, u.email);
    RunGrows(k, c, tid, o);
    RunIsAfter(k, c, tid, o);
    hide Inv, Enabled, Apply, UserByEmail, Advance, LoginFor, LoginMove, NoteLogins, NoteGrants, NoteSpent, NoteMinted;
    LoginMoves(k, c.w, t, o, u);
    LoginMovesFor(c, c', tid, t, c.w, c'.threads[tid].pc, u);
  }

  /** The login of `u` is on its way, and `u` is there. */
  ghost predicate LoginOf(k: Primitives, c: Config, tid: nat, u: User) {
    && tid in c.threads && c.threads[tid].request.Login?
    && u.id in c.w.users && c.w.users[u.id] == u
    && u.email == c.threads[tid].request.email && k.matches(u.passwordHash, c.threads[tid].request.password)
    && LoginFor(c, c.threads[tid].pc, u)
  }

  lemma LoginOfStays(k: Primitives, c: Config, a: Action, tid: nat, u: User)
    requires Inv(k, c) && Enabled(k, c, a) && LoginOf(k, c, tid, u) && a != DeleteUser(u.id)
    ensures LoginOf(k, Apply(k, c, a), tid, u)
  {
    var c1 := Apply(k, c, a);
    ActionGrows(k, c, a);
    ActionKeepsUser(k, c, a, u.id);
    assert Extends(c.h.logins, c1.h.logins);
    hide Inv, Enabled, Apply;
    if a.Run? && a.tid == tid {
      hide LoginFor;
      LoginStepFor(k, c, tid, a.oracle, u);
    } else {
      OtherStepsLeaveIt(k, c, a, tid);
    }
  }

  lemma LoginIsMet(k: Primitives, c: Config, tid: nat, u: User)
    requires LoginOf(k, c, tid, u) && Fits(c.threads[tid].request, c.threads[tid].pc)
    ensures Condition(k, c, c.threads[tid])
  {}

  lemma {:induction false} LoginStaysFor(k: Primitives, c: Config, actions: seq<Action>, tid: nat, u: User)
    requires k.Valid() && Inv(k, c) && CanRun(k, c, actions) && LoginOf(k, c, tid, u)
    requires DeleteUser(u.id) !in actions
    ensures LoginOf(k, Exec(k, c, actions), tid, u) && Met(k, c, actions, tid)
    decreases |actions|
  {
    if actions != [] {
      assert forall b :: b in actions[1..] ==> b in actions;
      LoginIsMet(k, c, tid, u);
      hide Inv, Enabled, Apply, Condition, LoginOf;
      ActionInv(k, c, actions[0]);
      LoginOfStays(k, c, actions[0], tid, u);
      LoginStaysFor(k, Apply(k, c, actions[0]), actions[1..], tid, u);
    }
  }

  /** With unique emails the lookup finds exactly the user that was registered. */
  lemma RegisteredIsFound(k: Primitives, c: Config, who: nat)
    requires Inv(k, c) && who in c.threads && c.threads[who].request.Register?
    requires c.threads[who].pc.Done? && c.threads[who].pc.outcome.Registered?
    ensures var user := c.threads[who].pc.outcome.user;
            && user.email == c.threads[who].request.email
            && (user.id in c.w.users ==> c.w.users[user.id] == user)
  {
    var user := c.threads[who].pc.outcome.user;
    assert ThreadOk(k, c, who, c.threads[who]);
    assert UserOk(c, user.id) && EnrolOk(c, user.id);
    hide Stable;
  }

  /** In every run and under any interleaving: a login with the email and password of a finished
      registration, once answered and with no call of its own failing, succeeds exactly if an account with
      them is stored at its lookup, and otherwise gets the one error for a wrong email or password. If that
      user was there when the login arrived and nobody has deleted it, the login succeeds and the session
      is that user's. */
  lemma {:induction false} RegisteredUserLogsIn(k: Primitives, now: int, pre: seq<Action>, who: nat, tid: nat,
                                                post: seq<Action>)
    requires k.Valid() && CanRun(k, Initial(now), pre)
    requires var c := Exec(k, Initial(now), pre);
             && who in c.threads && c.threads[who].request.Register?
             && c.threads[who].pc.Done? && c.threads[who].pc.outcome.Registered?
             && CanRun(k, c, [Arrive(tid, Login(c.threads[who].request.email, c.threads[who].request.password))] + post)
             && NoCallFails(post, tid)
    ensures var c := Exec(k, Initial(now), pre);
            var request, u := Login(c.threads[who].request.email, c.threads[who].request.password),
                c.threads[who].pc.outcome.user;
            var c' := Exec(k, c, [Arrive(tid, request)] + post);
            && tid in c'.threads
            && (c'.threads[tid].pc.Done? ==>
                  var outcome := c'.threads[tid].pc.outcome;
                  && (outcome.LoggedIn? <==> Met(k, c, [Arrive(tid, request)] + post, tid))
                  && (!outcome.LoggedIn? ==> outcome == Failed(EmailOrPasswordWrong))
                  && (u.id in c.w.users && DeleteUser(u.id) !in post ==>
                        outcome.LoggedIn? && SessionIsOf(c', outcome.sessionID, u)))
  {
    var c := Exec(k, Initial(now), pre);
    ReachableInv(k, now, pre);
    assert PasswordsKept(k, Initial(now));
    RunsKeepPasswords(k, Initial(now), pre);
    assert PasswordKept(k, c.threads[who]);
    var request, u := Login(c.threads[who].request.email, c.threads[who].request.password),
        c.threads[who].pc.outcome.user;
    SucceedsExactly(k, now, pre, tid, request, post);
    if u.id in c.w.users && DeleteUser(u.id) !in post {
      RegisteredIsFound(k, c, who);
      ArrivalUnfolds(k, c, tid, request, post);
      ActionInv(k, c, Arrive(tid, request));
      hide Inv, Enabled, FirstRefusal, PasswordsKept, NoCallFails;
      LoginStaysFor(k, Apply(k, c, Arrive(tid, request)), post, tid, u);
    }
    LoginsAreRefused(k, c, tid, request, post);
    hide Inv, Enabled, Apply, FirstRefusal, PasswordsKept, NoCallFails, SessionIsOf;
  }

  // ---------------------------------------------------------------- session to code

  lemma CodeIsFor(k: Primitives, c: Config, tid: nat)
    requires Inv(k, c) && tid in c.threads && c.threads[tid].request.Authorize?
    requires c.threads[tid].pc.Done? && c.threads[tid].pc.outcome.Authorized?
    requires c.threads[tid].pc.outcome.decision.action == IssueCode
    ensures IssuedFor(c, c.threads[tid].request, c.threads[tid].pc.outcome.decision)
  {
    assert ThreadOk(k, c, tid, c.threads[tid]);
    assert CodeOk(c, c.threads[tid].pc.outcome.decision.code);
    hide Inv, Allowed, SessionSeen, Scopes.Fields;
  }

  /** The code was issued for exactly what the request names, and for the user of its session. */
  ghost predicate IssuedFor(c: Config, request: Request, r: AuthorizeResult)
    requires request.Authorize?
  {
    && r.code in c.h.grants && request.sessionID in c.h.logins
    && var data, req := c.h.grants[r.code].data, request.authorize;
    && data.clientID == req.clientID && data.redirectURI == req.redirectURI && r.redirectURI == req.redirectURI
    && data.scope == Scopes.Fields(req.scope) && data.nonce == req.nonce
    && data.challenge == req.challenge && data.challengeMethod == req.challengeMethod
    && data.userID == c.h.logins[request.sessionID].session.userID
  }

  /** A request that passes the first checks either goes on, is given a code, or is sent to log in. */
  predicate CodeOrLogin(pc: Pc) {
    pc.AuthorizeAt? ||
    (pc.Done? && pc.outcome.Authorized?
     && (pc.outcome.decision.action == IssueCode || AsksForLogin(pc.outcome.decision)))
  }

  lemma StepOnTrack(k: Primitives, c: Config, tid: nat, o: Oracle, id: string)
    requires Inv(k, c) && tid in c.threads && !o.fail && CodeOrLogin(c.threads[tid].pc)
    requires Presents(k, c, c.threads[tid].request, SessionOf(id))
    ensures CodeOrLogin(Stepped(k, c, tid, o).1)
  {
    var t := c.threads[tid];
    if t.pc.AuthorizeAt? {
      var req := t.request.authorize;
      if Find(c.w.entries, SessionKey(id), c.w.now).Some? { FoundSession(k, c, id); }
      LookupRejects(c.w, req, id, o);
      LookupShows(c.w, req, id, t.pc.authorize, o);
      hide Inv, Find, SessionKey, AuthorizeStep, Trusted, ScopeGranted, PromptConflict, AsksForLogin;
    }
  }

  lemma {:induction false} StaysOnTrack(k: Primitives, c: Config, actions: seq<Action>, tid: nat, id: string)
    requires k.Valid() && Inv(k, c) && CanRun(k, c, actions) && NoCallFails(actions, tid)
    requires tid in c.threads && CodeOrLogin(c.threads[tid].pc) && Presents(k, c, c.threads[tid].request, SessionOf(id))
    ensures tid in Exec(k, c, actions).threads && CodeOrLogin(Exec(k, c, actions).threads[tid].pc)
    decreases |actions|
  {
    if actions != [] {
      var a, c1 := actions[0], Apply(k, c, actions[0]);
      RestCallsSucceed(actions, tid);
      ActionGrows(k, c, a);
      ActionInv(k, c, a);
      assert tid in c1.threads && c1.threads[tid].request == c.threads[tid].request;
      PresentsGrows(k, c, c1, c.threads[tid].request, SessionOf(id));
      if a.Run? && a.tid == tid {
        RunIsAfter(k, c, tid, a.oracle);
        hide Inv, Enabled, Apply, Grows, Presents, NoCallFails, Advance, Note, CodeOrLogin;
        StepOnTrack(k, c, tid, a.oracle, id);
        StaysOnTrack(k, c1, actions[1..], tid, id);
      } else {
        OtherStepsLeaveIt(k, c, a, tid);
        hide Inv, Enabled, Apply, Grows, Presents, NoCallFails, CodeOrLogin;
        StaysOnTrack(k, c1, actions[1..], tid, id);
      }
    }
  }

  lemma {:induction false} AuthorizationOnTrack(k: Primitives, c: Config, tid: nat, req: AuthorizeRequest, id: string,
                                                post: seq<Action>)
    requires k.Valid() && Inv(k, c) && CanRun(k, c, [Arrive(tid, Authorize(req, id))] + post) && NoCallFails(post, tid)
    requires Presents(k, c, Authorize(req, id), SessionOf(id))
    ensures var c' := Exec(k, c, [Arrive(tid, Authorize(req, id))] + post);
            tid in c'.threads && CodeOrLogin(c'.threads[tid].pc)
  {
    var request := Authorize(req, id);
    var c1 := Apply(k, c, Arrive(tid, request));
    ArrivalUnfolds(k, c, tid, request, post);
    ActionInv(k, c, Arrive(tid, request));
    ActionGrows(k, c, Arrive(tid, request));
    PresentsGrows(k, c, c1, request, SessionOf(id));
    assert c1.threads[tid].request == request && c1.threads[tid].pc == AuthorizeAt(LookUpClient);
    hide Inv, Enabled, Apply, Grows, Presents, NoCallFails;
    StaysOnTrack(k, c1, post, tid, id);
  }

  lemma {:induction false} StateIsEchoed(k: Primitives, now: int, pre: seq<Action>, more: seq<Action>, tid: nat)
    requires k.Valid() && CanRun(k, Initial(now), pre) && CanRun(k, Exec(k, Initial(now), pre), more)
    requires var c := Exec(k, Exec(k, Initial(now), pre), more);
             tid in c.threads && c.threads[tid].request.Authorize? && c.threads[tid].pc.Done? &&
             c.threads[tid].pc.outcome.Authorized? && c.threads[tid].pc.outcome.decision.action == IssueCode
    ensures var t := Exec(k, Exec(k, Initial(now), pre), more).threads[tid];
            t.pc.outcome.decision.state == t.request.authorize.state
  {
    RunsCompose(k, Initial(now), pre, more);
    EveryDecision(k, now, pre + more, tid);
  }

  /** In every run and under any interleaving: a request naming a registered client, redirect target and
      scope under a stored session, once answered and with no call of its own failing, is given a code
      exactly if the session is served at its lookup, and sent to log in otherwise; so in particular it is
      given one if the session has not been logged out or expired by the end. The code is for exactly that
      request and for the user of that session. */
  lemma {:induction false} SessionBuysCode(k: Primitives, now: int, pre: seq<Action>, tid: nat, req: AuthorizeRequest,
                                           id: string, post: seq<Action>)
    requires k.Valid() && CanRun(k, Initial(now), pre)
    requires var c := Exec(k, Initial(now), pre);
             && CanRun(k, c, [Arrive(tid, Authorize(req, id))] + post) && NoCallFails(post, tid)
             && id in c.h.logins && req.clientID in c.w.clients
             && var client, requested, prompts :=
                  c.w.clients[req.clientID], Scopes.Fields(req.scope), Scopes.Fields(req.prompt);
                && req.redirectURI in client.redirectURIs
                && requested != [] && (forall s :: s in requested ==> s in client.scopes)
                && ("none" in prompts ==> |prompts| == 1)
    ensures var c := Exec(k, Initial(now), pre);
            var actions := [Arrive(tid, Authorize(req, id))] + post;
            var c' := Exec(k, c, actions);
            && tid in c'.threads
            && (c'.threads[tid].pc.Done? ==>
                  var outcome := c'.threads[tid].pc.outcome;
                  && outcome.Authorized?
                  && (outcome.decision.action == IssueCode || AsksForLogin(outcome.decision))
                  && (outcome.decision.action == IssueCode <==> GoodWhenUsed(k, c, actions, tid, SessionOf(id)))
                  && (id != "" && !Ended(c', id) ==> outcome.decision.action == IssueCode)
                  && (outcome.decision.action == IssueCode ==>
                        && IssuedFor(c', Authorize(req, id), outcome.decision)
                        && c'.h.logins[id] == c.h.logins[id] && outcome.decision.state == req.state))
  {
    var c := Exec(k, Initial(now), pre);
    var request, actions := Authorize(req, id), [Arrive(tid, Authorize(req, id))] + post;
    var c' := Exec(k, c, actions);
    ReachableInv(k, now, pre);
    RunsKeepInv(k, c, actions);
    RunsGrow(k, c, actions);
    assert c'.h.logins[id] == c.h.logins[id];
    if "none" in Scopes.Fields(req.prompt) { Alone(Scopes.Fields(req.prompt)); }
    assert Presents(k, c, request, SessionOf(id));
    hide Inv, Grows, Presents, Ended, Trusted, ScopeGranted, PromptConflict, NoCallFails, Enabled, Apply, IssuedFor,
         AsksForLogin, Serves;
    VoucherDecides(k, now, pre, tid, request, post, SessionOf(id));
    if id != "" && !Ended(c', id) { SessionLasts(k, c, actions, tid, id); }
    AuthorizationOnTrack(k, c, tid, req, id, post);
    if c'.threads[tid].pc.Done? {
      if c'.threads[tid].pc.outcome.decision.action == IssueCode {
        CodeIsFor(k, c', tid);
        StateIsEchoed(k, now, pre, actions, tid);
      }
    }
  }

  // ---------------------------------------------------------------- code to tokens

  /** The client of an issued code is registered, and its scope is a list of tokens. */
  lemma GrantedFor(k: Primitives, c: Config, code: string)
    requires Inv(k, c) && code in c.h.grants
    ensures var data := c.h.grants[code].data;
            data.clientID in c.w.clients && Scopes.AllTokens(data.scope)
  {
    assert CodeOk(c, code);
    hide Inv;
  }

  /** The tokens are for the user, client and scope that the code was issued for. */
  ghost predicate TokensFor(c: Config, data: AuthCode, response: TokenResponse) {
    && response.accessToken.userID == data.userID && response.accessToken.clientID == data.clientID
    && data.userID in c.h.enrolled && response.accessToken.email == c.h.enrolled[data.userID].user.email
    && response.scope == response.accessToken.scope && Scopes.Fields(response.scope) == data.scope
    && response.tokenType == "Bearer" && response.expiresIn == 900
  }

  lemma TokensAreFor(k: Primitives, c: Config, tid: nat)
    requires Inv(k, c) && tid in c.threads && c.threads[tid].request.Exchange?
    requires c.threads[tid].pc.Done? && c.threads[tid].pc.outcome.Tokens?
    ensures var code := c.threads[tid].request.token.code;
            code in c.h.grants && TokensFor(c, c.h.grants[code].data, c.threads[tid].pc.outcome.tokens)
  {
    assert ThreadOk(k, c, tid, c.threads[tid]);
    assert MintOk(k, c, tid);
    var code := c.threads[tid].request.token.code;
    GrantedFor(k, c, code);
    Scopes.JoinThenFields(c.h.grants[code].data.scope);
    hide Inv, Scopes.Fields, Scopes.Join, Bound, HashToken;
  }

  lemma EmailOnRecord(k: Primitives, c: Config, userID: string)
    requires Inv(k, c) && userID in c.w.users
    ensures userID in c.h.enrolled && c.h.enrolled[userID].user == c.w.users[userID]
  {
    assert UserOk(c, userID);
  }

  /** Nobody has spoiled an issued code for request `tid`: by `end` its user was not deleted, nobody else
      has taken it, and its minute is not over. */
  ghost predicate LeftAlone(c: Config, end: Config, tid: nat, code: string, actions: seq<Action>)
    requires code in c.h.grants
  {
    && c.h.grants[code].data.userID in c.w.users && DeleteUser(c.h.grants[code].data.userID) !in actions
    && (code in end.h.spent ==> end.h.spent[code] == tid)
    && end.w.now <= c.h.grants[code].at + 60
  }

  lemma {:induction false} LeftAloneIsGood(k: Primitives, c: Config, tid: nat, request: Request, post: seq<Action>,
                                           code: string)
    requires k.Valid() && Inv(k, c) && CanRun(k, c, [Arrive(tid, request)] + post) && code in c.h.grants
    requires LeftAlone(c, Exec(k, c, [Arrive(tid, request)] + post), tid, code, post)
    ensures GoodWhenUsed(k, c, [Arrive(tid, request)] + post, tid, CodeFor(code))
  {
    var c1 := Apply(k, c, Arrive(tid, request));
    ArrivalUnfolds(k, c, tid, request, post);
    ActionInv(k, c, Arrive(tid, request));
    assert c1.w == c.w && c1.h == c.h && tid in c1.threads;
    hide Inv, Enabled, Apply, Grows;
    RunsGrow(k, c1, post);
    CodeLasts(k, c1, post, tid, code);
    GoodFromArrival(k, c, tid, request, post, CodeFor(code));
  }

  /** The exchange cannot end but in one of the errors: its client is registered with another secret, or its
      code was issued for something else. */
  ghost predicate TurnedAway(k: Primitives, c: Config, tid: nat, req: TokenRequest, errors: set<Error>) {
    && tid in c.threads && c.threads[tid].request == Exchange(req)
    && (if errors == {InvalidClient}
        then req.clientID in c.w.clients && !Authenticates(k, c.w.clients[req.clientID], req.clientSecret)
        else req.code in c.h.grants && !Bound(k, req, c.h.grants[req.code].data))
    && (errors == {InvalidGrant} ==>
          req.clientID in c.w.clients && Authenticates(k, c.w.clients[req.clientID], req.clientSecret))
    && errors in {{InvalidClient}, {InvalidGrant}, {InvalidClient, InvalidGrant}}
    && match c.threads[tid].pc
       case GrantAt(g) => g.FindClient? || (g.ConsumeCode? && InvalidGrant in errors)
       case Done(outcome) => outcome.Failed? && outcome.error in errors
       case _ => false
  }

  lemma TurnedAwayStep(k: Primitives, c: Config, tid: nat, o: Oracle, req: TokenRequest, errors: set<Error>)
    requires Inv(k, c) && Enabled(k, c, Run(tid, o)) && !o.fail && TurnedAway(k, c, tid, req, errors)
    ensures var pc' := Stepped(k, c, tid, o).1;
            || (pc'.GrantAt? && pc'.grant.ConsumeCode? && InvalidGrant in errors)
            || (pc'.Done? && pc'.outcome.Failed? && pc'.outcome.error in errors)
  {
    if Find(c.w.entries, CodeKey(req.code), c.w.now).Some? { FoundCode(k, c, req.code); }
    hide Inv, Enabled, Bound, Authenticates, Find, CodeKey;
  }

  lemma TurnedAwayGrows(k: Primitives, c: Config, c': Config, tid: nat, req: TokenRequest, errors: set<Error>)
    requires TurnedAway(k, c, tid, req, errors) && Grows(c, c')
    requires var pc' := c'.threads[tid].pc;
             || pc' == c.threads[tid].pc
             || (pc'.GrantAt? && pc'.grant.ConsumeCode? && InvalidGrant in errors)
             || (pc'.Done? && pc'.outcome.Failed? && pc'.outcome.error in errors)
    ensures TurnedAway(k, c', tid, req, errors)
  {
    hide Bound, Authenticates;
  }

  lemma {:induction false} TurnedAwayRuns(k: Primitives, c: Config, actions: seq<Action>, tid: nat, req: TokenRequest,
                                          errors: set<Error>)
    requires k.Valid() && Inv(k, c) && CanRun(k, c, actions) && NoCallFails(actions, tid)
    requires TurnedAway(k, c, tid, req, errors)
    ensures TurnedAway(k, Exec(k, c, actions), tid, req, errors)
    decreases |actions|
  {
    if actions != [] {
      var a, c1 := actions[0], Apply(k, c, actions[0]);
      RestCallsSucceed(actions, tid);
      ActionGrows(k, c, a);
      ActionInv(k, c, a);
      assert tid in c.threads && tid in c1.threads;
      hide Inv, Enabled, Apply, Grows, NoCallFails, TurnedAway;
      if a.Run? && a.tid == tid {
        TurnedAwayStep(k, c, tid, a.oracle, req, errors);
        RunIsAfter(k, c, tid, a.oracle);
      } else {
        OtherStepsLeaveIt(k, c, a, tid);
      }
      hide Advance, Note;
      TurnedAwayGrows(k, c, c1, tid, req, errors);
      TurnedAwayRuns(k, c1, actions[1..], tid, req, errors);
    }
  }

  lemma {:induction false} TurnedAwayFromArrival(k: Primitives, c: Config, tid: nat, req: TokenRequest,
                                                 post: seq<Action>, errors: set<Error>)
    requires k.Valid() && Inv(k, c) && CanRun(k, c, [Arrive(tid, Exchange(req))] + post) && NoCallFails(post, tid)
    requires req.grantType == GRANT_AUTHORIZATION_CODE
    requires TurnedAway(k, Apply(k, c, Arrive(tid, Exchange(req))), tid, req, errors)
    ensures var c' := Exec(k, c, [Arrive(tid, Exchange(req))] + post);
            tid in c'.threads && (c'.threads[tid].pc.Done? ==>
                                    c'.threads[tid].pc.outcome.Failed? && c'.threads[tid].pc.outcome.error in errors)
  {
    ArrivalUnfolds(k, c, tid, Exchange(req), post);
    ActionInv(k, c, Arrive(tid, Exchange(req)));
    hide Inv, Enabled, Apply, NoCallFails, Bound, Authenticates;
    TurnedAwayRuns(k, Apply(k, c, Arrive(tid, Exchange(req))), post, tid, req, errors);
  }

  /** An exchange that does not present the code as its authorization asked, or not as a client that
      authenticates, is turned away with the error for that. */
  lemma {:induction false} WrongPresentationFails(k: Primitives, c: Config, tid: nat, req: TokenRequest,
                                                  post: seq<Action>)
    requires k.Valid() && Inv(k, c) && CanRun(k, c, [Arrive(tid, Exchange(req))] + post) && NoCallFails(post, tid)
    requires req.grantType == GRANT_AUTHORIZATION_CODE && req.code in c.h.grants
    ensures var c' := Exec(k, c, [Arrive(tid, Exchange(req))] + post);
            var registered := req.clientID in c.w.clients;
            var known := registered && Authenticates(k, c.w.clients[req.clientID], req.clientSecret);
            var bound := Bound(k, req, c.h.grants[req.code].data);
            tid in c'.threads && (c'.threads[tid].pc.Done? ==>
              var outcome := c'.threads[tid].pc.outcome;
              && (registered && !known ==> outcome == Failed(InvalidClient))
              && (known && !bound ==> outcome == Failed(InvalidGrant))
              && (!bound ==> outcome == Failed(InvalidClient) || outcome == Failed(InvalidGrant)))
  {
    var c1 := Apply(k, c, Arrive(tid, Exchange(req)));
    assert c1.threads[tid].request == Exchange(req) && c1.threads[tid].pc == GrantAt(FindClient);
    assert c1.w == c.w && c1.h == c.h;
    ArrivalStays(k, c, tid, Exchange(req), post);
    hide Inv, Enabled, Apply, NoCallFails, Bound, Authenticates;
    var registered := req.clientID in c.w.clients;
    var known := registered && Authenticates(k, c.w.clients[req.clientID], req.clientSecret);
    if registered && !known {
      TurnedAwayFromArrival(k, c, tid, req, post, {InvalidClient});
    }
    if !Bound(k, req, c.h.grants[req.code].data) {
      TurnedAwayFromArrival(k, c, tid, req, post, {InvalidClient, InvalidGrant});
      if known { TurnedAwayFromArrival(k, c, tid, req, post, {InvalidGrant}); }
    }
  }

  lemma {:induction false} RightPresentationIsJudged(k: Primitives, now: int, pre: seq<Action>, tid: nat,
                                                     req: TokenRequest, post: seq<Action>)
    requires k.Valid() && CanRun(k, Initial(now), pre) && req.grantType == GRANT_AUTHORIZATION_CODE
    requires var c := Exec(k, Initial(now), pre);
             && CanRun(k, c, [Arrive(tid, Exchange(req))] + post) && NoCallFails(post, tid)
             && req.code in c.h.grants && Bound(k, req, c.h.grants[req.code].data)
             && req.clientID in c.w.clients && Authenticates(k, c.w.clients[req.clientID], req.clientSecret)
    ensures var c := Exec(k, Initial(now), pre);
            var actions := [Arrive(tid, Exchange(req))] + post;
            var c' := Exec(k, c, actions);
            && tid in c'.threads
            && (c'.threads[tid].pc.Done? ==>
                  var outcome := c'.threads[tid].pc.outcome;
                  && (outcome.Tokens? <==> GoodWhenUsed(k, c, actions, tid, CodeFor(req.code)))
                  && (LeftAlone(c, c', tid, req.code, post) ==> outcome.Tokens?))
  {
    var c := Exec(k, Initial(now), pre);
    var request, actions := Exchange(req), [Arrive(tid, Exchange(req))] + post;
    ReachableInv(k, now, pre);
    assert Presents(k, c, request, CodeFor(req.code));
    VoucherDecides(k, now, pre, tid, request, post, CodeFor(req.code));
    hide Inv, Presents, NoCallFails, Enabled, Apply, Bound, Authenticates, LeftAlone;
    if LeftAlone(c, Exec(k, c, actions), tid, req.code, post) {
      LeftAloneIsGood(k, c, tid, request, post, req.code);
    }
  }

  lemma {:induction false} BoughtTokensAreFor(k: Primitives, now: int, pre: seq<Action>, tid: nat, req: TokenRequest,
                                              post: seq<Action>)
    requires k.Valid() && CanRun(k, Initial(now), pre)
    requires var c := Exec(k, Initial(now), pre);
             && CanRun(k, c, [Arrive(tid, Exchange(req))] + post) && req.code in c.h.grants
             && var c' := Exec(k, c, [Arrive(tid, Exchange(req))] + post);
                tid in c'.threads && c'.threads[tid].request == Exchange(req) && c'.threads[tid].pc.Done?
                && c'.threads[tid].pc.outcome.Tokens?
    ensures var c := Exec(k, Initial(now), pre);
            var c', data := Exec(k, c, [Arrive(tid, Exchange(req))] + post), c.h.grants[req.code].data;
            var tokens := c'.threads[tid].pc.outcome.tokens;
            && TokensFor(c', data, tokens)
            && (data.userID in c.w.users ==> tokens.accessToken.email == c.w.users[data.userID].email)
            && ClaimsDated(tokens.accessToken, c'.threads[tid].mark, c'.w.now)
  {
    var c := Exec(k, Initial(now), pre);
    var actions := [Arrive(tid, Exchange(req))] + post;
    var c' := Exec(k, c, actions);
    ReachableInv(k, now, pre);
    RunsKeepInv(k, c, actions);
    RunsGrow(k, c, actions);
    var data := c.h.grants[req.code].data;
    assert c'.h.grants[req.code] == c.h.grants[req.code];
    if data.userID in c.w.users { EmailOnRecord(k, c, data.userID); }
    assert data.userID in c.h.enrolled ==> c'.h.enrolled[data.userID] == c.h.enrolled[data.userID];
    hide Inv, Grows, Enabled, Apply, Scopes.Fields, ClaimsDated;
    TokensAreFor(k, c', tid);
    RunsCompose(k, Initial(now), pre, actions);
    TokensAreDated(k, now, pre + actions, tid, c'.threads[tid].pc.outcome.tokens.accessToken);
  }

  /** In every run and under any interleaving, for an exchange that presents an issued code, once answered and
      with no call of its own failing. Say it presents the code rightly if it names the client and the
      redirect target of the authorization request `a` that the code was issued to, has a verifier of the
      S256 challenge of `a`, and authenticates if the client has a secret. Then it yields tokens exactly if
      the code is unspent and within its minute when it is consumed and the user is there when it is read and
      when the row is stored; so in particular if nobody spoils it. The tokens are for the code's user, client
      and scope, and last as they should. Presented in any other way the code yields no tokens: a wrong
      secret is an invalid client, and anything else that is wrong an invalid grant. */
  lemma {:induction false} IssuedCodeBuysTokens(k: Primitives, now: int, pre: seq<Action>, tid: nat, req: TokenRequest,
                                                post: seq<Action>)
    requires k.Valid() && CanRun(k, Initial(now), pre) && req.grantType == "authorization_code"
    requires var c := Exec(k, Initial(now), pre);
             && CanRun(k, c, [Arrive(tid, Exchange(req))] + post) && NoCallFails(post, tid)
             && req.code in c.h.grants
    ensures var c := Exec(k, Initial(now), pre);
            && c.h.grants[req.code].tid in c.threads && c.threads[c.h.grants[req.code].tid].request.Authorize?
            && var a := c.threads[c.h.grants[req.code].tid].request.authorize;
               var clients, actions := c.w.clients, [Arrive(tid, Exchange(req))] + post;
               var c' := Exec(k, c, actions);
               var secretIsRight := req.clientID in clients &&
                                    (clients[req.clientID].secretHash == "" ||
                                     k.matches(clients[req.clientID].secretHash, req.clientSecret));
               var requestsAgree := && req.clientID == a.clientID && req.redirectURI == a.redirectURI
                                    && a.challengeMethod == "S256"
                                    && a.challenge == Base64Url.Encode(k.sha256(req.codeVerifier));
               && a.clientID in clients && tid in c'.threads
               && (c'.threads[tid].pc.Done? ==>
                     var outcome, data := c'.threads[tid].pc.outcome, c.h.grants[req.code].data;
                     && (outcome.Tokens? <==>
                           requestsAgree && secretIsRight && GoodWhenUsed(k, c, actions, tid, CodeFor(req.code)))
                     && (requestsAgree && secretIsRight && LeftAlone(c, c', tid, req.code, post) ==> outcome.Tokens?)
                     && (req.clientID in clients && !secretIsRight ==> outcome == Failed(InvalidClient))
                     && (secretIsRight && !requestsAgree ==> outcome == Failed(InvalidGrant))
                     && (outcome.Tokens? ==>
                           && TokensFor(c', data, outcome.tokens)
                           && (data.userID in c.w.users ==>
                                 outcome.tokens.accessToken.email == c.w.users[data.userID].email)
                           && ClaimsDated(outcome.tokens.accessToken, c'.threads[tid].mark, c'.w.now)))
  {
    var c := Exec(k, Initial(now), pre);
    var actions := [Arrive(tid, Exchange(req))] + post;
    var c' := Exec(k, c, actions);
    ReachableInv(k, now, pre);
    Conservation.BoundMeansFollows(k, c, req.code, req);
    ArrivalStays(k, c, tid, Exchange(req), post);
    hide Inv, NoCallFails, Enabled, Apply, Bound, LeftAlone, ClaimsDated, TokensFor;
    WrongPresentationFails(k, c, tid, req, post);
    if req.clientID in c.w.clients && Authenticates(k, c.w.clients[req.clientID], req.clientSecret)
       && Bound(k, req, c.h.grants[req.code].data) {
      RightPresentationIsJudged(k, now, pre, tid, req, post);
    }
    if c'.threads[tid].pc.Done? && c'.threads[tid].pc.outcome.Tokens? {
      BoughtTokensAreFor(k, now, pre, tid, req, post);
    }
  }

  lemma {:induction false} ArrivalStays(k: Primitives, c: Config, tid: nat, request: Request, post: seq<Action>)
    requires k.Valid() && Inv(k, c) && CanRun(k, c, [Arrive(tid, request)] + post)
    ensures var c' := Exec(k, c, [Arrive(tid, request)] + post);
            tid in c'.threads && c'.threads[tid].request == request
  {
    ArrivalUnfolds(k, c, tid, request, post);
    ActionInv(k, c, Arrive(tid, request));
    hide Inv, Enabled, Grows;
    RunsGrow(k, Apply(k, c, Arrive(tid, request)), post);
    GrownThreadIsLater(Apply(k, c, Arrive(tid, request)), Exec(k, c, [Arrive(tid, request)] + post), tid);
  }

  lemma GrownThreadIsLater(c: Config, c': Config, tid: nat)
    requires Grows(c, c') && tid in c.threads
    ensures tid in c'.threads && c'.threads[tid].request == c.threads[tid].request
  {}

  // ---------------------------------------------------------------- refresh token to access token

  /** Once the row of a token is gone it stays gone, and a refresh that has not found it yet never will. */
  ghost predicate Hopeless(c: Config, tid: nat, minter: nat) {
    && tid in c.threads && minter in c.h.minted && c.h.minted[minter].row.id !in c.w.refreshTokens
    && c.threads[tid].request == Refresh(c.h.minted[minter].response.refreshToken)
    && (c.threads[tid].pc == RefreshAt(FindRow) || c.threads[tid].pc == Fail(RefreshTokenNotFound))
  }

  lemma GoneStaysGone(k: Primitives, c: Config, a: Action, id: string)
    requires Inv(k, c) && Enabled(k, c, a) && id in c.h.used && id !in c.w.refreshTokens
    ensures id !in Apply(k, c, a).w.refreshTokens
  {
    if a.Run? {
      assert a.oracle.uuid !in c.h.used;
      RunShape(k, c, a.tid, a.oracle);
      hide Inv, Enabled, Apply, EntriesAfter, Note, Grows, EmailInUse, HashToken;
    }
  }

  lemma HopelessStep(k: Primitives, c: Config, tid: nat, o: Oracle, minter: nat)
    requires Inv(k, c) && Enabled(k, c, Run(tid, o)) && !o.fail && Hopeless(c, tid, minter)
    ensures Stepped(k, c, tid, o).1 == Fail(RefreshTokenNotFound)
  {
    TokenHasRow(k, c, minter);
    hide Inv, HashToken;
  }

  lemma {:induction false} HopelessRefresh(k: Primitives, c: Config, actions: seq<Action>, tid: nat, minter: nat)
    requires k.Valid() && Inv(k, c) && CanRun(k, c, actions) && NoCallFails(actions, tid) && Hopeless(c, tid, minter)
    ensures Hopeless(Exec(k, c, actions), tid, minter)
    decreases |actions|
  {
    if actions != [] {
      var a, c1 := actions[0], Apply(k, c, actions[0]);
      RestCallsSucceed(actions, tid);
      ActionGrows(k, c, a);
      ActionInv(k, c, a);
      assert MintOk(k, c, minter);
      GoneStaysGone(k, c, a, c.h.minted[minter].row.id);
      assert c1.h.minted[minter] == c.h.minted[minter] && minter in c1.h.minted && tid in c1.threads;
      if a.Run? && a.tid == tid {
        HopelessStep(k, c, tid, a.oracle, minter);
        RunIsAfter(k, c, tid, a.oracle);
      } else {
        OtherStepsLeaveIt(k, c, a, tid);
      }
      hide Inv, Enabled, Apply, Grows, NoCallFails, Advance, Note, MintOk;
      HopelessRefresh(k, c1, actions[1..], tid, minter);
    }
  }

  /** The access token carries what the exchange that returned the refresh token gave out. */
  lemma RefreshedFrom(k: Primitives, c: Config, tid: nat, minter: nat)
    requires Inv(k, c) && minter in c.h.minted && tid in c.threads
    requires c.threads[tid].request == Refresh(c.h.minted[minter].response.refreshToken)
    requires c.threads[tid].pc.Done? && c.threads[tid].pc.outcome.Refreshed?
    ensures var claims, m := c.threads[tid].pc.outcome.accessToken, c.h.minted[minter];
            claims.userID == m.row.userID && claims.clientID == m.row.clientID && claims.scope == m.response.scope
  {
    assert ThreadOk(k, c, tid, c.threads[tid]);
    var r := c.h.access[c.threads[tid].pc.outcome.accessToken.tokenID];
    assert AccessOk(k, c, r.claims.tokenID);
    var other := c.h.rowOwner[r.rowID];
    assert MintOk(k, c, minter) && MintOk(k, c, other);
    assert other == minter;
    hide Stable, HashToken, Scopes.Join;
  }

  lemma {:induction false} TokenIsGood(k: Primitives, c: Config, tid: nat, request: Request, post: seq<Action>,
                                       minter: nat)
    requires k.Valid() && Inv(k, c) && CanRun(k, c, [Arrive(tid, request)] + post) && minter in c.h.minted
    requires c.h.minted[minter].row.id in c.w.refreshTokens && DeleteUser(c.h.minted[minter].row.userID) !in post
    requires Exec(k, c, [Arrive(tid, request)] + post).w.now <= c.h.minted[minter].row.expiresAt
    ensures GoodWhenUsed(k, c, [Arrive(tid, request)] + post, tid, TokenOf(minter))
  {
    var c1 := Apply(k, c, Arrive(tid, request));
    ArrivalUnfolds(k, c, tid, request, post);
    ActionInv(k, c, Arrive(tid, request));
    assert c1.w == c.w && c1.h == c.h;
    hide Inv, Enabled, Apply;
    TokenLasts(k, c1, post, tid, minter);
    GoodFromArrival(k, c, tid, request, post, TokenOf(minter));
  }

  lemma {:induction false} TokenIsNotFound(k: Primitives, c: Config, tid: nat, minter: nat, post: seq<Action>)
    requires k.Valid() && Inv(k, c) && minter in c.h.minted && c.h.minted[minter].row.id !in c.w.refreshTokens
    requires var request := Refresh(c.h.minted[minter].response.refreshToken);
             CanRun(k, c, [Arrive(tid, request)] + post) && NoCallFails(post, tid)
    ensures var c' := Exec(k, c, [Arrive(tid, Refresh(c.h.minted[minter].response.refreshToken))] + post);
            tid in c'.threads && (c'.threads[tid].pc.Done? ==> c'.threads[tid].pc == Fail(RefreshTokenNotFound))
  {
    var request := Refresh(c.h.minted[minter].response.refreshToken);
    ArrivalUnfolds(k, c, tid, request, post);
    ActionInv(k, c, Arrive(tid, request));
    assert Hopeless(Apply(k, c, Arrive(tid, request)), tid, minter);
    hide Inv, Enabled, Apply, NoCallFails;
    HopelessRefresh(k, Apply(k, c, Arrive(tid, request)), post, tid, minter);
  }

  /** A refresh whose row is stored finds it. */
  lemma StoredIsFound(k: Primitives, c: Config, tid: nat, o: Oracle, minter: nat)
    requires k.Valid() && Inv(k, c) && Enabled(k, c, Run(tid, o)) && !o.fail && minter in c.h.minted
    requires c.threads[tid].request == Refresh(c.h.minted[minter].response.refreshToken)
    requires c.threads[tid].pc == RefreshAt(FindRow) && c.h.minted[minter].row.id in c.w.refreshTokens
    ensures var d := Apply(k, c, Run(tid, o));
            && tid in d.threads && d.threads[tid].pc.RefreshAt? && d.threads[tid].pc.refresh.CheckExpiry?
            && d.threads[tid].pc.refresh.row.(revokedAt := None) == c.h.minted[minter].row && d.w.now == c.w.now
  {
    var d := Apply(k, c, Run(tid, o));
    TokenHasRow(k, c, minter);
    RunInv(k, c, tid, o);
    ActionGrows(k, c, Run(tid, o));
    RunIsAfter(k, c, tid, o);
    assert d.threads[tid].pc.RefreshAt? && d.threads[tid].pc.refresh.CheckExpiry?;
    hide Apply, Enabled, Note, HashToken, HasRow;
    FoundIsItsRow(k, d, tid, minter);
  }

  lemma FoundIsItsRow(k: Primitives, c: Config, tid: nat, minter: nat)
    requires Inv(k, c) && tid in c.threads && minter in c.h.minted
    requires c.threads[tid].request == Refresh(c.h.minted[minter].response.refreshToken)
    requires c.threads[tid].pc.RefreshAt? && c.threads[tid].pc.refresh.CheckExpiry?
    ensures c.threads[tid].pc.refresh.row.(revokedAt := None) == c.h.minted[minter].row
  {
    assert ThreadOk(k, c, tid, c.threads[tid]);
    RowIsThatOfToken(k, c, c.threads[tid].pc.refresh.row, minter);
    hide Inv, HashToken;
  }

  lemma UnexpiredGoesOn(k: Primitives, c: Config, tid: nat, o: Oracle)
    requires Enabled(k, c, Run(tid, o)) && !o.fail
    requires c.threads[tid].pc.RefreshAt? && c.threads[tid].pc.refresh.CheckExpiry?
    requires c.w.now <= c.threads[tid].pc.refresh.row.expiresAt
    ensures tid in Apply(k, c, Run(tid, o)).threads
    ensures Apply(k, c, Run(tid, o)).threads[tid].pc == RefreshAt(FindOwner(c.threads[tid].pc.refresh.row))
  {
    RunIsAfter(k, c, tid, o);
    hide Note;
  }

  lemma UserGone(k: Primitives, c: Config, tid: nat, p: Oracle, userID: string)
    requires Enabled(k, c, DeleteUser(userID)) && Enabled(k, Apply(k, c, DeleteUser(userID)), Run(tid, p))
    requires tid in c.threads && c.threads[tid].pc.RefreshAt? && c.threads[tid].pc.refresh.FindOwner?
    requires c.threads[tid].pc.refresh.row.userID == userID
    ensures tid in Apply(k, Apply(k, c, DeleteUser(userID)), Run(tid, p)).threads
    ensures Apply(k, Apply(k, c, DeleteUser(userID)), Run(tid, p)).threads[tid].pc == Fail(Infrastructure)
  {
    RunIsAfter(k, Apply(k, c, DeleteUser(userID)), tid, p);
    hide Note;
  }

  lemma {:induction false} SpoiledOnTheWay(k: Primitives, c: Config, tid: nat, minter: nat, rest: seq<Action>)
    requires k.Valid() && Inv(k, c) && minter in c.h.minted && tid in c.threads && |rest| == 4 && CanRun(k, c, rest)
    requires c.h.minted[minter].row.id in c.w.refreshTokens && c.w.now <= c.h.minted[minter].row.expiresAt
    requires c.threads[tid].request == Refresh(c.h.minted[minter].response.refreshToken)
    requires c.threads[tid].pc == RefreshAt(FindRow)
    requires rest[0].Run? && rest[0].tid == tid && !rest[0].oracle.fail
    requires rest[1].Run? && rest[1].tid == tid && !rest[1].oracle.fail
    requires rest[2] == DeleteUser(c.h.minted[minter].row.userID) && rest[3].Run? && rest[3].tid == tid
    ensures tid in Exec(k, c, rest).threads && Exec(k, c, rest).threads[tid].pc == Fail(Infrastructure)
  {
    hide Inv, Enabled, Apply, Exec, CanRun;
    FourSteps(k, c, rest);
    var c2 := Apply(k, c, rest[0]);
    StoredIsFound(k, c, tid, rest[0].oracle, minter);
    UnexpiredGoesOn(k, c2, tid, rest[1].oracle);
    UserGone(k, Apply(k, c2, rest[1]), tid, rest[3].oracle, c.h.minted[minter].row.userID);
  }

  /** The user condition is needed: a refresh whose row is stored and unexpired, and none of whose calls
      fails, does not succeed if its user is deleted just before it is read. */
  lemma {:induction false} DeletionSpoilsRefresh(k: Primitives, c: Config, tid: nat, minter: nat, o: Oracle, p: Oracle,
                                                 q: Oracle)
    requires k.Valid() && Inv(k, c) && minter in c.h.minted
    requires c.h.minted[minter].row.id in c.w.refreshTokens && c.w.now <= c.h.minted[minter].row.expiresAt
    requires var row, request := c.h.minted[minter].row, Refresh(c.h.minted[minter].response.refreshToken);
             var rest := [Run(tid, o), Run(tid, p), DeleteUser(row.userID), Run(tid, q)];
             CanRun(k, c, [Arrive(tid, request)] + rest) && NoCallFails(rest, tid)
    ensures var row, request := c.h.minted[minter].row, Refresh(c.h.minted[minter].response.refreshToken);
            var rest := [Run(tid, o), Run(tid, p), DeleteUser(row.userID), Run(tid, q)];
            var c' := Exec(k, c, [Arrive(tid, request)] + rest);
            tid in c'.threads && c'.threads[tid].pc == Fail(Infrastructure)
  {
    var row, request := c.h.minted[minter].row, Refresh(c.h.minted[minter].response.refreshToken);
    var rest := [Run(tid, o), Run(tid, p), DeleteUser(row.userID), Run(tid, q)];
    ArrivalUnfolds(k, c, tid, request, rest);
    var c1 := Apply(k, c, Arrive(tid, request));
    ActionInv(k, c, Arrive(tid, request));
    assert c1.w == c.w && c1.h == c.h && c1.threads[tid].pc == RefreshAt(FindRow) && c1.threads[tid].request == request;
    assert !rest[0].oracle.fail && !rest[1].oracle.fail;
    hide Inv, Enabled, Apply, NoCallFails;
    SpoiledOnTheWay(k, c1, tid, minter, rest);
  }

  lemma {:induction false} FourSteps(k: Primitives, c: Config, a: seq<Action>)
    requires |a| == 4 && CanRun(k, c, a)
    ensures Enabled(k, c, a[0])
    ensures var c1 := Apply(k, c, a[0]);
            && Enabled(k, c1, a[1])
            && var c2 := Apply(k, c1, a[1]);
               && Enabled(k, c2, a[2])
               && var c3 := Apply(k, c2, a[2]);
                  Enabled(k, c3, a[3]) && Exec(k, c, a) == Apply(k, c3, a[3])
  {
    hide Enabled, Apply;
    var c1 := Apply(k, c, a[0]);
    var c2 := Apply(k, c1, a[1]);
    assert a[1..][0] == a[1] && a[1..][1..] == a[2..];
    assert a[2..][0] == a[2] && a[2..][1..] == a[3..] && a[3..][0] == a[3];
    assert CanRun(k, c1, a[1..]) && CanRun(k, c2, a[2..]);
    var c3 := Apply(k, c2, a[2]);
    assert CanRun(k, c3, a[3..]);
    assert a[3..][1..] == [];
    assert Exec(k, c, a) == Exec(k, c1, a[1..]) == Exec(k, c2, a[2..]) == Exec(k, c3, a[3..]);
  }

  /** In every run and under any interleaving: presenting a refresh token that an exchange returned to the
      legacy endpoint, once answered and with no call of its own failing, yields an access token exactly if
      the row is stored when it is looked up, not past its expiry when that is checked, and its user there
      when it is read; so in particular if the row is stored on arrival, its user is not deleted, and it
      has not expired by the end. Revocation plays no part. The token is for the same user and client,
      with the very scope string of that exchange, and lasts its fifteen minutes from the expiry check. */
  lemma {:induction false} ReturnedTokenRefreshes(k: Primitives, now: int, pre: seq<Action>, minter: nat, tid: nat,
                                                  post: seq<Action>)
    requires k.Valid() && CanRun(k, Initial(now), pre)
    requires var c := Exec(k, Initial(now), pre);
             && minter in c.h.minted
             && CanRun(k, c, [Arrive(tid, Refresh(c.h.minted[minter].response.refreshToken))] + post)
             && NoCallFails(post, tid)
    ensures var c := Exec(k, Initial(now), pre);
            var m := c.h.minted[minter];
            var actions := [Arrive(tid, Refresh(m.response.refreshToken))] + post;
            var c' := Exec(k, c, actions);
            && tid in c'.threads
            && (c'.threads[tid].pc.Done? ==>
                  var outcome := c'.threads[tid].pc.outcome;
                  && (outcome.Refreshed? <==> GoodWhenUsed(k, c, actions, tid, TokenOf(minter)))
                  && (m.row.id in c.w.refreshTokens && DeleteUser(m.row.userID) !in post
                      && c'.w.now <= m.row.expiresAt ==>
                        outcome.Refreshed?)
                  && (m.row.id !in c.w.refreshTokens ==> outcome == Failed(RefreshTokenNotFound))
                  && (outcome.Refreshed? ==>
                        && outcome.accessToken.userID == m.row.userID && outcome.accessToken.clientID == m.row.clientID
                        && outcome.accessToken.scope == m.response.scope
                        && ClaimsDated(outcome.accessToken, c'.threads[tid].mark, c'.w.now)))
  {
    var c := Exec(k, Initial(now), pre);
    var m := c.h.minted[minter];
    var request := Refresh(m.response.refreshToken);
    var actions := [Arrive(tid, request)] + post;
    var c' := Exec(k, c, actions);
    ReachableInv(k, now, pre);
    RunsKeepInv(k, c, actions);
    RunsGrow(k, c, actions);
    assert c'.h.minted[minter] == c.h.minted[minter];
    assert Presents(k, c, request, TokenOf(minter));
    VoucherDecides(k, now, pre, tid, request, post, TokenOf(minter));
    hide Inv, Grows, Presents, NoCallFails, Enabled, Apply, ClaimsDated;
    if m.row.id !in c.w.refreshTokens {
      TokenIsNotFound(k, c, tid, minter, post);
    } else if DeleteUser(m.row.userID) !in post && c'.w.now <= m.row.expiresAt {
      TokenIsGood(k, c, tid, request, post, minter);
    }
    if c'.threads[tid].pc.Done? && c'.threads[tid].pc.outcome.Refreshed? {
      RefreshedFrom(k, c', tid, minter);
      RunsCompose(k, Initial(now), pre, actions);
      TokensAreDated(k, now, pre + actions, tid, c'.threads[tid].pc.outcome.accessToken);
    }
  }
}
