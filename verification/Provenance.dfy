/** Where tokens come from. The records kept beside a run are exactly the events of the run, and every
    token returned, and every refresh row, leads back through one consumed code to one authorization
    under one login. */
module Provenance {
  import opened Prelude
  import opened Entities
  import opened Crypto
  import opened Protocol
  import opened Machine
  import opened Invariants
  import opened Growth
  import opened Safety
  import opened Sightings
  import Scopes

  // ---------------------------------------------------------------- records are events

  datatype Event =
    | SessionStored(id: string)
    | CodeIssued(code: string)
    | CodeConsumed(code: string, requester: nat)
    | TokensMinted(requester: nat)
    | UserEnrolled(userID: string)

  /** The event is what the action does in configuration `c`. */
  ghost predicate Happens(k: Primitives, c: Config, a: Action, e: Event) {
    && a.Run? && Enabled(k, c, a)
    && var t, pc' := c.threads[a.tid], Stepped(k, c, a.tid, a.oracle).1;
    match e
    case SessionStored(id) => Stores(t, pc') && t.pc.login.id == id
    case CodeIssued(code) => Grants(t, pc') && t.pc.authorize.code == code
    case CodeConsumed(code, r) => a.tid == r && Consumes(c.w, t, a.oracle) && t.request.token.code == code
    case TokensMinted(r) => a.tid == r && Mints(t, pc')
    case UserEnrolled(userID) => Enrols(t, pc') && t.pc.register.user.id == userID
  }

  ghost predicate Occurs(k: Primitives, c: Config, actions: seq<Action>, e: Event)
    requires CanRun(k, c, actions)
    decreases |actions|
  {
    actions != [] && (Happens(k, c, actions[0], e) || Occurs(k, Apply(k, c, actions[0]), actions[1..], e))
  }

  ghost predicate OnRecord(h: History, e: Event) {
    match e
    case SessionStored(id) => id in h.logins
    case CodeIssued(code) => code in h.grants
    case CodeConsumed(code, r) => code in h.spent && h.spent[code] == r
    case TokensMinted(r) => r in h.minted
    case UserEnrolled(userID) => userID in h.enrolled
  }

  lemma RecordedByAction(k: Primitives, c: Config, a: Action, e: Event)
    requires Inv(k, c) && Enabled(k, c, a)
    ensures OnRecord(Apply(k, c, a).h, e) <==> OnRecord(c.h, e) || Happens(k, c, a, e)
  {
    if a.Run? {
      RunGrows(k, c, a.tid, a.oracle);
      RunIsAfter(k, c, a.tid, a.oracle);
      RecordIsNew(k, c, a.tid, a.oracle, Stepped(k, c, a.tid, a.oracle).1);
      hide Inv, Enabled, Apply, Advance, Stores, Grants, Consumes, Mints, Enrols, Refreshes;
    }
  }

  /** A record is kept of exactly the events that occurred. */
  lemma {:induction false} RecordsAreEvents(k: Primitives, c: Config, actions: seq<Action>, e: Event)
    requires k.Valid() && Inv(k, c) && CanRun(k, c, actions)
    ensures OnRecord(Exec(k, c, actions).h, e) <==> OnRecord(c.h, e) || Occurs(k, c, actions, e)
    decreases |actions|
  {
    hide Inv, Enabled, Apply, OnRecord, Happens;
    if actions != [] {
      RecordedByAction(k, c, actions[0], e);
      ActionInv(k, c, actions[0]);
      RecordsAreEvents(k, Apply(k, c, actions[0]), actions[1..], e);
    }
  }

  // ---------------------------------------------------------------- the chain

  /** `code` was issued for exactly this user, client, redirect target, scope and challenge, by an
      authorization that saw a live session which a checked login had stored; and it was consumed by
      the redemption `minter`, whose verifier answers the challenge. */
  ghost predicate LeadsBack(k: Primitives, c: Config, code: string, minter: nat, userID: string, clientID: string,
                            scope: seq<string>) {
    && code in c.h.spent && c.h.spent[code] == minter
    && minter in c.threads && c.threads[minter].request.Exchange?
    && code in c.h.grants
    && var grant := c.h.grants[code];
    && grant.sessionID in c.h.logins
    && grant.tid in c.threads && c.threads[grant.tid].request.Authorize?
    && var login := c.h.logins[grant.sessionID];
    && login.tid in c.threads && c.threads[login.tid].request.Login?
    && var redeemed, asked := c.threads[minter].request.token, c.threads[grant.tid].request.authorize;
    && userID == grant.data.userID == login.session.userID
    && clientID == grant.data.clientID == asked.clientID == redeemed.clientID
    && grant.data.redirectURI == asked.redirectURI == redeemed.redirectURI
    && grant.data.challenge == asked.challenge == Challenge(k, redeemed.codeVerifier)
    && scope == grant.data.scope == Scopes.Fields(asked.scope)
    && clientID in c.w.clients && Allowed(c.w.clients[clientID], asked.redirectURI, scope)
    && c.threads[grant.tid].request.sessionID == grant.sessionID
    && login.at <= grant.lookedUpAt <= login.at + 2592000
    && PasswordChecked(k, c, c.threads[login.tid].request, userID)
  }

  lemma MintLeadsBack(k: Primitives, c: Config, minter: nat)
    requires Inv(k, c) && minter in c.h.minted
    ensures var m := c.h.minted[minter];
            LeadsBack(k, c, m.code, minter, m.row.userID, m.row.clientID, m.row.scope)
  {
    var code := c.h.minted[minter].code;
    assert MintOk(k, c, minter);
    assert CodeOk(c, code);
    assert LoginOk(k, c, c.h.grants[code].sessionID);
  }

  /** A code yields at most one pair of tokens, and a pair of tokens has one code. */
  lemma OneMintPerCode(k: Primitives, c: Config, minter: nat, minter': nat)
    requires Inv(k, c) && minter in c.h.minted && minter' in c.h.minted
    ensures c.h.minted[minter].code == c.h.minted[minter'].code <==> minter == minter'
    ensures c.h.minted[minter].row.id == c.h.minted[minter'].row.id <==> minter == minter'
    ensures c.h.minted[minter].response.refreshToken == c.h.minted[minter'].response.refreshToken <==> minter == minter'
  {
    assert MintOk(k, c, minter) && MintOk(k, c, minter');
  }

  /** The events that a chain through `code` consists of: among them that the store served the session
      to the authorization, so nobody had logged it out. */
  ghost predicate ChainOccurred(k: Primitives, c0: Config, actions: seq<Action>, code: string, minter: nat)
    requires CanRun(k, c0, actions)
  {
    var c := Exec(k, c0, actions);
    && code in c.h.grants
    && Occurs(k, c0, actions, SessionStored(c.h.grants[code].sessionID))
    && Seen(k, c0, actions, SessionFound(c.h.grants[code].tid, c.h.grants[code].sessionID, c.h.grants[code].lookedUpAt))
    && Occurs(k, c0, actions, CodeIssued(code))
    && Occurs(k, c0, actions, CodeConsumed(code, minter))
    && Occurs(k, c0, actions, TokensMinted(minter))
  }

  lemma {:induction false} ChainEvents(k: Primitives, now: int, actions: seq<Action>, minter: nat)
    requires k.Valid() && CanRun(k, Initial(now), actions)
    requires minter in Exec(k, Initial(now), actions).h.minted
    ensures ChainOccurred(k, Initial(now), actions, Exec(k, Initial(now), actions).h.minted[minter].code, minter)
  {
    var c0, c := Initial(now), Exec(k, Initial(now), actions);
    ReachableInv(k, now, actions);
    InitialInv(k, now);
    MintLeadsBack(k, c, minter);
    var code := c.h.minted[minter].code;
    var found := SessionFound(c.h.grants[code].tid, c.h.grants[code].sessionID, c.h.grants[code].lookedUpAt);
    assert Shown(c, found) by { assert CodeOk(c, code); }
    ShownIsSeen(k, c0, actions, found);
    hide Inv, Occurs, Seen, LeadsBack;
    RecordsAreEvents(k, c0, actions, SessionStored(c.h.grants[code].sessionID));
    RecordsAreEvents(k, c0, actions, CodeIssued(code));
    RecordsAreEvents(k, c0, actions, CodeConsumed(code, minter));
    RecordsAreEvents(k, c0, actions, TokensMinted(minter));
  }

  /** The request whose redemption an access token goes back to: itself, or the one that stored the
      refresh row it was derived from. */
  ghost function MinterOf(c: Config, claims: Claims): (minter: nat)
    requires claims.tokenID in c.h.access && c.h.access[claims.tokenID].rowID in c.h.rowOwner
  {
    c.h.rowOwner[c.h.access[claims.tokenID].rowID]
  }

  ghost predicate Returned(c: Config, tid: nat, claims: Claims) {
    && tid in c.threads && c.threads[tid].pc.Done?
    && ((c.threads[tid].pc.outcome.Tokens? && claims == c.threads[tid].pc.outcome.tokens.accessToken) ||
        (c.threads[tid].pc.outcome.Refreshed? && claims == c.threads[tid].pc.outcome.accessToken))
  }

  /** Every access token any request returned, in any run, directly or through the legacy refresh. */
  lemma {:induction false} AccessTokenProvenance(k: Primitives, now: int, actions: seq<Action>, tid: nat,
                                                 claims: Claims)
    requires k.Valid() && CanRun(k, Initial(now), actions)
    requires Returned(Exec(k, Initial(now), actions), tid, claims)
    ensures var c := Exec(k, Initial(now), actions);
            && claims.tokenID in c.h.access && c.h.access[claims.tokenID].rowID in c.h.rowOwner
            && var minter := MinterOf(c, claims);
               && minter in c.h.minted
               && var m := c.h.minted[minter];
                  && LeadsBack(k, c, m.code, minter, claims.userID, claims.clientID, m.row.scope)
                  && claims.scope == Scopes.Join(m.row.scope)
                  && Scopes.Fields(claims.scope) == m.row.scope
                  && ChainOccurred(k, Initial(now), actions, m.code, minter)
  {
    var c := Exec(k, Initial(now), actions);
    ReachableInv(k, now, actions);
    ReturnedOnRecord(k, c, tid, claims);
    var minter := MinterOf(c, claims);
    MintLeadsBack(k, c, minter);
    ChainEvents(k, now, actions, minter);
    Scopes.JoinThenFields(c.h.minted[minter].row.scope);
  }

  lemma ReturnedOnRecord(k: Primitives, c: Config, tid: nat, claims: Claims)
    requires Inv(k, c) && Returned(c, tid, claims)
    ensures claims.tokenID in c.h.access && c.h.access[claims.tokenID].claims == claims
    ensures c.h.access[claims.tokenID].tid == tid && c.h.access[claims.tokenID].rowID in c.h.rowOwner
    ensures MinterOf(c, claims) in c.h.minted
    ensures var row := c.h.minted[MinterOf(c, claims)].row;
            ClaimsFor(c, claims, row.userID, row.clientID, row.scope)
  {
    assert ThreadOk(k, c, tid, c.threads[tid]);
    assert MintOk(k, c, tid) && AccessOk(k, c, claims.tokenID);
  }

  /** Every refresh row of every reachable table was stored by one redemption and leads back likewise;
      it names an existing user. */
  lemma {:induction false} RefreshRowProvenance(k: Primitives, now: int, actions: seq<Action>, rowID: string)
    requires k.Valid() && CanRun(k, Initial(now), actions)
    requires rowID in Exec(k, Initial(now), actions).w.refreshTokens
    ensures var c := Exec(k, Initial(now), actions);
            var row := c.w.refreshTokens[rowID];
            && row.id == rowID && row.userID in c.w.users
            && rowID in c.h.rowOwner
            && var minter := c.h.rowOwner[rowID];
               && minter in c.h.minted
               && LeadsBack(k, c, c.h.minted[minter].code, minter, row.userID, row.clientID, row.scope)
               && ChainOccurred(k, Initial(now), actions, c.h.minted[minter].code, minter)
  {
    var c := Exec(k, Initial(now), actions);
    ReachableInv(k, now, actions);
    assert RowOk(c, rowID);
    var minter := c.h.rowOwner[rowID];
    MintLeadsBack(k, c, minter);
    ChainEvents(k, now, actions, minter);
  }

  /** A returned token response had exactly one row inserted for it: same user, client and scope list,
      and the hash of the returned raw token. */
  lemma {:induction false} ResponseMatchesRow(k: Primitives, now: int, actions: seq<Action>, tid: nat)
    requires k.Valid() && CanRun(k, Initial(now), actions)
    requires var c := Exec(k, Initial(now), actions);
             tid in c.threads && c.threads[tid].pc.Done? && c.threads[tid].pc.outcome.Tokens?
    ensures var c := Exec(k, Initial(now), actions);
            var response := c.threads[tid].pc.outcome.tokens;
            && tid in c.h.minted
            && var row := c.h.minted[tid].row;
               && row.userID == response.accessToken.userID
               && row.clientID == response.accessToken.clientID
               && response.scope == response.accessToken.scope == Scopes.Join(row.scope)
               && Scopes.Fields(response.scope) == row.scope != []
               && row.tokenHash == HashToken(k, response.refreshToken)
               && (forall id :: id in c.h.rowOwner && c.h.rowOwner[id] == tid <==> id == row.id)
               && (forall id :: id in c.w.refreshTokens && id in c.h.rowOwner && c.h.rowOwner[id] == tid ==>
                     id == row.id && c.w.refreshTokens[id].(revokedAt := None) == row)
  {
    var c := Exec(k, Initial(now), actions);
    ReachableInv(k, now, actions);
    assert ThreadOk(k, c, tid, c.threads[tid]);
    assert MintOk(k, c, tid);
    var row := c.h.minted[tid].row;
    MintLeadsBack(k, c, tid);
    Scopes.JoinThenFields(row.scope);
    hide LeadsBack;
    forall id ensures id in c.h.rowOwner && c.h.rowOwner[id] == tid <==> id == row.id { assert OwnerOk(c, id); }
    forall id | id in c.w.refreshTokens && id in c.h.rowOwner && c.h.rowOwner[id] == tid
      ensures id == row.id && c.w.refreshTokens[id].(revokedAt := None) == row
    {
      assert RowOk(c, id) && OwnerOk(c, id);
    }
  }

  /** The scope string is the same in the answer of the code grant, in its access token, and in the
      token of every later legacy refresh; it reparses to exactly the list that the authorization
      request named, which is not empty and was registered by the client. */
  lemma {:induction false} ScopeIsPreserved(k: Primitives, now: int, actions: seq<Action>, tid: nat, claims: Claims)
    requires k.Valid() && CanRun(k, Initial(now), actions)
    requires Returned(Exec(k, Initial(now), actions), tid, claims)
    ensures var c := Exec(k, Initial(now), actions);
            && claims.tokenID in c.h.access && c.h.access[claims.tokenID].rowID in c.h.rowOwner
            && var minter := MinterOf(c, claims);
               && minter in c.h.minted
               && claims.scope == c.h.minted[minter].response.scope == c.h.minted[minter].response.accessToken.scope
               && var code := c.h.minted[minter].code;
                  && code in c.h.grants && c.h.grants[code].tid in c.threads
                  && c.threads[c.h.grants[code].tid].request.Authorize?
                  && var asked := c.threads[c.h.grants[code].tid].request.authorize;
                     && Scopes.Fields(claims.scope) == Scopes.Fields(asked.scope) != []
                     && asked.clientID in c.w.clients
                     && forall s :: s in Scopes.Fields(claims.scope) ==> s in c.w.clients[asked.clientID].scopes
  {
    var c := Exec(k, Initial(now), actions);
    ReachableInv(k, now, actions);
    ReturnedOnRecord(k, c, tid, claims);
    var minter := MinterOf(c, claims);
    MintLeadsBack(k, c, minter);
    assert MintOk(k, c, minter);
    Scopes.JoinThenFields(c.h.minted[minter].row.scope);
    hide Inv, MintOk;
  }
}
