/** What becomes of authorization codes, and what an exchange may touch. */
module Conservation {
  import opened Prelude
  import opened Entities
  import opened Crypto
  import opened Store
  import opened Protocol
  import opened Machine
  import opened Invariants
  import opened Answers
  import opened Growth
  import opened Preservation
  import opened Safety
  import Base64Url

  // Five fates of a code that was ever issued.

  ghost predicate Servable(c: Config, code: string) {
    code !in c.h.spent && Find(c.w.entries, CodeKey(code), c.w.now).Some?
  }

  ghost predicate Lapsed(c: Config, code: string) {
    code !in c.h.spent && code in c.h.grants && c.h.grants[code].at + 60 < c.w.now
  }

  ghost predicate InRedemption(c: Config, code: string) {
    code in c.h.spent && c.h.spent[code] in c.threads && !c.threads[c.h.spent[code]].pc.Done?
  }

  ghost predicate Redeemed(c: Config, code: string) {
    && code in c.h.spent && c.h.spent[code] in c.threads
    && c.threads[c.h.spent[code]].pc.Done? && c.threads[c.h.spent[code]].pc.outcome.Tokens?
  }

  ghost predicate Burned(c: Config, code: string) {
    && code in c.h.spent && c.h.spent[code] in c.threads
    && c.threads[c.h.spent[code]].pc.Done? && c.threads[c.h.spent[code]].pc.outcome.Failed?
  }

  function Count(b: bool): nat { if b then 1 else 0 }

  /** In every run, every code ever issued is in exactly one of the five states, and the store serves
      it, with the data it was issued for, exactly when it is servable. Nothing else is served. */
  lemma {:induction false} CodesAreConserved(k: Primitives, now: int, actions: seq<Action>, code: string)
    requires k.Valid() && CanRun(k, Initial(now), actions)
    ensures var c := Exec(k, Initial(now), actions);
            code in c.h.grants <==>
            Count(Servable(c, code)) + Count(Lapsed(c, code)) + Count(InRedemption(c, code))
              + Count(Redeemed(c, code)) + Count(Burned(c, code)) == 1
    ensures var c := Exec(k, Initial(now), actions);
            Servable(c, code) ==>
              Find(c.w.entries, CodeKey(code), c.w.now) == Some(CodePayload(c.h.grants[code].data))
    ensures var c := Exec(k, Initial(now), actions);
            Find(c.w.entries, CodeKey(code), c.w.now).Some? ==> Servable(c, code)
  {
    var c := Exec(k, Initial(now), actions);
    ReachableInv(k, now, actions);
    RunsAnswered(k, Initial(now), actions);
    KeysApart(code, code);
    assert EntryOk(c, CodeKey(code)) && CodeStored(c, code) && SpentOk(c, code) && CodeOk(c, code);
  }

  /** A code is redeemed exactly when tokens were minted for it, and then only once. */
  lemma {:induction false} RedeemedMeansMinted(k: Primitives, now: int, actions: seq<Action>, code: string)
    requires k.Valid() && CanRun(k, Initial(now), actions)
    ensures var c := Exec(k, Initial(now), actions);
            Redeemed(c, code) <==> exists tid :: tid in c.h.minted && c.h.minted[tid].code == code
    ensures var c := Exec(k, Initial(now), actions);
            forall tid, tid' ::
              (tid in c.h.minted && tid' in c.h.minted && c.h.minted[tid].code == c.h.minted[tid'].code) ==> tid == tid'
  {
    var c := Exec(k, Initial(now), actions);
    ReachableInv(k, now, actions);
    assert SpentOk(c, code);
    forall tid | tid in c.h.minted
      ensures c.h.minted[tid].code in c.h.spent && c.h.spent[c.h.minted[tid].code] == tid
      ensures Redeemed(c, c.h.minted[tid].code)
    {
      assert MintOk(k, c, tid);
    }
    if Redeemed(c, code) {
      var tid := c.h.spent[code];
      assert ThreadOk(k, c, tid, c.threads[tid]) && MintOk(k, c, tid);
      assert c.h.minted[tid].code == code;
    }
  }

  /** One step of an exchange: the registry, the users and the sessions are never touched. The store
      changes only by losing the presented code, after the client has authenticated; the rows change
      only by the one row of a successful answer. */
  lemma ExchangeFootprint(k: Primitives, w: World, t: Thread, o: Oracle)
    requires t.request.Exchange?
    ensures var (w', pc') := Advance(k, w, t.request, t.pc, o);
            && w'.clients == w.clients && w'.users == w.users && w'.now == w.now
            && (w'.entries == w.entries || w'.entries == w.entries - {CodeKey(t.request.token.code)})
            && (w'.entries != w.entries ==> t.pc.GrantAt? && t.pc.grant.ConsumeCode?)
            && (w'.refreshTokens != w.refreshTokens ==>
                  pc'.Done? && pc'.outcome.Tokens? &&
                  w'.refreshTokens == w.refreshTokens[o.uuid := MintedRow(k, t, o)])
            && (pc'.Done? && pc'.outcome.Failed? ==> w'.refreshTokens == w.refreshTokens)
  {
    hide Find, Bound, Authenticates;
  }

  /** A code whose challenge is not the S256 form of some verifier, in particular one that does not
      have 43 characters, is never redeemed. */
  lemma {:induction false} RedeemedChallenge(k: Primitives, now: int, actions: seq<Action>, code: string)
    requires k.Valid() && CanRun(k, Initial(now), actions)
    requires Redeemed(Exec(k, Initial(now), actions), code)
    ensures var c := Exec(k, Initial(now), actions);
            && code in c.h.grants
            && var challenge := c.h.grants[code].data.challenge;
               && |challenge| == 43 && Base64Url.InAlphabet(challenge)
               && c.threads[c.h.spent[code]].request.Exchange?
               && Base64Url.Decode(challenge) ==
                  Some(k.sha256(c.threads[c.h.spent[code]].request.token.codeVerifier))
  {
    var c := Exec(k, Initial(now), actions);
    ReachableInv(k, now, actions);
    var tid := c.h.spent[code];
    assert SpentOk(c, code) && ThreadOk(k, c, tid, c.threads[tid]) && MintOk(k, c, tid);
    ChallengeAccepted(k, c.h.grants[code].data.challenge, c.threads[tid].request.token.codeVerifier);
  }

  /** The token request names the client and the redirect target of the authorization request, and its
      verifier is one of the S256 challenge sent there. */
  predicate Follows(k: Primitives, token: TokenRequest, a: AuthorizeRequest) {
    && token.clientID == a.clientID && token.redirectURI == a.redirectURI
    && a.challengeMethod == "S256" && a.challenge == Base64Url.Encode(k.sha256(token.codeVerifier))
  }

  /** What binds a code to a token request is what the authorization asked for, and nothing else. */
  lemma BoundMeansFollows(k: Primitives, c: Config, code: string, token: TokenRequest)
    requires Inv(k, c) && code in c.h.grants
    ensures c.h.grants[code].tid in c.threads && c.threads[c.h.grants[code].tid].request.Authorize?
    ensures Bound(k, token, c.h.grants[code].data) <==>
            Follows(k, token, c.threads[c.h.grants[code].tid].request.authorize)
    ensures c.threads[c.h.grants[code].tid].request.authorize.clientID in c.w.clients
  {
    assert CodeOk(c, code);
    hide Inv;
  }

  /** The consumption that gets through succeeds exactly when the code is servable and the request names the
      client and the redirect target of the authorization that it was issued to, with a verifier of the S256
      challenge sent there; a servable code that was not is burned, and any other code is simply
      unknown. */
  lemma {:induction false} ConsumptionDecides(k: Primitives, now: int, actions: seq<Action>, tid: nat, o: Oracle)
    requires k.Valid() && CanRun(k, Initial(now), actions)
    requires Enabled(k, Exec(k, Initial(now), actions), Run(tid, o)) && !o.fail
    requires var t := Exec(k, Initial(now), actions).threads[tid];
             t.pc.GrantAt? && t.pc.grant.ConsumeCode?
    ensures var c := Exec(k, Initial(now), actions);
            var c', code := Apply(k, c, Run(tid, o)), c.threads[tid].request.token.code;
            && tid in c'.threads
            && (c'.threads[tid].pc.GrantAt? <==>
                  && Servable(c, code) && code in c.h.grants && c.h.grants[code].tid in c.threads
                  && var token, granter := c.threads[tid].request.token, c.threads[c.h.grants[code].tid].request;
                  && granter.Authorize?
                  && token.clientID == granter.authorize.clientID
                  && token.redirectURI == granter.authorize.redirectURI
                  && granter.authorize.challengeMethod == "S256"
                  && granter.authorize.challenge == Base64Url.Encode(k.sha256(token.codeVerifier)))
            && (Servable(c, code) ==> code in c.h.grants && (InRedemption(c', code) || Burned(c', code)))
            && (!c'.threads[tid].pc.GrantAt? ==> c'.threads[tid].pc == Fail(InvalidGrant))
            && !Servable(c', code)
  {
    var c := Exec(k, Initial(now), actions);
    ReachableInv(k, now, actions);
    var c', t := Apply(k, c, Run(tid, o)), c.threads[tid];
    var code := t.request.token.code;
    RunIsAfter(k, c, tid, o);
    if Find(c.w.entries, CodeKey(code), c.w.now).Some? { FoundCode(k, c, code); }
    if code in c.h.grants { BoundMeansFollows(k, c, code, t.request.token); }
    hide Inv, Enabled, Apply, CodeKey, Bound;
  }

  // ---------------------------------------------------------------- what a failed exchange leaves behind

  predicate RefusedClient(t: Thread) {
    t.request.Exchange? && t.pc == Fail(InvalidClient)
  }

  /** A request refused for its client has consumed no code. */
  ghost predicate RefusedTookNothing(c: Config) {
    forall tid, code :: tid in c.threads && RefusedClient(c.threads[tid]) && code in c.h.spent ==>
      c.h.spent[code] != tid
  }

  lemma RefusedAtTheDoor(k: Primitives, w: World, t: Thread, o: Oracle)
    requires t.request.Exchange? && Advance(k, w, t.request, t.pc, o).1 == Fail(InvalidClient)
    ensures t.pc == Fail(InvalidClient) || t.pc == GrantAt(FindClient)
    ensures !Consumes(w, t, o)
  {
    hide Find, Bound, Authenticates;
  }

  lemma RefusedStep(k: Primitives, c: Config, tid: nat, o: Oracle)
    requires Inv(k, c) && Enabled(k, c, Run(tid, o)) && RefusedTookNothing(c)
    ensures RefusedTookNothing(Apply(k, c, Run(tid, o)))
  {
    var c', t := Apply(k, c, Run(tid, o)), c.threads[tid];
    RunIsAfter(k, c, tid, o);
    assert c'.h.spent == NoteSpent(c.h.spent, tid, t, c.w, o) && c'.threads == c.threads[tid := c'.threads[tid]];
    if RefusedClient(c'.threads[tid]) { RefusedAtTheDoor(k, c.w, t, o); }
    hide Apply, Enabled, Advance, Note, Consumes;
    forall id, code | id in c'.threads && RefusedClient(c'.threads[id]) && code in c'.h.spent
      ensures c'.h.spent[code] != id
    {
      assert SpentOk(c, code);
    }
  }

  lemma {:induction false} RefusedRuns(k: Primitives, c: Config, actions: seq<Action>)
    requires k.Valid() && Inv(k, c) && CanRun(k, c, actions) && RefusedTookNothing(c)
    ensures RefusedTookNothing(Exec(k, c, actions))
    decreases |actions|
  {
    if actions != [] {
      var a := actions[0];
      ActionInv(k, c, a);
      if a.Run? { RefusedStep(k, c, a.tid, a.oracle); } else { RefusedOtherwise(k, c, a); }
      hide Inv, Enabled, Apply, RefusedTookNothing;
      RefusedRuns(k, Apply(k, c, a), actions[1..]);
    }
  }

  lemma RefusedOtherwise(k: Primitives, c: Config, a: Action)
    requires Enabled(k, c, a) && !a.Run? && RefusedTookNothing(c)
    ensures RefusedTookNothing(Apply(k, c, a))
  {}

  /** In every run, under any interleaving: an exchange that failed has inserted no row and minted no
      token, and the only code it can have taken is the one it presented; if it was refused for its
      client it has taken none. */
  lemma {:induction false} FailedExchangeLeavesNothing(k: Primitives, now: int, actions: seq<Action>, tid: nat)
    requires k.Valid() && CanRun(k, Initial(now), actions)
    requires var c := Exec(k, Initial(now), actions);
             tid in c.threads && c.threads[tid].request.Exchange? && c.threads[tid].pc.Done?
             && c.threads[tid].pc.outcome.Failed?
    ensures var c := Exec(k, Initial(now), actions);
            && tid !in c.h.minted
            && (forall id :: id in c.h.rowOwner ==> c.h.rowOwner[id] != tid)
            && (forall id :: id in c.w.refreshTokens ==> id in c.h.rowOwner)
            && (forall id :: id in c.h.access ==> c.h.access[id].tid != tid)
            && (forall code :: code in c.h.spent && c.h.spent[code] == tid ==>
                  code == c.threads[tid].request.token.code && Burned(c, code))
            && (c.threads[tid].pc.outcome.error == InvalidClient ==>
                  forall code :: code in c.h.spent ==> c.h.spent[code] != tid)
  {
    var c := Exec(k, Initial(now), actions);
    InitialInv(k, now);
    ReachableInv(k, now, actions);
    RefusedRuns(k, Initial(now), actions);
    assert MintOk(k, c, tid);
    forall id | id in c.h.rowOwner ensures c.h.rowOwner[id] != tid { assert OwnerOk(c, id); }
    forall id | id in c.w.refreshTokens ensures id in c.h.rowOwner { assert RowOk(c, id); }
    forall id | id in c.h.access ensures c.h.access[id].tid != tid { assert AccessOk(k, c, id); }
    forall code | code in c.h.spent && c.h.spent[code] == tid
      ensures code == c.threads[tid].request.token.code && Burned(c, code)
    {
      assert SpentOk(c, code);
    }
    hide Inv;
  }
}
