/** Registration of clients meets redemption: what a registration hands out is what an exchange
    accepts. */
module Registration {
  import opened Prelude
  import opened Entities
  import opened Crypto
  import opened Protocol
  import opened Machine
  import opened Invariants
  import opened Growth
  import opened Preservation
  import opened Safety

  /** The grant types that are supported, spelled out: there is no offence exactly when every listed
      type is one of two. Otherwise the first one that is neither decides, and a public client that asks for
      "client_credentials" there is told so. */
  lemma {:induction false} FirstOffenceIsFirst(grantTypes: seq<string>, isPublic: bool)
    ensures FirstOffence(grantTypes, isPublic).None? <==>
            forall i :: 0 <= i < |grantTypes| ==>
              grantTypes[i] == "authorization_code" || grantTypes[i] == "refresh_token"
    ensures forall i ::
              (0 <= i < |grantTypes|
               && (forall j :: 0 <= j < i ==> grantTypes[j] == "authorization_code" || grantTypes[j] == "refresh_token")
               && grantTypes[i] != "authorization_code" && grantTypes[i] != "refresh_token") ==>
                FirstOffence(grantTypes, isPublic) ==
                Some(if isPublic && grantTypes[i] == "client_credentials" then PublicClientCredentialsGrant
                     else UnsupportedGrantType)
  {
    if grantTypes != [] {
      var rest := grantTypes[1..];
      FirstOffenceIsFirst(rest, isPublic);
      assert forall i :: 0 < i < |grantTypes| ==> grantTypes[i] == rest[i - 1];
      assert forall i :: 0 <= i < |rest| ==> rest[i] == grantTypes[i + 1];
    }
  }

  // ---------------------------------------------------------------- every client was registered

  /** Some finished registration answered with this client's id, and stored this row. */
  ghost predicate RegisteredBy(k: Primitives, c: Config, id: string, tid: nat) {
    && id in c.w.clients
    && tid in c.threads && c.threads[tid].request.RegisterClient?
    && c.threads[tid].pc.Done? && c.threads[tid].pc.outcome.ClientCreated?
    && c.threads[tid].pc.outcome.created.clientID == id
    && CreatedOk(k, c.threads[tid].request.client, c.w.clients[id], c.threads[tid].pc.outcome.created)
  }

  ghost predicate AllRegistered(k: Primitives, c: Config) {
    forall id :: id in c.w.clients ==> exists tid :: RegisteredBy(k, c, id, tid)
  }

  /** A client row appears in the same step in which its registration answers. */
  lemma StepAnswers(k: Primitives, w: World, t: Thread, o: Oracle)
    ensures var (w', pc') := Advance(k, w, t.request, t.pc, o);
            w'.clients != w.clients ==>
              && t.request.RegisterClient?
              && pc' == Done(ClientCreated(NewClient(k, t.request.client, o).1))
              && w'.clients == w.clients[o.uuid := NewClient(k, t.request.client, o).0]
  {
    hide FirstOffence;
    match t.pc
    case GrantAt(g) =>
    case AuthorizeAt(a) =>
    case LoginAt(l) =>
    case LogoutAt =>
    case RefreshAt(r) =>
    case RegisterAt(r) =>
    case RegisterClientAt =>
    case Done(_) =>
  }

  lemma RegisteredGrows(k: Primitives, c: Config, c': Config, id: string, tid: nat)
    requires Grows(c, c') && RegisteredBy(k, c, id, tid)
    ensures RegisteredBy(k, c', id, tid)
  {}

  lemma RunRegistered(k: Primitives, c: Config, tid: nat, o: Oracle)
    requires k.Valid() && Inv(k, c) && Enabled(k, c, Run(tid, o)) && AllRegistered(k, c)
    ensures AllRegistered(k, Apply(k, c, Run(tid, o)))
  {
    var c' := Apply(k, c, Run(tid, o));
    RunGrows(k, c, tid, o);
    RunIsAfter(k, c, tid, o);
    StepAnswers(k, c.w, c.threads[tid], o);
    if c.threads[tid].request.RegisterClient? { NewClientOk(k, c.threads[tid].request.client, o); }
    hide Inv, Enabled, Apply, Advance, Note, Grows, CreatedOk, NewClient;
    forall id | id in c'.w.clients ensures exists tid :: RegisteredBy(k, c', id, tid) {
      if id in c.w.clients && (c'.w.clients == c.w.clients || id != o.uuid) {
        var author :| RegisteredBy(k, c, id, author);
        RegisteredGrows(k, c, c', id, author);
      } else {
        assert RegisteredBy(k, c', id, tid);
      }
    }
  }

  lemma ActionRegistered(k: Primitives, c: Config, a: Action)
    requires k.Valid() && Inv(k, c) && Enabled(k, c, a) && AllRegistered(k, c)
    ensures AllRegistered(k, Apply(k, c, a))
  {
    if a.Run? {
      RunRegistered(k, c, a.tid, a.oracle);
    } else {
      var c' := Apply(k, c, a);
      assert Grows(c, c') && c'.w.clients == c.w.clients;
      hide Inv, Enabled, Apply, Grows, RegisteredBy;
      forall id | id in c'.w.clients ensures exists tid :: RegisteredBy(k, c', id, tid) {
        var author :| RegisteredBy(k, c, id, author);
        RegisteredGrows(k, c, c', id, author);
      }
    }
  }

  lemma {:induction false} RunsRegistered(k: Primitives, c: Config, actions: seq<Action>)
    requires k.Valid() && Inv(k, c) && CanRun(k, c, actions) && AllRegistered(k, c)
    ensures AllRegistered(k, Exec(k, c, actions))
    decreases |actions|
  {
    hide Inv, Enabled, Apply, AllRegistered;
    if actions != [] {
      ActionInv(k, c, actions[0]);
      ActionRegistered(k, c, actions[0]);
      RunsRegistered(k, Apply(k, c, actions[0]), actions[1..]);
    }
  }

  /** In every run, every stored client comes from a finished registration, has only supported grant
      types, and has an empty secret hash exactly when it was registered as public. */
  lemma {:induction false} EveryClient(k: Primitives, now: int, actions: seq<Action>, id: string)
    requires k.Valid() && CanRun(k, Initial(now), actions)
    requires id in Exec(k, Initial(now), actions).w.clients
    ensures var c := Exec(k, Initial(now), actions);
            && (forall g :: g in c.w.clients[id].grantTypes ==> g == "authorization_code" || g == "refresh_token")
            && exists tid :: RegisteredBy(k, c, id, tid)
                             && (c.threads[tid].request.client.isPublic <==> c.w.clients[id].secretHash == "")
  {
    var c := Exec(k, Initial(now), actions);
    InitialInv(k, now);
    ReachableInv(k, now, actions);
    RunsRegistered(k, Initial(now), actions);
    assert ClientOk(c, id);
    var tid :| RegisteredBy(k, c, id, tid);
  }

  // ---------------------------------------------------------------- the secret

  /** The secret of a finished registration, at any later time in any run, authenticates its client:
      an exchange presenting it gets past the client check unless the lookup itself fails. A secret
      that the stored hash does not match never does; and a public client passes with any secret. */
  lemma {:induction false} CreatedClientAuthenticates(k: Primitives, now: int, actions: seq<Action>, tid: nat,
                                                      t: Thread, o: Oracle)
    requires k.Valid() && CanRun(k, Initial(now), actions)
    requires var c := Exec(k, Initial(now), actions);
             tid in c.threads && c.threads[tid].pc.Done? && c.threads[tid].pc.outcome.ClientCreated?
    requires t.request.Exchange? && t.pc == GrantAt(FindClient) && !o.fail
    requires t.request.token.clientID ==
             Exec(k, Initial(now), actions).threads[tid].pc.outcome.created.clientID
    ensures var c := Exec(k, Initial(now), actions);
            var created := c.threads[tid].pc.outcome.created;
            && created.clientID in c.w.clients
            && var client, secret := c.w.clients[created.clientID], t.request.token.clientSecret;
               var pc' := Advance(k, c.w, t.request, t.pc, o).1;
               && (pc' == GrantAt(ConsumeCode(client)) <==>
                     created.clientSecret == "" || k.matches(client.secretHash, secret))
               && (pc' != GrantAt(ConsumeCode(client)) ==> pc' == Fail(InvalidClient))
               && (secret == created.clientSecret ==> pc' == GrantAt(ConsumeCode(client)))
               && (created.clientSecret != "" ==> |created.clientSecret| == 43)
  {
    var c := Exec(k, Initial(now), actions);
    ReachableInv(k, now, actions);
    assert ThreadOk(k, c, tid, c.threads[tid]);
    hide Inv, ThreadOk;
  }
}
