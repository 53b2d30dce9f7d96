/** What one step of one request does to the shared state, and that the store and the tables stay in
    order. */
module Effects {
  import opened Entities
  import opened Crypto
  import opened Store
  import opened Tables
  import opened Protocol
  import opened Machine

  predicate TriesCode(t: Thread, o: Oracle) {
    t.pc.GrantAt? && t.pc.grant.ConsumeCode? && !o.fail
  }

  predicate EndsSession(t: Thread, o: Oracle) {
    t.pc.LogoutAt? && t.request.sessionID != "" && !o.fail
  }

  /** The store after a step: five kinds of step touch it, each at one key. */
  function EntriesAfter(w: World, t: Thread, o: Oracle, pc': Pc): Entries {
    if Stores(t, pc') then
      Put(w.entries, SessionKey(t.pc.login.id), SessionPayload(t.pc.login.session), SESSION_TTL, w.now)
    else if Grants(t, pc') then
      Put(w.entries, CodeKey(t.pc.authorize.code), CodePayload(t.pc.authorize.data), AUTH_CODE_TTL, w.now)
    else if TriesCode(t, o) then w.entries - {CodeKey(t.request.token.code)}
    else if EndsSession(t, o) then w.entries - {SessionKey(t.request.sessionID)}
    else w.entries
  }

  lemma StepEntries(k: Primitives, w: World, t: Thread, o: Oracle)
    ensures var (w', pc') := Advance(k, w, t.request, t.pc, o);
            w'.entries == EntriesAfter(w, t, o, pc')
  {
    hide Put, Find;
    match t.pc
    case GrantAt(g) =>
    case AuthorizeAt(a) =>
    case LoginAt(l) =>
    case LogoutAt =>
    case RefreshAt(r) =>
    case RegisterAt(r) =>
    case RegisterClientAt =>
    case Done(_) =>
  }

  /** Only a completed registration inserts a user, and only when the email is not in use. */
  lemma StepUsers(k: Primitives, w: World, t: Thread, o: Oracle)
    ensures var (w', pc') := Advance(k, w, t.request, t.pc, o);
            && (Enrols(t, pc') ==>
                  var u := t.pc.register.user;
                  u.id !in w.users && !EmailInUse(w.users, u.email) && w'.users == w.users[u.id := u]
                  && pc' == Done(Registered(u)))
            && (!Enrols(t, pc') ==> w'.users == w.users)
  {
    match t.pc
    case GrantAt(g) =>
    case AuthorizeAt(a) =>
    case LoginAt(l) =>
    case LogoutAt =>
    case RefreshAt(r) =>
    case RegisterAt(r) =>
    case RegisterClientAt =>
    case Done(_) =>
  }

  /** Only a completed redemption inserts a refresh row, and only for a user that exists. */
  lemma StepRows(k: Primitives, w: World, t: Thread, o: Oracle)
    ensures var (w', pc') := Advance(k, w, t.request, t.pc, o);
            && (Mints(t, pc') ==>
                  var row := MintedRow(k, t, o);
                  o.uuid !in w.refreshTokens && row.userID in w.users
                  && w'.refreshTokens == w.refreshTokens[o.uuid := row])
            && (!Mints(t, pc') ==> w'.refreshTokens == w.refreshTokens)
  {
    match t.pc
    case GrantAt(g) =>
    case AuthorizeAt(a) =>
    case LoginAt(l) =>
    case LogoutAt =>
    case RefreshAt(r) =>
    case RegisterAt(r) =>
    case RegisterClientAt =>
    case Done(_) =>
  }

  lemma {:induction false} NoOffenceMeansSupported(grantTypes: seq<string>, isPublic: bool)
    requires FirstOffence(grantTypes, isPublic).None?
    ensures forall g :: g in grantTypes ==> SupportedGrantType(g)
  {
    if grantTypes != [] {
      NoOffenceMeansSupported(grantTypes[1..], isPublic);
    }
  }

  /** Only a registration adds a client, at a fresh id and with supported grant types. */
  lemma StepClients(k: Primitives, w: World, t: Thread, o: Oracle)
    ensures var (w', pc') := Advance(k, w, t.request, t.pc, o);
            || w'.clients == w.clients
            || (t.pc.RegisterClientAt? && o.uuid !in w.clients &&
                var client := NewClient(k, t.request.client, o).0;
                w'.clients == w.clients[o.uuid := client] && client.id == o.uuid &&
                forall g :: g in client.grantTypes ==> SupportedGrantType(g))
  {
    if t.pc.RegisterClientAt? && FirstOffence(t.request.client.grantTypes, t.request.client.isPublic).None? {
      NoOffenceMeansSupported(t.request.client.grantTypes, t.request.client.isPublic);
    }
    match t.pc
    case GrantAt(g) =>
    case AuthorizeAt(a) =>
    case LoginAt(l) =>
    case LogoutAt =>
    case RefreshAt(r) =>
    case RegisterAt(r) =>
    case RegisterClientAt =>
    case Done(_) =>
  }
}
