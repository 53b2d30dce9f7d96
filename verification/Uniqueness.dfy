/** The column of token hashes works as an index by raw token, although the schema does not declare it
    unique; and emails stay unique although two registrations can both pass the lookup. */
module Uniqueness {
  import opened Entities
  import opened Crypto
  import opened Tables
  import opened Protocol
  import opened Machine
  import opened Invariants
  import opened Safety

  // ---------------------------------------------------------------- token hashes

  lemma HashesDistinct(k: Primitives, c: Config, id: string, id': string)
    requires Inv(k, c) && id in c.w.refreshTokens && id' in c.w.refreshTokens
    requires c.w.refreshTokens[id].tokenHash == c.w.refreshTokens[id'].tokenHash
    ensures id == id'
  {
    assert RowOk(c, id) && RowOk(c, id');
    assert MintOk(k, c, c.h.rowOwner[id]) && MintOk(k, c, c.h.rowOwner[id']);
  }

  /** Looking up the hash of a raw token that some request returned finds exactly the row stored for
      that token, or nothing once that row is gone, through any creates, revocations and deletions. */
  lemma {:induction false} LookupByRawToken(k: Primitives, now: int, actions: seq<Action>, tid: nat, pick: string)
    requires k.Valid() && CanRun(k, Initial(now), actions)
    requires var c := Exec(k, Initial(now), actions);
             && tid in c.threads && c.threads[tid].pc.Done? && c.threads[tid].pc.outcome.Tokens?
             && ValidPick(c.w.refreshTokens, HashToken(k, c.threads[tid].pc.outcome.tokens.refreshToken), pick)
    ensures var c := Exec(k, Initial(now), actions);
            var found := RowByHash(c.w.refreshTokens, HashToken(k, c.threads[tid].pc.outcome.tokens.refreshToken),
                                   pick);
            && tid in c.h.minted
            && var id := c.h.minted[tid].row.id;
               && (found.Some? <==> id in c.w.refreshTokens)
               && (found.Some? ==> found.value == c.w.refreshTokens[id] && found.value.id == id)
  {
    var c := Exec(k, Initial(now), actions);
    ReachableInv(k, now, actions);
    assert ThreadOk(k, c, tid, c.threads[tid]);
    assert MintOk(k, c, tid);
    var id, raw := c.h.minted[tid].row.id, c.threads[tid].pc.outcome.tokens.refreshToken;
    assert RowOk(c, id) && RowOk(c, pick);
    if pick in c.w.refreshTokens && c.w.refreshTokens[pick].tokenHash == HashToken(k, raw) {
      assert MintOk(k, c, c.h.rowOwner[pick]);
    }
  }

  /** A presented string that finds a row is the raw token of that row, unless the digest collides on
      the two. */
  lemma OnlyTheRawTokenFinds(k: Primitives, c: Config, raw: string, id: string)
    requires k.Valid() && Inv(k, c) && id in c.w.refreshTokens
    requires c.w.refreshTokens[id].tokenHash == HashToken(k, raw)
    ensures id in c.h.rowOwner && c.h.rowOwner[id] in c.h.minted
    ensures var issued := c.h.minted[c.h.rowOwner[id]].response.refreshToken;
            k.sha256(issued) == k.sha256(raw) && (raw in c.h.used ==> raw == issued)
  {
    assert RowOk(c, id);
    var minter := c.h.rowOwner[id];
    assert MintOk(k, c, minter);
    HashTokenSeparates(k, raw, c.h.minted[minter].response.refreshToken);
  }

  // ---------------------------------------------------------------- emails

  /** In every run, with any number of registrations between their lookups and insertions, the emails of
      the stored users are pairwise distinct. */
  lemma {:induction false} EmailsStayDistinct(k: Primitives, now: int, actions: seq<Action>)
    requires k.Valid() && CanRun(k, Initial(now), actions)
    ensures EmailsDistinct(Exec(k, Initial(now), actions).w.users)
  {
    ReachableInv(k, now, actions);
  }

  /** Of all registrations of one email whose users have not been deleted only one has succeeded. */
  lemma {:induction false} OneRegistrationPerEmail(k: Primitives, now: int, actions: seq<Action>, tid: nat, tid': nat,
                                                   u: User, u': User)
    requires k.Valid() && CanRun(k, Initial(now), actions)
    requires var c := Exec(k, Initial(now), actions);
             && tid in c.threads && c.threads[tid].pc == Done(Registered(u)) && u.id in c.w.users
             && tid' in c.threads && c.threads[tid'].pc == Done(Registered(u')) && u'.id in c.w.users
             && u.email == u'.email
    ensures tid == tid' && u == u'
  {
    var c := Exec(k, Initial(now), actions);
    ReachableInv(k, now, actions);
    assert ThreadOk(k, c, tid, c.threads[tid]) && ThreadOk(k, c, tid', c.threads[tid']);
    assert UserOk(c, u.id) && UserOk(c, u'.id);
  }

  /** The lookup alone would not do: two registrations of a free email both pass it, and it is the
      unique column that lets the first insertion succeed and makes the second fail. */
  lemma RaceIsDecidedByTheTable(k: Primitives, w: World, email: string, password: string, password': string,
                                o: Oracle, o': Oracle, p: Oracle, p': Oracle)
    requires !EmailInUse(w.users, email)
    requires Utf8Length(password) <= BCRYPT_LIMIT && Utf8Length(password') <= BCRYPT_LIMIT
    requires !o.fail && !o'.fail && !p.fail && !p'.fail
    requires o.uuid !in w.users && o'.uuid !in w.users && o.uuid != o'.uuid
    ensures var first, second := Register(email, password), Register(email, password');
            var (w1, at1) := Advance(k, w, first, Start(first), o);
            var (w2, at2) := Advance(k, w1, second, Start(second), o');
            && at1.RegisterAt? && at1.register.StoreUser? && at2.RegisterAt? && at2.register.StoreUser?
            && var (w3, end1) := Advance(k, w2, first, at1, p);
               var (w4, end2) := Advance(k, w3, second, at2, p');
               && end1 == Done(Registered(at1.register.user)) && end2 == Fail(Infrastructure)
               && w4.users == w.users[o.uuid := at1.register.user] && at1.register.user.email == email
  {
    UserByEmailFinds(w.users, email);
    var u := User(o.uuid, email, k.hash(password, o.salt));
    assert w.users[o.uuid := u][o.uuid].email == email;
  }
}
