/** The key/value store behind `internal/cache`: one flat key space with expiry, shared by sessions
    and authorization codes. */
module Store {
  import opened Prelude
  import opened Entities

  /** What a value decodes to; JSON is taken to be faithful. */
  datatype Payload = SessionPayload(session: Session) | CodePayload(authCode: AuthCode)

  datatype Entry = Entry(payload: Payload, expiresAt: Option<int>)

  type Entries = map<string, Entry>

  /** A key is served up to and including its expiry instant. */
  predicate Live(e: Entry, now: int) {
    e.expiresAt.None? || now <= e.expiresAt.value
  }

  /** `ttl == 0` stores without expiry. */
  function Put(m: Entries, key: string, payload: Payload, ttl: nat, now: int): Entries {
    m[key := Entry(payload, if ttl == 0 then None else Some(now + ttl))]
  }

  function Find(m: Entries, key: string, now: int): Option<Payload> {
    if key in m && Live(m[key], now) then Some(m[key].payload) else None
  }

  const SESSION_PREFIX := "session:"
  const CODE_PREFIX := "authcode:"

  function SessionKey(id: string): string { SESSION_PREFIX + id }
  function CodeKey(code: string): string { CODE_PREFIX + code }

  predicate IsSessionKey(key: string) { SESSION_PREFIX <= key }
  predicate IsCodeKey(key: string) { CODE_PREFIX <= key }

  function SessionID(key: string): string
    requires IsSessionKey(key)
  {
    key[|SESSION_PREFIX|..]
  }

  function CodeOf(key: string): string
    requires IsCodeKey(key)
  {
    key[|CODE_PREFIX|..]
  }

  /** The prefixes keep the two kinds apart for every caller-supplied id, and lose nothing of it. */
  lemma KeysApart(id: string, code: string)
    ensures SessionKey(id) != CodeKey(code)
    ensures IsSessionKey(SessionKey(id)) && SessionID(SessionKey(id)) == id
    ensures IsCodeKey(CodeKey(code)) && CodeOf(CodeKey(code)) == code
    ensures !IsCodeKey(SessionKey(id)) && !IsSessionKey(CodeKey(code))
    ensures SessionKey(id) == "session:" + id && CodeKey(code) == "authcode:" + code
  {
    assert SessionKey(id)[0] == 's' && CodeKey(code)[0] == 'a';
    assert SESSION_PREFIX[0] == 's' && CODE_PREFIX[0] == 'a';
  }

  lemma KeyOfPart(key: string)
    ensures IsSessionKey(key) ==> SessionKey(SessionID(key)) == key
    ensures IsCodeKey(key) ==> CodeKey(CodeOf(key)) == key
  {}

  // ---------------------------------------------------------------- two typed maps, expired eagerly

  datatype Held<T> = Held(value: T, expiresAt: Option<int>)

  type Sessions = map<string, Held<Session>>
  type Codes = map<string, Held<AuthCode>>

  /** Session keys hold sessions and code keys hold codes. */
  ghost predicate Typed(m: Entries) {
    forall key :: key in m ==>
      && (IsSessionKey(key) ==> m[key].payload.SessionPayload?)
      && (IsCodeKey(key) ==> m[key].payload.CodePayload?)
  }

  ghost predicate HoldsSession(m: Entries, now: int, id: string) {
    var key := SessionKey(id);
    key in m && Live(m[key], now) && m[key].payload.SessionPayload?
  }

  ghost predicate HoldsCode(m: Entries, now: int, code: string) {
    var key := CodeKey(code);
    key in m && Live(m[key], now) && m[key].payload.CodePayload?
  }

  /** The live sessions, by id. */
  ghost function SessionsOf(m: Entries, now: int): Sessions {
    var ids := set key | key in m && IsSessionKey(key) :: SessionID(key);
    map id | id in ids && HoldsSession(m, now, id)
      :: Held(m[SessionKey(id)].payload.session, m[SessionKey(id)].expiresAt)
  }

  /** The live authorization codes, by code. */
  ghost function CodesOf(m: Entries, now: int): Codes {
    var codes := set key | key in m && IsCodeKey(key) :: CodeOf(key);
    map code | code in codes && HoldsCode(m, now, code)
      :: Held(m[CodeKey(code)].payload.authCode, m[CodeKey(code)].expiresAt)
  }

  lemma SessionsOfAt(m: Entries, now: int, id: string)
    ensures id in SessionsOf(m, now) <==> HoldsSession(m, now, id)
    ensures HoldsSession(m, now, id) ==>
              SessionsOf(m, now)[id] == Held(m[SessionKey(id)].payload.session, m[SessionKey(id)].expiresAt)
  {
    KeysApart(id, id);
    if SessionKey(id) in m {
      var ids := set key | key in m && IsSessionKey(key) :: SessionID(key);
      assert SessionID(SessionKey(id)) in ids;
    }
  }

  lemma CodesOfAt(m: Entries, now: int, code: string)
    ensures code in CodesOf(m, now) <==> HoldsCode(m, now, code)
    ensures HoldsCode(m, now, code) ==>
              CodesOf(m, now)[code] == Held(m[CodeKey(code)].payload.authCode, m[CodeKey(code)].expiresAt)
  {
    KeysApart(code, code);
    if CodeKey(code) in m {
      var codes := set key | key in m && IsCodeKey(key) :: CodeOf(key);
      assert CodeOf(CodeKey(code)) in codes;
    }
  }

  ghost function Unexpired<T>(m: map<string, Held<T>>, now: int): map<string, Held<T>> {
    map x | x in m && (m[x].expiresAt.None? || now <= m[x].expiresAt.value) :: m[x]
  }

  /** Lookups see exactly the typed maps. */
  lemma FindIsTypedLookup(m: Entries, now: int, id: string)
    requires Typed(m)
    ensures Find(m, SessionKey(id), now) ==
            if id in SessionsOf(m, now) then Some(SessionPayload(SessionsOf(m, now)[id].value)) else None
    ensures Find(m, CodeKey(id), now) ==
            if id in CodesOf(m, now) then Some(CodePayload(CodesOf(m, now)[id].value)) else None
  {
    KeysApart(id, id);
    SessionsOfAt(m, now, id);
    CodesOfAt(m, now, id);
  }

  /** Storing a session writes one binding of the session map and nothing else. */
  lemma PutSession(m: Entries, now: int, id: string, s: Session, ttl: nat)
    requires Typed(m) && ttl > 0
    ensures var m' := Put(m, SessionKey(id), SessionPayload(s), ttl, now);
            && Typed(m')
            && SessionsOf(m', now) == SessionsOf(m, now)[id := Held(s, Some(now + ttl))]
            && CodesOf(m', now) == CodesOf(m, now)
  {
    hide SessionsOf, CodesOf, SessionKey, CodeKey, IsSessionKey, IsCodeKey, SessionID, CodeOf;
    var m' := Put(m, SessionKey(id), SessionPayload(s), ttl, now);
    KeysApart(id, id);
    forall x ensures x in SessionsOf(m', now) <==> x == id || x in SessionsOf(m, now)
             ensures x in SessionsOf(m', now) && x != id ==> SessionsOf(m', now)[x] == SessionsOf(m, now)[x]
             ensures id in SessionsOf(m', now) && SessionsOf(m', now)[id] == Held(s, Some(now + ttl))
             ensures x in CodesOf(m', now) <==> x in CodesOf(m, now)
             ensures x in CodesOf(m', now) ==> CodesOf(m', now)[x] == CodesOf(m, now)[x]
    {
      KeysApart(x, x); KeysApart(id, x);
      SessionsOfAt(m', now, x); SessionsOfAt(m, now, x); SessionsOfAt(m', now, id);
      CodesOfAt(m', now, x); CodesOfAt(m, now, x);
    }
  }

  /** Storing a code writes one binding of the code map and nothing else. */
  lemma PutCode(m: Entries, now: int, code: string, a: AuthCode, ttl: nat)
    requires Typed(m) && ttl > 0
    ensures var m' := Put(m, CodeKey(code), CodePayload(a), ttl, now);
            && Typed(m')
            && CodesOf(m', now) == CodesOf(m, now)[code := Held(a, Some(now + ttl))]
            && SessionsOf(m', now) == SessionsOf(m, now)
  {
    hide SessionsOf, CodesOf, SessionKey, CodeKey, IsSessionKey, IsCodeKey, SessionID, CodeOf;
    var m' := Put(m, CodeKey(code), CodePayload(a), ttl, now);
    KeysApart(code, code);
    forall x ensures x in CodesOf(m', now) <==> x == code || x in CodesOf(m, now)
             ensures x in CodesOf(m', now) && x != code ==> CodesOf(m', now)[x] == CodesOf(m, now)[x]
             ensures code in CodesOf(m', now) && CodesOf(m', now)[code] == Held(a, Some(now + ttl))
             ensures x in SessionsOf(m', now) <==> x in SessionsOf(m, now)
             ensures x in SessionsOf(m', now) ==> SessionsOf(m', now)[x] == SessionsOf(m, now)[x]
    {
      KeysApart(x, x); KeysApart(x, code);
      CodesOfAt(m', now, x); CodesOfAt(m, now, x); CodesOfAt(m', now, code);
      SessionsOfAt(m', now, x); SessionsOfAt(m, now, x);
    }
  }

  /** Deleting a session key removes one binding of the session map and nothing else. */
  lemma DropSession(m: Entries, now: int, id: string)
    requires Typed(m)
    ensures var m' := m - {SessionKey(id)};
            && Typed(m')
            && SessionsOf(m', now) == SessionsOf(m, now) - {id}
            && CodesOf(m', now) == CodesOf(m, now)
  {
    hide SessionsOf, CodesOf, SessionKey, CodeKey, IsSessionKey, IsCodeKey, SessionID, CodeOf;
    var m' := m - {SessionKey(id)};
    forall x ensures x in SessionsOf(m', now) <==> x != id && x in SessionsOf(m, now)
             ensures x in SessionsOf(m', now) ==> SessionsOf(m', now)[x] == SessionsOf(m, now)[x]
             ensures x in CodesOf(m', now) <==> x in CodesOf(m, now)
             ensures x in CodesOf(m', now) ==> CodesOf(m', now)[x] == CodesOf(m, now)[x]
    {
      KeysApart(x, x); KeysApart(id, x);
      SessionsOfAt(m', now, x); SessionsOfAt(m, now, x);
      CodesOfAt(m', now, x); CodesOfAt(m, now, x);
    }
  }

  /** Consuming a code key removes one binding of the code map and nothing else. */
  lemma DropCode(m: Entries, now: int, code: string)
    requires Typed(m)
    ensures var m' := m - {CodeKey(code)};
            && Typed(m')
            && CodesOf(m', now) == CodesOf(m, now) - {code}
            && SessionsOf(m', now) == SessionsOf(m, now)
  {
    hide SessionsOf, CodesOf, SessionKey, CodeKey, IsSessionKey, IsCodeKey, SessionID, CodeOf;
    var m' := m - {CodeKey(code)};
    forall x ensures x in CodesOf(m', now) <==> x != code && x in CodesOf(m, now)
             ensures x in CodesOf(m', now) ==> CodesOf(m', now)[x] == CodesOf(m, now)[x]
             ensures x in SessionsOf(m', now) <==> x in SessionsOf(m, now)
             ensures x in SessionsOf(m', now) ==> SessionsOf(m', now)[x] == SessionsOf(m, now)[x]
    {
      KeysApart(x, x); KeysApart(x, code);
      CodesOfAt(m', now, x); CodesOfAt(m, now, x);
      SessionsOfAt(m', now, x); SessionsOfAt(m, now, x);
    }
  }

  /** The store expires lazily; seen through the typed maps, time passing drops what has expired. */
  lemma TimePasses(m: Entries, now: int, later: int)
    requires now <= later
    ensures SessionsOf(m, later) == Unexpired(SessionsOf(m, now), later)
    ensures CodesOf(m, later) == Unexpired(CodesOf(m, now), later)
  {
    hide SessionsOf, CodesOf, SessionKey, CodeKey, IsSessionKey, IsCodeKey, SessionID, CodeOf;
    var s, c := Unexpired(SessionsOf(m, now), later), Unexpired(CodesOf(m, now), later);
    forall x ensures x in SessionsOf(m, later) <==> x in s
             ensures x in s ==> SessionsOf(m, later)[x] == s[x]
             ensures x in CodesOf(m, later) <==> x in c
             ensures x in c ==> CodesOf(m, later)[x] == c[x]
    {
      SessionsOfAt(m, later, x); SessionsOfAt(m, now, x);
      CodesOfAt(m, later, x); CodesOfAt(m, now, x);
    }
  }

  // ---------------------------------------------------------------- at most one taker

  /** The commands that touch a key. */
  datatype Command =
    | Set(key: string, payload: Payload, ttl: nat, now: int)
    | Get(key: string, now: int)
    | GetDel(key: string, now: int)
    | Del(keys: set<string>)

  function Execute(m: Entries, c: Command): Entries {
    match c
    case Set(key, payload, ttl, now) => Put(m, key, payload, ttl, now)
    case Get(_, _) => m
    case GetDel(key, _) => m - {key}
    case Del(keys) => m - keys
  }

  function Sets(commands: seq<Command>, key: string): nat {
    if commands == [] then 0
    else (if commands[0].Set? && commands[0].key == key then 1 else 0) + Sets(commands[1..], key)
  }

  /** How many of the commands are a GETDEL that is answered with the value of `key`. */
  function Takes(m: Entries, commands: seq<Command>, key: string): nat
    decreases |commands|
  {
    if commands == [] then 0
    else
      (if commands[0].GetDel? && commands[0].key == key && Find(m, key, commands[0].now).Some? then 1 else 0)
      + Takes(Execute(m, commands[0]), commands[1..], key)
  }

  /** Each SET is answered by at most one GETDEL, whatever else happens to the store and whatever the
      clock does. */
  lemma {:induction false} EachSetIsTakenOnce(m: Entries, commands: seq<Command>, key: string)
    ensures Takes(m, commands, key) <= Sets(commands, key) + (if key in m then 1 else 0)
    decreases |commands|
  {
    if commands != [] {
      EachSetIsTakenOnce(Execute(m, commands[0]), commands[1..], key);
    }
  }
}
