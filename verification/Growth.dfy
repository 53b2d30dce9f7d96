/** Steps only add to the registry and to the past, and facts about them survive. */
module Growth {
  import opened Prelude
  import opened Crypto
  import opened Protocol
  import opened Machine
  import opened Invariants
  import Base64Url

  predicate PastConsume(pc: Pc) {
    (pc.GrantAt? ==> !pc.grant.FindClient? && !pc.grant.ConsumeCode?)
  }

  /** A request keeps its identity, moves forward, and stays finished once finished. */
  predicate Later(t: Thread, t': Thread) {
    && t'.request == t.request && t'.started == t.started
    && (t.pc.Done? ==> t' == t)
    && (PastConsume(t.pc) ==> PastConsume(t'.pc))
    && (t.pc.LoginAt? && t.pc.login.ReadCookieExpiry? ==> t'.pc == t.pc || t'.pc.Done?)
  }

  ghost predicate HistoryGrows(h: History, h': History) {
    && Extends(h.used, h'.used) && Extends(h.logins, h'.logins) && Extends(h.grants, h'.grants)
    && Extends(h.spent, h'.spent) && Extends(h.minted, h'.minted) && Extends(h.rowOwner, h'.rowOwner)
    && Extends(h.access, h'.access) && Extends(h.enrolled, h'.enrolled)
  }

  ghost predicate Grows(c: Config, c': Config) {
    && c.w.now <= c'.w.now
    && Extends(c.w.clients, c'.w.clients)
    && HistoryGrows(c.h, c'.h)
    && forall tid :: tid in c.threads ==> tid in c'.threads && Later(c.threads[tid], c'.threads[tid])
  }

  lemma ThreadGrows(k: Primitives, c: Config, c': Config, tid: nat, t: Thread)
    requires Grows(c, c') && ThreadOk(k, c, tid, t)
    ensures ThreadOk(k, c', tid, t)
  {
    match t.pc
    case GrantAt(g) => assert GrantOk(k, c', tid, t, g);
    case AuthorizeAt(a) => assert AuthorizeOk(c', tid, t, a);
    case LoginAt(l) => assert LoginStepOk(k, c', tid, t, l);
    case LogoutAt =>
    case RefreshAt(r) => assert RefreshOk(k, c', tid, t, r);
    case RegisterAt(r) => assert RegisterOk(c', tid, t, r);
    case RegisterClientAt =>
    case Done(outcome) => assert OutcomeOk(k, c', tid, t, outcome);
  }

  lemma LoginGrows(k: Primitives, c: Config, c': Config, id: string)
    requires Grows(c, c') && LoginOk(k, c, id) && id in c.h.logins
    ensures LoginOk(k, c', id)
  {}

  lemma CodeGrows(c: Config, c': Config, code: string)
    requires Grows(c, c') && CodeOk(c, code) && code in c.h.grants
    ensures CodeOk(c', code)
  {}

  lemma SpentGrows(c: Config, c': Config, code: string)
    requires Grows(c, c') && SpentOk(c, code) && code in c.h.spent
    ensures SpentOk(c', code)
  {}

  lemma MintGrows(k: Primitives, c: Config, c': Config, tid: nat)
    requires Grows(c, c') && MintOk(k, c, tid) && tid in c.h.minted
    ensures MintOk(k, c', tid)
  {}

  lemma OwnerGrows(c: Config, c': Config, id: string)
    requires Grows(c, c') && OwnerOk(c, id) && id in c.h.rowOwner
    ensures OwnerOk(c', id)
  {}

  lemma AccessGrows(k: Primitives, c: Config, c': Config, id: string)
    requires Grows(c, c') && AccessOk(k, c, id) && id in c.h.access
    ensures AccessOk(k, c', id)
  {}

  lemma EnrolGrows(c: Config, c': Config, id: string)
    requires Grows(c, c') && EnrolOk(c, id) && id in c.h.enrolled
    ensures EnrolOk(c', id)
  {}

  // ---------------------------------------------------------------- one step of one request

  /** The configuration after a step of request `tid` that yields `w'` and `pc'`. */
  function After(k: Primitives, c: Config, tid: nat, o: Oracle, w': World, pc': Pc): Config
    requires tid in c.threads && Fits(c.threads[tid].request, pc')
  {
    var t := c.threads[tid];
    var mark := if TakesMark(t.pc) then c.w.now else t.mark;
    Config(w', c.threads[tid := ThreadState(t.request, pc', t.started, mark)], Note(k, c.h, tid, t, c.w, o, pc'))
  }

  ghost function Stepped(k: Primitives, c: Config, tid: nat, o: Oracle): (World, Pc)
    requires tid in c.threads
  {
    Advance(k, c.w, c.threads[tid].request, c.threads[tid].pc, o)
  }

  lemma RunIsAfter(k: Primitives, c: Config, tid: nat, o: Oracle)
    requires Enabled(k, c, Run(tid, o))
    ensures var (w', pc') := Stepped(k, c, tid, o);
            Apply(k, c, Run(tid, o)) == After(k, c, tid, o, w', pc')
  {}

  lemma OtherStepsLeaveIt(k: Primitives, c: Config, a: Action, tid: nat)
    requires Enabled(k, c, a) && tid in c.threads && !(a.Run? && a.tid == tid)
    ensures tid in Apply(k, c, a).threads && Apply(k, c, a).threads[tid] == c.threads[tid]
  {
    if a.Run? { RunIsAfter(k, c, a.tid, a.oracle); }
    hide Advance, Note;
  }

  /** No call that the request itself makes fails. */
  predicate NoCallFails(actions: seq<Action>, tid: nat) {
    forall i :: 0 <= i < |actions| && actions[i].Run? && actions[i].tid == tid ==> !actions[i].oracle.fail
  }

  lemma RestCallsSucceed(actions: seq<Action>, tid: nat)
    requires actions != [] && NoCallFails(actions, tid)
    ensures NoCallFails(actions[1..], tid)
    ensures actions[0].Run? && actions[0].tid == tid ==> !actions[0].oracle.fail
  {
    forall i | 0 <= i < |actions[1..]| && actions[1..][i].Run? && actions[1..][i].tid == tid
      ensures !actions[1..][i].oracle.fail
    {
      assert actions[1..][i] == actions[i + 1];
    }
  }

  lemma StepIsLater(k: Primitives, c: Config, tid: nat, o: Oracle)
    requires tid in c.threads
    ensures var t, (w', pc') := c.threads[tid], Stepped(k, c, tid, o);
            && (t.pc.Done? ==> pc' == t.pc)
            && (PastConsume(t.pc) ==> PastConsume(pc'))
            && (t.pc.LoginAt? && t.pc.login.ReadCookieExpiry? ==> pc'.Done?)
            && Extends(c.w.clients, w'.clients)
  {
    var t := c.threads[tid];
    match t.pc
    case GrantAt(g) =>
    case AuthorizeAt(a) =>
    case LoginAt(l) =>
    case LogoutAt =>
    case RefreshAt(r) =>
    case RegisterAt(r) =>
    case RegisterClientAt =>
    case Done(_) =>
  }

  /** What a request is about to record was drawn by it, and is not on record yet. */
  ghost predicate NotRecorded(c: Config, tid: nat, o: Oracle, pc': Pc)
    requires tid in c.threads
  {
    var t := c.threads[tid];
    && o.uuid !in c.h.used && Base64Url.Encode(o.random) !in c.h.used
    && (Stores(t, pc') ==> t.pc.login.id !in c.h.logins)
    && (Grants(t, pc') ==> t.pc.authorize.code !in c.h.grants)
    && (Consumes(c.w, t, o) ==> t.request.token.code !in c.h.spent)
    && (Mints(t, pc') ==> tid !in c.h.minted && o.uuid !in c.h.rowOwner && t.pc.grant.claims.tokenID !in c.h.access)
    && (Refreshes(t, pc') ==> o.uuid !in c.h.access)
    && (Enrols(t, pc') ==> t.pc.register.user.id !in c.h.enrolled)
  }

  lemma CodeIsUnspent(k: Primitives, c: Config, tid: nat, o: Oracle)
    requires Inv(k, c) && tid in c.threads && Consumes(c.w, c.threads[tid], o)
    ensures c.threads[tid].request.token.code !in c.h.spent
  {
    var code := c.threads[tid].request.token.code;
    assert CodeStored(c, code) && SpentOk(c, code);
  }

  lemma MintIsNew(k: Primitives, c: Config, tid: nat, o: Oracle, pc': Pc)
    requires Inv(k, c) && Enabled(k, c, Run(tid, o)) && Mints(c.threads[tid], pc')
    ensures tid !in c.h.minted && o.uuid !in c.h.rowOwner && c.threads[tid].pc.grant.claims.tokenID !in c.h.access
  {
    assert ThreadOk(k, c, tid, c.threads[tid]);
    assert OwnerOk(c, o.uuid) && AccessOk(k, c, c.threads[tid].pc.grant.claims.tokenID) && MintOk(k, c, tid);
  }

  lemma RecordIsNew(k: Primitives, c: Config, tid: nat, o: Oracle, pc': Pc)
    requires Inv(k, c) && Enabled(k, c, Run(tid, o))
    ensures NotRecorded(c, tid, o, pc')
  {
    var t := c.threads[tid];
    if Consumes(c.w, t, o) { CodeIsUnspent(k, c, tid, o); }
    if Mints(t, pc') { MintIsNew(k, c, tid, o, pc'); }
    hide Consumes, Mints;
    assert ThreadOk(k, c, tid, t);
    if Grants(t, pc') {
      assert CodeOk(c, t.pc.authorize.code);
    } else if Stores(t, pc') {
      assert LoginOk(k, c, t.pc.login.id);
    } else if Refreshes(t, pc') {
      assert AccessOk(k, c, o.uuid);
    } else if Enrols(t, pc') {
      assert EnrolOk(c, t.pc.register.user.id);
    }
  }

  /** No row has an identifier that was never drawn. */
  lemma NewRowID(k: Primitives, c: Config, id: string)
    requires Inv(k, c) && id !in c.h.used
    ensures id !in c.w.refreshTokens
  {
    assert RowOk(c, id) && OwnerOk(c, id);
  }

  lemma NoteExtends(k: Primitives, c: Config, tid: nat, o: Oracle, pc': Pc)
    requires tid in c.threads && NotRecorded(c, tid, o, pc')
    ensures HistoryGrows(c.h, Note(k, c.h, tid, c.threads[tid], c.w, o, pc'))
  {
    hide Consumes, Stores, Grants, Mints, Refreshes, Enrols;
  }

  /** Nothing in the past is overwritten: a key written now was drawn by the request that writes it,
      and the request that wrote an existing key has finished with it. */
  lemma RunGrows(k: Primitives, c: Config, tid: nat, o: Oracle)
    requires Inv(k, c) && Enabled(k, c, Run(tid, o))
    ensures Grows(c, Apply(k, c, Run(tid, o)))
  {
    RecordIsNew(k, c, tid, o, Stepped(k, c, tid, o).1);
    hide Inv, NotRecorded, Note, Advance, HistoryGrows;
    RunIsAfter(k, c, tid, o);
    StepIsLater(k, c, tid, o);
    NoteExtends(k, c, tid, o, Stepped(k, c, tid, o).1);
  }
}
