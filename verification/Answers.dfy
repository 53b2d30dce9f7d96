/** Every request is answered in kind, or with an error. */
module Answers {
  import opened Crypto
  import opened Store
  import opened Tables
  import opened Protocol
  import opened Machine
  import opened Growth

  predicate Fitting(request: Request, outcome: Outcome) {
    outcome.Failed? ||
    match request
    case Exchange(_) => outcome.Tokens?
    case Authorize(_, _) => outcome.Authorized?
    case Login(_, _) => outcome.LoggedIn?
    case Logout(_) => outcome.LoggedOut?
    case Refresh(_) => outcome.Refreshed?
    case Register(_, _) => outcome.Registered?
    case RegisterClient(_) => outcome.ClientCreated?
  }

  predicate Answered(t: Thread) {
    t.pc.Done? ==> Fitting(t.request, t.pc.outcome)
  }

  ghost predicate AllAnswered(c: Config) {
    forall tid :: tid in c.threads ==> Answered(c.threads[tid])
  }

  lemma StepAnswered(k: Primitives, w: World, t: Thread, o: Oracle)
    requires Answered(t)
    ensures var pc' := Advance(k, w, t.request, t.pc, o).1;
            pc'.Done? ==> Fitting(t.request, pc'.outcome)
  {
    hide Find, Bound, Authenticates, FirstOffence, NewClient, UserByEmail;
    match t.pc
    case GrantAt(g) =>
    case AuthorizeAt(a) =>
    case LoginAt(l) =>
    case LogoutAt =>
    case RefreshAt(r) =>
    case RegisterAt(r) =>
    case RegisterClientAt =>
    case Done(_) =>
  }

  lemma ActionAnswered(k: Primitives, c: Config, a: Action)
    requires Enabled(k, c, a) && AllAnswered(c)
    ensures AllAnswered(Apply(k, c, a))
  {
    if a.Run? {
      StepAnswered(k, c.w, c.threads[a.tid], a.oracle);
      RunIsAfter(k, c, a.tid, a.oracle);
      hide Enabled, Apply, Advance, Note, Fitting;
    }
  }

  lemma {:induction false} RunsAnswered(k: Primitives, c: Config, actions: seq<Action>)
    requires CanRun(k, c, actions) && AllAnswered(c)
    ensures AllAnswered(Exec(k, c, actions))
    decreases |actions|
  {
    hide Enabled, Apply, AllAnswered;
    if actions != [] {
      ActionAnswered(k, c, actions[0]);
      RunsAnswered(k, Apply(k, c, actions[0]), actions[1..]);
    }
  }
}
