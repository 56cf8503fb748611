/** Where the errors of the gateway come from: every failure it records and every error it returns
    is traced back to the attempt, the client or the check that reported it. */
module GatewayOrigins {
  import opened Options
  import opened GatewayState
  import opened GatewayProtocol
  import opened GatewayInvariant
  import opened GatewayTheorems

  /** The error an attempt is reported with: its own, or that of a listener that ended without. */
  predicate ErrorOf(outcome: Option<Error>, err: Error) {
    match outcome
    case Some(own) => err == own
    case None => err == LISTENER_STOPPED
  }

  ghost predicate FailuresInv(s: State) {
    forall i :: 0 <= i < |s.history| && s.history[i].Failed? ==>
      s.history[i].identity < |s.outcomes| && ErrorOf(s.outcomes[s.history[i].identity], s.history[i].err)
  }

  predicate OutcomePcInv(s: State) {
    match s.manager.pc
    case NotLaunched => |s.outcomes| == s.manager.attempt
    case Entering => |s.outcomes| == s.manager.attempt
    case Waiting(_) => |s.outcomes| == s.manager.attempt
    case Creating => |s.outcomes| == s.manager.attempt
    case Opening => |s.outcomes| == s.manager.attempt
    case Attempting => |s.outcomes| == s.manager.attempt
    case Checking(outcome) => |s.outcomes| == s.manager.attempt + 1 && s.outcomes[s.manager.attempt] == outcome
    case Reporting(err) => LastOutcome(s, err)
    case Notifying(err, _, _) => LastOutcome(s, err)
    case HandingOver(err, _, _) => LastOutcome(s, err)
    case Finishing(result) => result.Unrecoverable? ==> LastOutcome(s, result.err)
    case Finished(result) => result.Unrecoverable? ==> LastOutcome(s, result.err)
  }

  predicate LastOutcome(s: State, err: Error) {
    |s.outcomes| == s.manager.attempt + 1 && ErrorOf(s.outcomes[s.manager.attempt], err)
  }

  ghost predicate OutcomeInv(s: State) {
    OutcomePcInv(s) && FailuresInv(s)
  }

  // ---- preservation ----

  lemma OutcomeFrame(s: State, t: State)
    requires FailuresInv(s) && t.history == s.history && s.outcomes <= t.outcomes
    ensures FailuresInv(t)
  {
  }

  lemma OutcomePcKept(c: Config, s: State, a: ManagerAction)
    requires OutcomePcInv(s) && ManagerEnabled(s, a)
    ensures OutcomePcInv(ManagerStep(c, s, a))
    ensures s.outcomes <= ManagerStep(c, s, a).outcomes
  {
  }

  lemma CallKeepsFailures(s: State, t: State, call: Call)
    requires FailuresInv(s) && t.history == s.history + [call] && t.outcomes == s.outcomes
    requires call.Failed? ==> call.identity < |s.outcomes| && ErrorOf(s.outcomes[call.identity], call.err)
    ensures FailuresInv(t)
  {
  }

  lemma FailuresKeptByManager(c: Config, s: State, a: ManagerAction)
    requires OutcomeInv(s) && ManagerEnabled(s, a)
    ensures FailuresInv(ManagerStep(c, s, a))
  {
    var t := ManagerStep(c, s, a);
    if a.OpenSession? {
      CallKeepsFailures(s, t, Started(s.manager.attempt, s.manager.resume));
    } else if a.Report? {
      CallKeepsFailures(s, t, Failed(s.manager.attempt, s.manager.pc.err, a.cannotResume, a.cannotIdentify, s.now));
    } else {
      ManagerExtends(c, s, a);
      OutcomePcKept(c, s, a);
      OutcomeFrame(s, t);
    }
  }

  lemma OutcomeKeptByEnvironment(s: State, a: EnvironmentAction)
    requires OutcomeInv(s) && EnvironmentEnabled(s, a)
    ensures OutcomeInv(EnvironmentStep(s, a))
  {
    EnvironmentExtends(s, a);
    if a.Event? {
      CallKeepsFailures(s, EnvironmentStep(s, a), a.call);
    } else {
      OutcomeFrame(s, EnvironmentStep(s, a));
    }
  }

  lemma OutcomeKeptByRun(c: Config, s: State, a: RunAction)
    requires OutcomeInv(s) && ManagerInv(s) && RunEnabled(s, a)
    ensures OutcomeInv(RunStep(c, s, a))
  {
    RunExtends(c, s, a);
    OutcomeFrame(s, RunStep(c, s, a));
  }

  lemma {:induction false} OutcomesReachable(c: Config, states: seq<State>, actions: seq<Action>, k: nat)
    requires IsRun(c, states, actions) && k < |states|
    ensures OutcomeInv(states[k])
  {
    if k > 0 {
      OutcomesReachable(c, states, actions, k - 1);
      OutcomeStep(c, states, actions, k - 1);
    }
  }

  lemma OutcomeStep(c: Config, states: seq<State>, actions: seq<Action>, k: nat)
    requires IsRun(c, states, actions) && k < |actions| && OutcomeInv(states[k])
    ensures OutcomeInv(states[k + 1])
  {
    Reachable(c, states, actions, k);
    assert Moves(c, states, actions, k);
    match actions[k]
    case Environment(e) => OutcomeKeptByEnvironment(states[k], e);
    case Session(m) =>
      OutcomePcKept(c, states[k], m);
      FailuresKeptByManager(c, states[k], m);
    case Supervisor(r) => OutcomeKeptByRun(c, states[k], r);
  }

  // ---- origins ----

  /** The error of every failure on record is that of the attempt that failed. */
  lemma FailureHasOwnError(c: Config, states: seq<State>, actions: seq<Action>, k: nat, i: nat)
    requires IsRun(c, states, actions) && k < |states|
    requires i < |states[k].history| && states[k].history[i].Failed?
    ensures states[k].history[i].identity < |states[k].outcomes|
    ensures ErrorOf(states[k].outcomes[states[k].history[i].identity], states[k].history[i].err)
  {
    OutcomesReachable(c, states, actions, k);
  }

  predicate Ends(a: Action, outcome: Option<Error>) {
    a == Session(EndAttempt(outcome))
  }

  /** ... and what is on record about attempt `n` is what it ended with, in a step of its own. */
  lemma {:induction false} OutcomeIsGenuine(c: Config, states: seq<State>, actions: seq<Action>, k: nat, n: nat)
    returns (m: nat)
    requires IsRun(c, states, actions) && k < |states| && n < |states[k].outcomes|
    ensures m < k && states[m].manager.attempt == n && Ends(actions[m], states[k].outcomes[n])
  {
    m := k - 1;
    assert Moves(c, states, actions, m);
    OutcomesReachable(c, states, actions, m);
    OutcomesGrow(c, states[m], actions[m]);
    if n < |states[m].outcomes| {
      m := OutcomeIsGenuine(c, states, actions, m, n);
    }
  }

  lemma OutcomesGrow(c: Config, s: State, a: Action)
    requires Enabled(s, a) && OutcomePcInv(s)
    ensures var t := Step(c, s, a);
      || t.outcomes == s.outcomes
      || (a.Session? && a.session.EndAttempt? && t.outcomes == s.outcomes + [a.session.outcome]
          && |s.outcomes| == s.manager.attempt)
  {
    match a
    case Environment(e) => EnvironmentExtends(s, e);
    case Session(m) =>
    case Supervisor(r) => RunExtends(c, s, r);
  }

  /** A failure on record was reported in a step of the manager, with the verdicts of that step, its
      time and the attempt it was in. */
  lemma {:induction false} FailureIsReported(c: Config, states: seq<State>, actions: seq<Action>, k: nat, i: nat)
    returns (m: nat)
    requires IsRun(c, states, actions) && k < |states|
    requires i < |states[k].history| && states[k].history[i].Failed?
    ensures var h := states[k].history;
      && m < k && actions[m] == Session(Report(h[i].cannotResume, h[i].cannotIdentify))
      && h[i].identity == states[m].manager.attempt && h[i].at == states[m].now
  {
    m := k - 1;
    assert Moves(c, states, actions, m);
    HistoryGrows(c, states[m], actions[m]);
    if i < |states[m].history| {
      m := FailureIsReported(c, states, actions, m, i);
    }
  }

  lemma HistoryGrows(c: Config, s: State, a: Action)
    requires Enabled(s, a)
    ensures var t := Step(c, s, a);
      && s.history <= t.history && |t.history| <= |s.history| + 1
      && (|t.history| > |s.history| && t.history[|s.history|].Failed? ==>
            && a == Session(Report(t.history[|s.history|].cannotResume, t.history[|s.history|].cannotIdentify))
            && t.history[|s.history|].identity == s.manager.attempt && t.history[|s.history|].at == s.now)
  {
    match a
    case Environment(e) =>
    case Session(m) => ManagerExtends(c, s, m);
    case Supervisor(r) => RunExtends(c, s, r);
  }

  /** What the manager's result says about the step it was decided in. */
  predicate Explains(a: Action, result: ManagerResult) {
    match result
    case Cancelled => true
    case Misconfigured(err) => a == Session(Enter(Some(err)))
    case NoClient(err) => a == Session(Create(Some(err)))
    case Unrecoverable(_) => a == Session(HandOver)
  }

  function ResultAt(pc: ManagerPc): Option<ManagerResult> {
    match pc
    case Finishing(result) => Some(result)
    case Finished(result) => Some(result)
    case _ => None
  }

  /** The manager's result carries the error of the refused argument or of the client that could not
      be created; a failure for good that of the last attempt. */
  lemma {:induction false} ResultHasOwnError(c: Config, states: seq<State>, actions: seq<Action>, k: nat)
    returns (m: nat)
    requires IsRun(c, states, actions) && k < |states| && ResultAt(states[k].manager.pc).Some?
    ensures m < k && Explains(actions[m], ResultAt(states[k].manager.pc).value)
    ensures ResultAt(states[k].manager.pc).value.Unrecoverable? ==>
      LastOutcome(states[k], ResultAt(states[k].manager.pc).value.err)
  {
    OutcomesReachable(c, states, actions, k);
    m := k - 1;
    assert Moves(c, states, actions, m);
    ResultStep(c, states[m], actions[m]);
    if ResultAt(states[m].manager.pc).Some? {
      m := ResultHasOwnError(c, states, actions, m);
    }
  }

  lemma ResultStep(c: Config, s: State, a: Action)
    requires Enabled(s, a) && ResultAt(Step(c, s, a).manager.pc).Some?
    ensures ResultAt(Step(c, s, a).manager.pc) == ResultAt(s.manager.pc)
         || (ResultAt(s.manager.pc).None? && Explains(a, ResultAt(Step(c, s, a).manager.pc).value))
  {
    if a.Session? {
      ManagerResultStep(c, s, a.session);
    } else {
      OthersKeepManager(c, s, a);
    }
  }

  lemma ManagerResultStep(c: Config, s: State, a: ManagerAction)
    requires ManagerEnabled(s, a) && ResultAt(ManagerStep(c, s, a).manager.pc).Some?
    ensures var result := ResultAt(ManagerStep(c, s, a).manager.pc);
      result == ResultAt(s.manager.pc) || (ResultAt(s.manager.pc).None? && Explains(Session(a), result.value))
  {
  }

  /** What `Run`'s exit says about the rest of the run. */
  ghost predicate ExitExplained(states: seq<State>, actions: seq<Action>, k: nat)
    requires k < |states| && k <= |actions| && states[k].run.Returned?
  {
    match states[k].run.exit
    case SetupFailed(err) => exists m :: 0 <= m < k && actions[m] == Supervisor(Begin(Refused(err)))
    case ManagerFailed(result, _) => states[k].manager.pc == Finished(result)
    case _ => true
  }

  /** `Run` fails to set up with the error of the refusal, and reports the manager's own result. */
  lemma {:induction false} ExitHasOwnError(c: Config, states: seq<State>, actions: seq<Action>, k: nat)
    requires IsRun(c, states, actions) && k < |states| && states[k].run.Returned?
    ensures ExitExplained(states, actions, k)
  {
    var m := k - 1;
    assert Moves(c, states, actions, m);
    Reachable(c, states, actions, m);
    if states[m].run.Returned? {
      ExitHasOwnError(c, states, actions, m);
      ReturnStays(c, states[m], actions[m]);
    } else {
      ExitStep(c, states[m], actions[m]);
    }
  }

  lemma ReturnStays(c: Config, s: State, a: Action)
    requires Enabled(s, a) && s.run.Returned?
    ensures Step(c, s, a).run == s.run
    ensures s.manager.pc.Finished? ==> Step(c, s, a).manager == s.manager
  {
    match a
    case Environment(e) => EnvironmentExtends(s, e);
    case Session(m) => ManagerExtends(c, s, m);
    case Supervisor(r) =>
  }

  lemma ExitStep(c: Config, s: State, a: Action)
    requires Inv(c, s) && Enabled(s, a) && !s.run.Returned? && Step(c, s, a).run.Returned?
    ensures match Step(c, s, a).run.exit
            case SetupFailed(err) => a == Supervisor(Begin(Refused(err)))
            case ManagerFailed(result, _) => Step(c, s, a).manager.pc == Finished(result)
            case _ => true
  {
    match a
    case Environment(e) => EnvironmentExtends(s, e);
    case Session(m) => ManagerExtends(c, s, m);
    case Supervisor(r) => RunExtends(c, s, r);
  }
}
