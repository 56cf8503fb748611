/** What the composed gateway guarantees in every state of every run. */
module GatewayTheorems {
  import opened Options
  import opened GatewayState
  import opened GatewayHistory
  import opened GatewayProtocol
  import opened GatewayInvariant

  // ---- reachable states ----

  ghost predicate IsReachable(c: Config, s: State) {
    exists states, actions :: IsRun(c, states, actions) && states[|actions|] == s
  }

  lemma StepIsReachable(c: Config, s: State, a: Action)
    requires IsReachable(c, s) && Enabled(s, a)
    ensures IsReachable(c, Step(c, s, a))
  {
    var states, actions :| IsRun(c, states, actions) && states[|actions|] == s;
    var states', actions' := states + [Step(c, s, a)], actions + [a];
    forall k | 0 <= k < |actions'|
      ensures Moves(c, states', actions', k)
    {
      assert k < |actions| ==> Moves(c, states, actions, k);
    }
    assert IsRun(c, states', actions');
  }

  lemma ReachableIsSound(c: Config, s: State)
    requires IsReachable(c, s)
    ensures Inv(c, s)
  {
    var states, actions :| IsRun(c, states, actions) && states[|actions|] == s;
    Reachable(c, states, actions, |actions|);
  }

  // ---- no lost wake-up ----

  /** When the supervisor sits at its select and nothing is on its way to it, it has nothing to
      learn: no fatal error is waiting, and an outage has a timer of its own generation. That timer
      runs out exactly when the recovery timeout of the outage does, or at once if that is past,
      but for the delay between computing its duration and creating it. Sends dropped on the full
      slot never change this. */
  lemma NoLostWakeup(c: Config, states: seq<State>, actions: seq<Action>, k: nat)
    requires IsRun(c, states, actions) && k < |states|
    requires states[k].run.Idle? && Quiet(states[k])
    ensures states[k].g.fatalError.None?
    ensures states[k].g.recovering ==>
      && states[k].timer.Some?
      && states[k].generation == states[k].g.recoveryGeneration
      && var timer := states[k].timer.value;
      var due := states[k].g.disconnectedAt + if c.recoveryTimeout > 0 then c.recoveryTimeout else 30_000_000_000;
      && timer.computedAt <= timer.armedAt <= states[k].now
      && timer.deadline - timer.armedAt == if due > timer.computedAt then due - timer.computedAt else 1
  {
    Reachable(c, states, actions, k);
  }

  /** How many supervisor and notification steps can still happen once a fatal error is recorded. */
  function FatalRank(s: State): nat {
    match s.run
    case Returned(_) => 0
    case Stopping => 1
    case Deciding(_, snapshot, _, _) => if snapshot.fatalError.Some? then 2 else 7
    case Checked(_) => 3
    case Woken(_) => 4
    case Idle => 5
    case Arming(_, _, _) => 6
    case Beginning => 8
  }

  function FatalMeasure(s: State): nat {
    FatalRank(s) + s.notifiers + s.readyNotifiers + if s.manager.pc.Notifying? then 1 else 0
  }

  /** The steps that bring news to the supervisor, and its own. */
  predicate Carries(a: Action) {
    match a
    case Supervisor(_) => true
    case Session(m) => m.Notify?
    case Environment(e) => e.NotifyEvent? || e.NotifyReady?
  }

  lemma FatalRankFalls(c: Config, s: State, a: RunAction)
    requires ManagerInv(s) && RunEnabled(s, a) && s.g.fatalError.Some?
    ensures FatalRank(RunStep(c, s, a)) < FatalRank(s)
    ensures RunStep(c, s, a).manager == s.manager
  {
    if a.Act? {
      ActExtends(c, s);
    }
  }

  lemma FatalMeasureUnderRun(c: Config, s: State, a: RunAction)
    requires ManagerInv(s) && RunEnabled(s, a) && s.g.fatalError.Some?
    ensures RunStep(c, s, a).g == s.g
    ensures FatalMeasure(RunStep(c, s, a)) < FatalMeasure(s)
  {
    RunExtends(c, s, a);
    FatalRankFalls(c, s, a);
  }

  lemma FatalMeasureUnderEnvironment(s: State, a: EnvironmentAction)
    requires EnvironmentEnabled(s, a) && s.g.fatalError.Some?
    ensures EnvironmentStep(s, a).g == s.g
    ensures FatalMeasure(EnvironmentStep(s, a)) == FatalMeasure(s) - if a.NotifyEvent? || a.NotifyReady? then 1 else 0
  {
  }

  lemma FatalMeasureUnderManager(c: Config, s: State, a: ManagerAction)
    requires ManagerInv(s) && ManagerEnabled(s, a) && s.g.fatalError.Some?
    ensures ManagerStep(c, s, a).g == s.g
    ensures FatalMeasure(ManagerStep(c, s, a)) == FatalMeasure(s) - if a.Notify? then 1 else 0
  {
  }

  lemma FatalMeasureFalls(c: Config, states: seq<State>, actions: seq<Action>, k: nat)
    requires IsRun(c, states, actions) && k < |actions|
    requires states[k].g.fatalError.Some?
    ensures states[k + 1].g == states[k].g
    ensures FatalMeasure(states[k + 1]) + (if Carries(actions[k]) then 1 else 0) <= FatalMeasure(states[k])
  {
    Reachable(c, states, actions, k);
    assert Moves(c, states, actions, k);
    match actions[k]
    case Environment(e) =>
      FatalMeasureUnderEnvironment(states[k], e);
    case Session(m) =>
      FatalMeasureUnderManager(c, states[k], m);
    case Supervisor(r) =>
      FatalMeasureUnderRun(c, states[k], r);
  }

  function CarrierSteps(actions: seq<Action>, k: nat, j: nat): nat
    requires k <= j <= |actions|
  {
    if k == j then 0 else CarrierSteps(actions, k, j - 1) + if Carries(actions[j - 1]) then 1 else 0
  }

  /** A fatal error freezes the state, and only a bounded number of carrying steps can come before
      `Run` returns (rank 0), however the other parties interleave. */
  lemma {:induction false} FatalIsReported(c: Config, states: seq<State>, actions: seq<Action>, k: nat, j: nat)
    requires IsRun(c, states, actions) && k <= j < |states|
    requires states[k].g.fatalError.Some?
    ensures states[j].g == states[k].g
    ensures CarrierSteps(actions, k, j) + FatalMeasure(states[j]) <= FatalMeasure(states[k])
  {
    if k < j {
      FatalIsReported(c, states, actions, k, j - 1);
      FatalMeasureFalls(c, states, actions, j - 1);
    }
  }

  /** ... and until it returns, such a step is enabled: a fatal error is never left waiting. */
  lemma FatalIsCarried(c: Config, states: seq<State>, actions: seq<Action>, k: nat) returns (a: Action)
    requires IsRun(c, states, actions) && k < |states|
    requires states[k].g.fatalError.Some? && !states[k].run.Returned?
    ensures Carries(a) && Enabled(states[k], a)
  {
    Reachable(c, states, actions, k);
    a := NextCarrier(c, states[k]);
  }

  lemma NextCarrier(c: Config, s: State) returns (a: Action)
    requires Inv(c, s) && s.g.fatalError.Some? && !s.run.Returned?
    ensures Carries(a) && Enabled(s, a)
  {
    match s.run
    case Beginning => a := Supervisor(Begin(Launched));
    case Woken(_) => a := Supervisor(CheckContext);
    case Checked(_) => a := Supervisor(TakeSnapshot);
    case Deciding(_, _, _, _) => a := Supervisor(Act);
    case Arming(_, _, _) => a := Supervisor(Arm);
    case Stopping => a := Supervisor(StopManager);
    case Idle =>
      if s.token {
        a := Supervisor(TakeToken);
      } else if s.notifiers > 0 {
        a := Environment(NotifyEvent);
      } else if s.readyNotifiers > 0 {
        a := Environment(NotifyReady);
      } else {
        a := Session(Notify);
      }
  }

  /** Once a fatal error is recorded the manager opens no further session. */
  lemma {:induction false} NoAttemptAfterFatal(c: Config, states: seq<State>, actions: seq<Action>, k: nat, j: nat)
    requires IsRun(c, states, actions) && k <= j < |states|
    requires states[k].g.fatalError.Some?
    ensures states[j].creations == states[k].creations && states[j].g.fatalError == states[k].g.fatalError
  {
    if k < j {
      NoAttemptAfterFatal(c, states, actions, k, j - 1);
      NoAttemptInStep(c, states, actions, j - 1);
    }
  }

  lemma NoAttemptInStep(c: Config, states: seq<State>, actions: seq<Action>, k: nat)
    requires IsRun(c, states, actions) && k < |actions|
    requires states[k].g.fatalError.Some?
    ensures states[k + 1].creations == states[k].creations && states[k + 1].g == states[k].g
  {
    FatalMeasureFalls(c, states, actions, k);
    Reachable(c, states, actions, k);
    assert Moves(c, states, actions, k);
    CreationsStandStill(c, states[k], actions[k]);
  }

  lemma CreationsStandStill(c: Config, s: State, a: Action)
    requires Inv(c, s) && Enabled(s, a) && s.g.fatalError.Some?
    ensures Step(c, s, a).creations == s.creations
  {
    match a
    case Environment(e) => EnvironmentExtends(s, e);
    case Session(m) =>
    case Supervisor(r) => RunExtends(c, s, r);
  }

  /** An exit decided on a snapshot taken after a fatal error reports exactly that error. */
  lemma FatalExit(c: Config, states: seq<State>, actions: seq<Action>, k: nat, m: nat)
    requires IsRun(c, states, actions) && k < |states|
    requires states[k].run.Returned? && !states[k].run.exit.Clean? && !states[k].run.exit.SetupFailed?
    requires m <= states[k].run.exit.seen && m <= |states[k].history|
    requires Replay(states[k].history, m).fatalError.Some?
    ensures states[k].run.exit
         == CannotReconnect(Replay(states[k].history, m).fatalError.value, states[k].run.exit.seen)
  {
    Reachable(c, states, actions, k);
    FatalIsAbsorbing(states[k].history, m, states[k].run.exit.seen);
  }

  // ---- no false timeout ----

  lemma {:induction false} OutageBegan(h: seq<Call>, n: nat)
    requires n <= |h| && InOutage(h, n)
    ensures exists i: nat ::
      && i < n && StartsOutage(h, i)
      && (forall j: nat :: i < j < n ==> !Accepted(h, j) && !StartsOutage(h, j))
  {
    InOutageStep(h, n - 1);
    if !StartsOutage(h, n - 1) {
      OutageBegan(h, n - 1);
    }
  }

  lemma {:induction false} LastFailure(h: seq<Call>, i: nat, n: nat) returns (l: nat)
    requires i < n <= |h| && Fails(h, i)
    ensures i <= l < n && Fails(h, l) && forall j: nat :: l < j < n ==> !Fails(h, j)
  {
    l := n - 1;
    if !Fails(h, n - 1) {
      l := LastFailure(h, i, n - 1);
    }
  }

  /** `Run` gives up only on one unbroken outage that lasted at least the recovery timeout: at the
      time of the deciding snapshot, call `i` had begun an outage the configured timeout ago or
      earlier, or 30 s when none is configured, no event of a live session was accepted since, and the reported error is that of the latest
      failure `l`. */
  lemma NoFalseTimeout(c: Config, states: seq<State>, actions: seq<Action>, k: nat)
    returns (i: nat, l: nat)
    requires IsRun(c, states, actions) && k < |states|
    requires states[k].run.Returned? && states[k].run.exit.DidNotRecover?
    ensures var h := states[k].history;
      var DidNotRecover(lastError, at, seen) := states[k].run.exit;
      && i < seen <= |h| && at <= states[k].now
      && StartsOutage(h, i)
      && (c.recoveryTimeout > 0 ==> h[i].at + c.recoveryTimeout <= at)
      && (c.recoveryTimeout <= 0 ==> h[i].at + 30_000_000_000 <= at)
      && (forall j: nat :: i < j < seen ==> !Accepted(h, j))
      && !Doomed(h, seen)
      && i <= l < seen && Fails(h, l) && (forall j: nat :: l < j < seen ==> !Fails(h, j))
      && lastError == Some(h[l].err)
  {
    Reachable(c, states, actions, k);
    var h := states[k].history;
    var seen := states[k].run.exit.seen;
    OutageMeaning(h, seen);
    OutageBegan(h, seen);
    i :| i < seen && StartsOutage(h, i)
      && (forall j: nat :: i < j < seen ==> !Accepted(h, j) && !StartsOutage(h, j));
    OutageClock(h, seen, i);
    SessionMeaning(h, seen);
    l := LastFailure(h, i, seen);
    LastErrorMeaning(h, seen, l);
  }

  // ---- no missed timeout ----

  predicate OfOutage(g: ConnectionState, n: nat) {
    g.recovering && g.recoveryGeneration == n && g.fatalError.None?
  }

  /** Outage `n` goes on, and nobody cancelled. */
  predicate Stands(s: State, n: nat) {
    OfOutage(s.g, n) && !s.ctxDone
  }

  ghost predicate StandsFrom(states: seq<State>, k: nat, j: nat, n: nat)
    requires k <= j < |states|
  {
    forall m :: k <= m <= j ==> Stands(states[m], n)
  }

  /** The timer is that of outage `n`, running or rung, and nothing the supervisor is about to
      decide comes from before that outage. */
  predicate Watches(s: State, n: nat) {
    && s.timer.Some? && s.generation == n
    && match s.run
       case Idle => true
       case Woken(cause) => !cause.TimerFired?
       case Checked(cause) => !cause.TimerFired?
       case Deciding(cause, snapshot, _, _) => !cause.TimerFired? && OfOutage(snapshot, n)
       case _ => false
  }

  /** The supervisor took the tick of outage `n`. */
  predicate Ticked(s: State, n: nat) {
    && s.generation == n
    && match s.run
       case Woken(cause) => cause.TimerFired?
       case Checked(cause) => cause.TimerFired?
       case Deciding(cause, snapshot, _, _) => cause.TimerFired? && OfOutage(snapshot, n)
       case _ => false
  }

  /** `Run` returned the timeout of outage `n`. */
  ghost predicate GaveUp(s: State, n: nat) {
    && s.run.Returned? && s.run.exit.DidNotRecover?
    && s.run.exit.seen <= |s.history| && OfOutage(Replay(s.history, s.run.exit.seen), n)
  }

  /** How many supervisor steps are left until the timeout is returned. */
  function TickRank(run: RunPc): nat {
    match run
    case Woken(_) => 3
    case Checked(_) => 2
    case Deciding(_, _, _, _) => 1
    case _ => 0
  }

  /** The same timer, as far as anybody can tell: it keeps its deadline, and a tick stays. */
  predicate SameTimer(s: State, t: State) {
    && s.timer.Some? && t.timer.Some? && t.timer.value.deadline == s.timer.value.deadline
    && (s.timer.value.expired ==> t.timer.value.expired)
  }

  lemma WatchKeptByRun(c: Config, s: State, a: RunAction, n: nat)
    requires RunEnabled(s, a) && Stands(s, n) && Watches(s, n)
    ensures var t := RunStep(c, s, a);
      || t.run.Returned?
      || (a.TakeTimer? && Ticked(t, n))
      || (Watches(t, n) && SameTimer(s, t))
  {
  }

  lemma TickKeptByRun(c: Config, s: State, a: RunAction, n: nat)
    requires TimerInv(c, s) && RunEnabled(s, a) && Stands(s, n) && Ticked(s, n)
    ensures var t := RunStep(c, s, a);
      && TickRank(t.run) == TickRank(s.run) - 1
      && (if TickRank(t.run) == 0 then GaveUp(t, n) else Ticked(t, n))
  {
  }

  /** The others leave the supervisor and its timer alone, but for a tick. */
  lemma OthersKeepTimer(c: Config, s: State, a: Action)
    requires Enabled(s, a) && !a.Supervisor?
    ensures var t := Step(c, s, a);
      && t.run == s.run && t.generation == s.generation
      && (s.timer.Some? ==> SameTimer(s, t))
  {
    match a
    case Environment(e) => EnvironmentExtends(s, e);
    case Session(m) => ManagerExtends(c, s, m);
  }

  /** While an outage goes on its timer is never disarmed, armed anew or ignored, whoever moves: it
      stays until the supervisor takes its tick or returns. Once it rang, every select can take the
      tick. */
  lemma {:induction false} OutageIsWatched(c: Config, states: seq<State>, actions: seq<Action>, k: nat, j: nat, n: nat)
    requires IsRun(c, states, actions) && k <= j < |states|
    requires StandsFrom(states, k, j, n) && Watches(states[k], n)
    ensures states[j].run.Returned? || Ticked(states[j], n) || (Watches(states[j], n) && SameTimer(states[k], states[j]))
    ensures states[k].timer.value.expired && states[j].run.Idle? ==> RunEnabled(states[j], TakeTimer)
  {
    if k < j {
      OutageIsWatched(c, states, actions, k, j - 1, n);
      Reachable(c, states, actions, j - 1);
      assert Moves(c, states, actions, j - 1);
      WatchStep(c, states[j - 1], actions[j - 1], n);
    }
  }

  lemma WatchStep(c: Config, s: State, a: Action, n: nat)
    requires Inv(c, s) && Enabled(s, a) && Stands(s, n)
    ensures s.run.Returned? ==> Step(c, s, a).run.Returned?
    ensures Ticked(s, n) ==> Step(c, s, a).run.Returned? || Ticked(Step(c, s, a), n)
    ensures Watches(s, n) ==>
      Step(c, s, a).run.Returned? || Ticked(Step(c, s, a), n) || (Watches(Step(c, s, a), n) && SameTimer(s, Step(c, s, a)))
  {
    if !a.Supervisor? {
      OthersKeepTimer(c, s, a);
    } else if Watches(s, n) {
      WatchKeptByRun(c, s, a.supervisor, n);
    } else if Ticked(s, n) {
      TickKeptByRun(c, s, a.supervisor, n);
    }
  }

  function SupervisorSteps(actions: seq<Action>, k: nat, j: nat): nat
    requires k <= j <= |actions|
  {
    if k == j then 0 else SupervisorSteps(actions, k, j - 1) + if actions[j - 1].Supervisor? then 1 else 0
  }

  /** Once it took the tick, the supervisor's next three steps return the timeout, whatever the
      others do in between. */
  lemma {:induction false} TickIsReported(c: Config, states: seq<State>, actions: seq<Action>, k: nat, j: nat, n: nat)
    requires IsRun(c, states, actions) && k <= j < |states|
    requires StandsFrom(states, k, j, n) && Ticked(states[k], n)
    ensures if SupervisorSteps(actions, k, j) < TickRank(states[k].run)
            then Ticked(states[j], n)
              && TickRank(states[j].run) == TickRank(states[k].run) - SupervisorSteps(actions, k, j)
            else GaveUp(states[j], n)
  {
    if k < j {
      TickIsReported(c, states, actions, k, j - 1, n);
      Reachable(c, states, actions, j - 1);
      assert Moves(c, states, actions, j - 1);
      TickStep(c, states[j - 1], actions[j - 1], n);
    }
  }

  lemma TickStep(c: Config, s: State, a: Action, n: nat)
    requires Inv(c, s) && Enabled(s, a) && Stands(s, n)
    ensures GaveUp(s, n) ==> GaveUp(Step(c, s, a), n)
    ensures !a.Supervisor? && Ticked(s, n) ==> Step(c, s, a).run == s.run && Ticked(Step(c, s, a), n)
    ensures a.Supervisor? && Ticked(s, n) ==>
      var t := Step(c, s, a);
      && TickRank(t.run) == TickRank(s.run) - 1
      && (if TickRank(t.run) == 0 then GaveUp(t, n) else Ticked(t, n))
  {
    if GaveUp(s, n) {
      GaveUpStays(c, s, a, n);
    }
    if !a.Supervisor? {
      OthersKeepTimer(c, s, a);
    } else if Ticked(s, n) {
      TickKeptByRun(c, s, a.supervisor, n);
    }
  }

  lemma GaveUpStays(c: Config, s: State, a: Action, n: nat)
    requires Enabled(s, a) && GaveUp(s, n)
    ensures GaveUp(Step(c, s, a), n)
  {
    match a
    case Environment(e) => EnvironmentExtends(s, e);
    case Session(m) => ManagerExtends(c, s, m);
    case Supervisor(r) => RunExtends(c, s, r);
  }

  /** ... and it does give up. From any point at which the timer of an outage rang and the outage
      goes on, in any interleaving, every select can take the tick (`OutageIsWatched`); once one
      does, at `m`, three more steps of the supervisor return the timeout. */
  lemma OutageIsReported(c: Config, states: seq<State>, actions: seq<Action>, k: nat, m: nat, j: nat, n: nat)
    requires IsRun(c, states, actions) && k <= m < j < |states|
    requires StandsFrom(states, k, j, n) && Watches(states[k], n)
    requires actions[m] == Supervisor(TakeTimer) && SupervisorSteps(actions, m + 1, j) >= 3
    ensures GaveUp(states[j], n)
  {
    OutageIsWatched(c, states, actions, k, m, n);
    assert Moves(c, states, actions, m);
    TickIsReported(c, states, actions, m + 1, j, n);
  }

  /** A quiet supervisor at its select watches the outage that goes on. */
  lemma QuietMeansWatched(c: Config, states: seq<State>, actions: seq<Action>, k: nat)
    requires IsRun(c, states, actions) && k < |states|
    requires states[k].run.Idle? && Quiet(states[k]) && states[k].g.recovering
    ensures Watches(states[k], states[k].g.recoveryGeneration) && states[k].g.fatalError.None?
  {
    NoLostWakeup(c, states, actions, k);
  }

  // ---- exits ----

  predicate FailsWith(call: Call, err: Error) {
    call.Failed? && call.err == err
  }

  /** Every way `Run` can return when it supervises the real session manager. */
  lemma ExitClassification(c: Config, states: seq<State>, actions: seq<Action>, k: nat)
    requires IsRun(c, states, actions) && k < |states| && states[k].run.Returned?
    ensures match states[k].run.exit
      case Clean => states[k].ctxDone
      case SetupFailed(_) => true
      case CannotReconnect(err, seen) =>
        && seen <= |states[k].history|
        && (exists i: nat :: i < seen && Dooms(states[k].history, i) && FailsWith(states[k].history[i], err))
      case StoppedUnexpectedly(_) => false
      case ManagerFailed(result, seen) =>
        && (result.Misconfigured? || result.NoClient?)
        && seen <= |states[k].history| && !Doomed(states[k].history, seen)
      case DidNotRecover(_, at, seen) =>
        && seen <= |states[k].history|
        && InOutage(states[k].history, seen) && !Doomed(states[k].history, seen)
        && at <= states[k].now
        && var began := Replay(states[k].history, seen).disconnectedAt;
        && (c.recoveryTimeout > 0 ==> began + c.recoveryTimeout <= at)
        && (c.recoveryTimeout <= 0 ==> began + 30_000_000_000 <= at)
  {
    Reachable(c, states, actions, k);
    var h := states[k].history;
    match states[k].run.exit
    case CannotReconnect(err, seen) =>
      SessionMeaning(h, seen);
      var i: nat :| i < seen && Dooms(h, i);
      FatalMeaning(h, seen, i);
      assert FailsWith(h[i], err);
    case ManagerFailed(_, seen) =>
      SessionMeaning(h, seen);
    case DidNotRecover(_, _, seen) =>
      SessionMeaning(h, seen);
      OutageMeaning(h, seen);
    case _ =>
  }

  // ---- hand-over ----

  /** The stale branch of `sessionFailed` is never taken in runs driven by `Start`, and what the
      manager carries from one attempt to the next is what the gateway holds. */
  lemma HandOverAgrees(c: Config, states: seq<State>, actions: seq<Action>, k: nat)
    requires IsRun(c, states, actions) && k < |states|
    ensures var s := states[k];
      && (s.manager.pc.Reporting? ==> !Stale(s.g, s.manager.attempt))
      && (s.manager.pc.Notifying? || s.manager.pc.HandingOver? ==> s.manager.pc.handed == s.g.resume)
      && (s.manager.pc.Waiting? || s.manager.pc.Creating? || s.manager.pc.Opening? ==>
            s.manager.resume == if s.manager.attempt == 0 then FIRST_RESUME else s.g.resume)
  {
    Reachable(c, states, actions, k);
  }

  /** The writers of a field of the resumable session when `Start` makes the calls: accepted
      events and failures that cannot resume. Opening a session writes nothing new. */
  ghost predicate WritesInRun(h: seq<Call>, i: nat, f: Field)
    requires i < |h|
  {
    || (Fails(h, i) && h[i].cannotResume && !f.ShardsField?)
    || (Accepted(h, i) && WritesAsEvent(h[i], f))
  }

  lemma {:induction false} SessionStays(h: seq<Call>, m: nat, n: nat)
    requires m <= n <= |h| && Replay(h, m).currentSession.Some?
    ensures Replay(h, n).currentSession.Some?
  {
    if m < n {
      SessionStays(h, m, n - 1);
    }
  }

  lemma ResumeStepInRun(h: seq<Call>, n: nat, f: Field)
    requires n < |h| && HandOvers(h)
    ensures if WritesInRun(h, n, f) then Shows(Replay(h, n + 1).resume, f, h[n])
            else if h[n].Started? && Replay(h, n).currentSession.None? then Replay(h, n + 1).resume == FIRST_RESUME
            else Agree(Replay(h, n + 1).resume, Replay(h, n).resume, f)
    ensures WritesInRun(h, n, f) ==> Replay(h, n).currentSession.Some?
    ensures Replay(h, n + 1).currentSession.Some? <==> h[n].Started? || Replay(h, n).currentSession.Some?
  {
    AcceptanceMeaning(h, n);
    ReplayIsCoherent(h, n);
  }

  lemma {:induction false} LastWriterInRun(h: seq<Call>, n: nat, f: Field, i: nat)
    requires i < n <= |h| && HandOvers(h) && WritesInRun(h, i, f)
    requires forall j: nat :: i < j < n ==> !WritesInRun(h, j, f)
    ensures Shows(Replay(h, n).resume, f, h[i])
  {
    ResumeStepInRun(h, n - 1, f);
    if i < n - 1 {
      LastWriterInRun(h, n - 1, f, i);
      ResumeStepInRun(h, i, f);
      SessionStays(h, i, n - 1);
    }
  }

  lemma {:induction false} NoWriterInRun(h: seq<Call>, n: nat, f: Field)
    requires n <= |h| && HandOvers(h)
    requires forall j: nat :: j < n ==> !WritesInRun(h, j, f)
    ensures Replay(h, n).currentSession.Some? ==> Agree(Replay(h, n).resume, FIRST_RESUME, f)
  {
    if n > 0 {
      NoWriterInRun(h, n - 1, f);
      ResumeStepInRun(h, n - 1, f);
    }
  }

  /** The first session has no ID, no sequence number and one shard. */
  lemma FirstSession(c: Config, states: seq<State>, actions: seq<Action>, k: nat)
    requires IsRun(c, states, actions) && k < |states| && states[k].creations != []
    ensures states[k].creations[0].resume == Resumable("", 0, Shards(0, 1))
  {
    Reachable(c, states, actions, k);
  }

  /** Every attempt after the first is created from the events accepted so far: each field shows
      what its last writer wrote, or its first value when nothing wrote it. Events of failed
      sessions are never accepted, so late ones contribute nothing. */
  lemma ResumeRefinement(c: Config, states: seq<State>, actions: seq<Action>, k: nat, n: nat, f: Field)
    requires IsRun(c, states, actions) && k < |states|
    requires 0 < n < |states[k].creations|
    ensures var h := states[k].history; var created := states[k].creations[n];
      && created.seen <= |h|
      && (forall i: nat :: i < created.seen && WritesInRun(h, i, f)
             && (forall j: nat :: i < j < created.seen ==> !WritesInRun(h, j, f))
           ==> Shows(created.resume, f, h[i]))
      && ((forall i: nat :: i < created.seen ==> !WritesInRun(h, i, f)) ==> Agree(created.resume, FIRST_RESUME, f))
  {
    Reachable(c, states, actions, k);
    var h := states[k].history;
    var created := states[k].creations[n];
    forall i: nat | i < created.seen && WritesInRun(h, i, f)
             && (forall j: nat :: i < j < created.seen ==> !WritesInRun(h, j, f))
      ensures Shows(created.resume, f, h[i])
    {
      LastWriterInRun(h, created.seen, f, i);
    }
    if forall i: nat :: i < created.seen ==> !WritesInRun(h, i, f) {
      NoWriterInRun(h, created.seen, f);
    }
  }

  /** An event of a session that failed, however late it arrives, is never accepted. */
  lemma LateEventsAreIgnored(c: Config, states: seq<State>, actions: seq<Action>, k: nat, i: nat, j: nat)
    requires IsRun(c, states, actions) && k < |states|
    requires i < j < |states[k].history| && Fails(states[k].history, i)
    requires var e := states[k].history[j];
      e.IsEvent() && e.payload.Some? && e.payload.value.session == Some(states[k].history[i].identity)
    ensures !Accepted(states[k].history, j)
    ensures Replay(states[k].history, j + 1) == Replay(states[k].history, j)
  {
    Reachable(c, states, actions, k);
    var h := states[k].history;
    AcceptanceMeaning(h, j);
    forall m: nat | i < m < j && Opens(h, m)
      ensures h[m].identity != h[i].identity
    {
      var p: nat :| p < i && Opens(h, p) && h[p].identity == h[i].identity;
    }
    if Accepted(h, j) {
      OutageEndsByNewerSession(h, i, j);
      assert false;
    }
  }

  // ---- pacing ----

  lemma {:induction false} Spacing(c: Config, s: State, n: nat)
    requires CreationInv(c, s) && n < |s.creations|
    ensures s.creations[0].at + n * c.Pace() <= s.creations[n].at
  {
    if n > 0 {
      Spacing(c, s, n - 1);
      assert s.creations[n - 1].at + c.Pace() <= s.creations[n].at;
      assert n * c.Pace() == (n - 1) * c.Pace() + c.Pace();
    }
  }

  /** `n + 1` attempts span at least `n` retry intervals; an interval that is not positive is none. */
  lemma Pacing(c: Config, states: seq<State>, actions: seq<Action>, k: nat, n: nat)
    requires IsRun(c, states, actions) && k < |states| && n < |states[k].creations|
    ensures states[k].creations[0].at <= states[k].creations[n].at <= states[k].now
    ensures c.retryInterval > 0 ==> states[k].creations[0].at + n * c.retryInterval <= states[k].creations[n].at
  {
    Reachable(c, states, actions, k);
    Spacing(c, states[k], n);
  }

  /** ... and nobody waits longer than one interval, or at all before the first attempt. */
  lemma {:induction false} WaitIsBounded(c: Config, states: seq<State>, actions: seq<Action>, k: nat)
    requires IsRun(c, states, actions) && k < |states|
    ensures BoundedWait(c, states[k])
  {
    if k > 0 {
      WaitIsBounded(c, states, actions, k - 1);
      assert Moves(c, states, actions, k - 1);
      if actions[k - 1].Session? {
        WaitStaysBounded(c, states[k - 1], actions[k - 1].session);
      } else {
        OthersKeepManager(c, states[k - 1], actions[k - 1]);
      }
    }
  }

  predicate BoundedWait(c: Config, s: State) {
    s.manager.pc.Waiting? && s.manager.pc.until.Some? ==>
      && s.manager.attempt > 0 && c.retryInterval > 0
      && s.manager.pc.until.value <= s.now + c.retryInterval
  }

  lemma WaitStaysBounded(c: Config, s: State, a: ManagerAction)
    requires ManagerEnabled(s, a) && BoundedWait(c, s)
    ensures BoundedWait(c, ManagerStep(c, s, a))
  {
    ManagerExtends(c, s, a);
  }

  /** Only `Run` launches the manager, and otherwise the others leave it where it is. */
  lemma OthersKeepManager(c: Config, s: State, a: Action)
    requires Enabled(s, a) && !a.Session?
    ensures var t := Step(c, s, a);
      && s.now <= t.now
      && (t.manager == s.manager || t.manager == s.manager.(pc := Entering))
  {
    match a
    case Environment(e) => EnvironmentExtends(s, e);
    case Supervisor(r) => RunExtends(c, s, r);
  }

  // ---- ready ----

  /** The ready channel is closed at most once. A READY of a live session was accepted exactly
      when it is closed or a callback is on its way to close it. */
  lemma ReadyIsGenuine(c: Config, states: seq<State>, actions: seq<Action>, k: nat)
    requires IsRun(c, states, actions) && k < |states|
    ensures states[k].readyCloses <= 1
    ensures states[k].readyNotifiers + states[k].readyClosers + states[k].readyCloses > 0 <==>
      exists i: nat :: i < |states[k].history| && states[k].history[i].Ready? && Accepted(states[k].history, i)
  {
    Reachable(c, states, actions, k);
    GenuineReady(c, states[k]);
  }

  lemma GenuineReady(c: Config, s: State)
    requires Inv(c, s)
    ensures s.readyNotifiers + s.readyClosers + s.readyCloses > 0 <==>
      exists i: nat :: i < |s.history| && s.history[i].Ready? && Accepted(s.history, i)
  {
    forall i: nat | i < |s.history|
      ensures AcceptedReady(s.history, i) <==> s.history[i].Ready? && Accepted(s.history, i)
    {
      AcceptanceMeaning(s.history, i);
    }
  }

  // ---- cancellation ----

  /** How many supervisor steps are left once the context is cancelled. */
  function CancelRank(s: State): nat {
    match s.run
    case Returned(_) => 0
    case Stopping => 1
    case Woken(_) => 2
    case Idle => 3
    case Arming(_, _, _) => 4
    case Deciding(_, _, _, _) => 5
    case Checked(_) => 6
    case Beginning => 7
  }

  /** After cancellation every supervisor step brings `Run` nearer to its return, and until it
      returned one of them is enabled. */
  lemma CancelRankFalls(c: Config, s: State, a: RunAction)
    requires s.ctxDone && RunEnabled(s, a)
    ensures CancelRank(RunStep(c, s, a)) < CancelRank(s)
  {
    if a.Act? {
      ActExtends(c, s);
    }
  }

  lemma NextRunAction(s: State) returns (a: RunAction)
    requires s.ctxDone && !s.run.Returned?
    ensures RunEnabled(s, a)
  {
    match s.run
    case Beginning => a := Begin(AlreadyCancelled);
    case Idle => a := TakeDone;
    case Woken(_) => a := CheckContext;
    case Checked(_) => a := TakeSnapshot;
    case Deciding(_, _, _, _) => a := Act;
    case Arming(_, _, _) => a := Arm;
    case Stopping => a := StopManager;
  }

  /** From its select on, `Run` answers a cancelled context with nil and nothing else. */
  predicate BeforeCheck(run: RunPc) {
    run.Idle? || run.Woken? || run.Arming? || run.Stopping? || run == Returned(Clean)
  }

  lemma {:induction false} CancelledRunIsClean(c: Config, states: seq<State>, actions: seq<Action>, k: nat, j: nat)
    requires IsRun(c, states, actions) && k <= j < |states|
    requires states[k].ctxDone && BeforeCheck(states[k].run)
    ensures states[j].ctxDone && BeforeCheck(states[j].run)
    ensures states[j].run.Returned? ==> states[j].run.exit == Clean
  {
    if k < j {
      CancelledRunIsClean(c, states, actions, k, j - 1);
      assert Moves(c, states, actions, j - 1);
      CleanStep(c, states[j - 1], actions[j - 1]);
    }
  }

  lemma CleanStep(c: Config, s: State, a: Action)
    requires Enabled(s, a) && s.ctxDone && BeforeCheck(s.run)
    ensures Step(c, s, a).ctxDone && BeforeCheck(Step(c, s, a).run)
  {
    match a
    case Environment(e) => EnvironmentExtends(s, e);
    case Session(m) => ManagerExtends(c, s, m);
    case Supervisor(r) => RunExtends(c, s, r);
  }

  /** Whichever way `Run` returns, the manager's context has ended and no timer is left. */
  lemma {:induction false} ReturnCleansUp(c: Config, states: seq<State>, actions: seq<Action>, k: nat)
    requires IsRun(c, states, actions) && k < |states|
    ensures states[k].run.Stopping? || states[k].run.Returned? ==> states[k].managerCancelled
    ensures states[k].run.Returned? ==> states[k].timer.None?
  {
    if k > 0 {
      ReturnCleansUp(c, states, actions, k - 1);
      assert Moves(c, states, actions, k - 1);
      CleanUpStep(c, states[k - 1], actions[k - 1]);
    }
  }

  predicate CleanedUp(s: State) {
    && (s.run.Stopping? || s.run.Returned? ==> s.managerCancelled)
    && (s.run.Returned? ==> s.timer.None?)
  }

  lemma CleanUpStep(c: Config, s: State, a: Action)
    requires Enabled(s, a) && CleanedUp(s)
    ensures CleanedUp(Step(c, s, a))
  {
    match a
    case Environment(e) => EnvironmentExtends(s, e);
    case Session(m) => ManagerExtends(c, s, m);
    case Supervisor(r) =>
  }

  /** How many steps the manager has left once its context ended: at most the attempt it is in or
      about to make. */
  function ManagerRank(pc: ManagerPc): nat {
    match pc
    case NotLaunched => 0
    case Finished(_) => 0
    case Finishing(_) => 1
    case Checking(_) => 2
    case Attempting => 3
    case Opening => 4
    case Creating => 5
    case Waiting(_) => 6
    case Entering => 6
    case HandingOver(_, _, _) => 7
    case Notifying(_, _, _) => 8
    case Reporting(_) => 9
  }

  /** After cancellation every step of the manager brings its result nearer... */
  lemma ManagerRankFalls(c: Config, s: State, a: ManagerAction)
    requires ManagerDone(s) && ManagerEnabled(s, a)
    ensures ManagerRank(ManagerStep(c, s, a).manager.pc) < ManagerRank(s.manager.pc)
    ensures ManagerDone(ManagerStep(c, s, a))
  {
    ManagerExtends(c, s, a);
  }

  /** ... and it can always take one until it delivered it. */
  lemma NextManagerAction(c: Config, states: seq<State>, actions: seq<Action>, k: nat) returns (a: ManagerAction)
    requires IsRun(c, states, actions) && k < |states|
    requires ManagerDone(states[k]) && !states[k].manager.pc.NotLaunched? && !states[k].manager.pc.Finished?
    ensures ManagerEnabled(states[k], a)
  {
    Reachable(c, states, actions, k);
    match states[k].manager.pc
    case Entering => a := Enter(None);
    case Waiting(_) => a := WaitCancelled;
    case Creating => a := Create(None);
    case Opening => a := OpenSession;
    case Attempting => a := EndAttempt(None);
    case Checking(_) => a := CheckAttempt;
    case Reporting(_) => a := Report(false, false);
    case Notifying(_, _, _) => a := Notify;
    case HandingOver(_, _, _) => a := HandOver;
    case Finishing(_) => a := Finish;
  }
}
