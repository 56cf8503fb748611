/** `Run` as the sequential program it is (internal/qqbot/gateway.go): a loop over a select that
    updates its timer and generation in place, while the session manager, the callbacks, the clock
    and the caller move at every point where they can, as a schedule says. `Run` is proved to do
    exactly what the schedule means as steps of the protocol, so every theorem about runs of the
    protocol is one about `Run`. */
module GatewayRun {
  import opened Options
  import opened GatewayState
  import opened GatewayHistory
  import opened GatewayProtocol
  import opened GatewayInvariant
  import opened GatewayTheorems
  import opened GatewayOrigins
  import opened GatewaySchedule

  class Supervisor {
    const config: Config
    var recoveryTimer: Option<Timer>
    var recoveryGeneration: nat
    /** What is shared with the others; its `run`, `timer` and `generation` are not used. */
    var world: State
    /** Where in `Run` the supervisor is. */
    ghost var pc: RunPc

    constructor (config: Config)
      ensures this.config == config && Now() == START
    {
      this.config := config;
      recoveryTimer, recoveryGeneration, world, pc := None, 0, START, Beginning;
    }

    /** The state of the protocol. */
    ghost function Now(): State
      reads this
    {
      world.(run := pc, timer := recoveryTimer, generation := recoveryGeneration)
    }

    /** The others make their moves; a tick of the timer is one of them. */
    method Others(moves: seq<Action>)
      modifies this`world, this`recoveryTimer
      ensures Now() == Played(config, old(Now()), moves)
    {
      var i := 0;
      while i < |moves|
        invariant i <= |moves|
        invariant Now() == Played(config, old(Now()), moves[..i])
      {
        assert moves[..i + 1][..i] == moves[..i];
        IgnoresSupervisor(config, world.(timer := recoveryTimer), moves[i], pc, recoveryGeneration);
        world := Moved(config, world.(timer := recoveryTimer), moves[i]);
        recoveryTimer := world.timer;
        i := i + 1;
      }
      assert moves[..i] == moves;
    }

    /** Stops the timer and drains its tick: nothing the others do brings one any more. */
    method StopTimer()
      modifies this`recoveryTimer
      ensures Now() == old(Now()).(timer := None)
      ensures forall moves :: Played(config, Now(), moves).timer.None?
    {
      recoveryTimer := None;
      forall moves
        ensures Played(config, Now(), moves).timer.None?
      {
        StoppedStaysSilent(config, Now(), moves);
      }
    }

    /** A return, with the deferred `cancelManager` and `stopTimer`. */
    method Leave(exit: Exit) returns (result: Option<Exit>)
      modifies this
      ensures Now() == Return(old(Now()), exit) && result == Some(exit)
    {
      world := world.(managerCancelled := true);
      StopTimer();
      pc := Returned(exit);
      result := Some(exit);
    }

    /** `stopSessionManager`, and nil. */
    method Stop(turn: Turn) returns (exit: Option<Exit>)
      requires pc.Idle? || pc.Woken?
      modifies this
      ensures Now() == AfterStop(config, old(Now()).(managerCancelled := true, run := Stopping), turn)
      ensures exit == Some(Clean)
    {
      world := world.(managerCancelled := true);
      pc := Stopping;
      Others(turn.stopping);
      exit := Leave(Clean);
    }

    /** A new timer for what is left of the snapshot's outage, or for one nanosecond. */
    method Arm(snapshot: ConnectionState, turn: Turn)
      modifies this
      ensures var s := old(Now());
        var due := snapshot.disconnectedAt + if config.recoveryTimeout > 0 then config.recoveryTimeout else 30_000_000_000;
        var remaining := if due > s.now then due - s.now else 1;
        Now() == Armed(config, s.(timer := None, run := Arming(remaining, snapshot.recoveryGeneration, s.now)), turn)
    {
      StopTimer();
      var computedAt := world.now;
      var remaining := config.Timeout() - (computedAt - snapshot.disconnectedAt);
      if remaining <= 0 {
        remaining := 1;
      }
      pc := Arming(remaining, snapshot.recoveryGeneration, computedAt);
      NewTimer(remaining, snapshot.recoveryGeneration, computedAt, turn);
    }

    method NewTimer(remaining: nat, generation: nat, computedAt: nat, turn: Turn)
      requires pc == Arming(remaining, generation, computedAt)
      modifies this
      ensures Now() == Armed(config, old(Now()), turn)
    {
      Others(turn.arming);
      recoveryTimer := Some(Timer(world.now + remaining, false, computedAt, world.now));
      recoveryGeneration := generation;
      pc := Idle;
    }

    /** The look at the context and the snapshot after receiving from a channel. */
    method Look(cause: Cause, turn: Turn) returns (exit: Option<Exit>, snapshot: ConnectionState, at: nat, seen: nat)
      requires pc == Woken(cause)
      modifies this
      ensures exit.Some? ==> pc.Returned? && exit == Some(pc.exit) && Now() == AfterTake(config, old(Now()), turn)
      ensures exit.Some? ==> !exit.value.SetupFailed?
      ensures exit.None? ==>
        && pc == Deciding(cause, snapshot, at, seen)
        && AfterTake(config, old(Now()), turn) == AfterSnapshot(config, Now(), turn)
    {
      Others(turn.woken);
      snapshot, at, seen := world.g, 0, 0;
      if world.ctxDone {
        if cause.ManagerExit? {
          exit := Leave(Clean);
        } else {
          exit := Stop(turn);
        }
        return;
      }
      pc := Checked(cause);
      Others(turn.checked);
      snapshot, at, seen := world.g, world.now, |world.history|;
      pc := Deciding(cause, snapshot, at, seen);
      exit := None;
    }

    /** `case err := <-errCh` */
    method OnManagerExit(result: ManagerResult, turn: Turn) returns (exit: Option<Exit>)
      requires pc == Woken(ManagerExit(result))
      modifies this
      ensures Now() == AfterTake(config, old(Now()), turn)
      ensures pc.Returned? && exit == Some(pc.exit) && !pc.exit.SetupFailed?
    {
      var snapshot, at, seen;
      exit, snapshot, at, seen := Look(ManagerExit(result), turn);
      if exit.Some? {
        return;
      }
      Others(turn.decided);
      if snapshot.fatalError.Some? {
        exit := Leave(CannotReconnect(snapshot.fatalError.value, seen));
        return;
      }
      if result.Cancelled? {
        exit := Leave(StoppedUnexpectedly(seen));
        return;
      }
      exit := Leave(ManagerFailed(result, seen));
    }

    /** `case <-g.stateChanged` */
    method OnStateChange(turn: Turn) returns (exit: Option<Exit>)
      requires pc == Woken(StateChange)
      modifies this
      ensures Now() == AfterTake(config, old(Now()), turn)
      ensures exit == if pc.Returned? then Some(pc.exit) else None
      ensures exit.Some? ==> !exit.value.SetupFailed?
    {
      var snapshot, at, seen;
      exit, snapshot, at, seen := Look(StateChange, turn);
      if exit.Some? {
        return;
      }
      exit := OnStateSnapshot(snapshot, at, seen, turn);
    }

    method OnStateSnapshot(snapshot: ConnectionState, ghost at: nat, seen: nat, turn: Turn) returns (exit: Option<Exit>)
      requires pc == Deciding(StateChange, snapshot, at, seen)
      modifies this
      ensures Now() == AfterSnapshot(config, old(Now()), turn)
      ensures exit == if pc.Returned? then Some(pc.exit) else None
      ensures exit.Some? ==> !exit.value.SetupFailed?
    {
      Others(turn.decided);
      exit := SettleState(snapshot, at, seen, turn);
    }

    method SettleState(snapshot: ConnectionState, ghost at: nat, seen: nat, turn: Turn) returns (exit: Option<Exit>)
      requires pc == Deciding(StateChange, snapshot, at, seen)
      modifies this
      ensures Now() == Acted(config, old(Now()), turn)
      ensures exit == if pc.Returned? then Some(pc.exit) else None
      ensures exit.Some? ==> !exit.value.SetupFailed?
    {
      exit := None;
      if snapshot.fatalError.Some? {
        exit := Leave(CannotReconnect(snapshot.fatalError.value, seen));
      } else if !snapshot.recovering {
        StopTimer();
        pc := Idle;
      } else if recoveryTimer.None? || recoveryGeneration != snapshot.recoveryGeneration {
        Rearm(StateChange, snapshot, at, seen, turn);
      } else {
        pc := Idle;
      }
    }

    /** The branch that replaces the timer. */
    method Rearm(ghost cause: Cause, snapshot: ConnectionState, ghost at: nat, ghost seen: nat, turn: Turn)
      requires pc == Deciding(cause, snapshot, at, seen) && !cause.ManagerExit?
      requires snapshot.fatalError.None? && snapshot.recovering
      requires (cause.StateChange? && recoveryTimer.None?) || recoveryGeneration != snapshot.recoveryGeneration
      modifies this
      ensures Now() == Acted(config, old(Now()), turn) && pc.Idle?
    {
      Arm(snapshot, turn);
    }

    /** `case <-recoveryTimerC` */
    method OnTimer(turn: Turn) returns (exit: Option<Exit>)
      requires pc == Woken(TimerFired)
      modifies this
      ensures Now() == AfterTake(config, old(Now()), turn)
      ensures exit == if pc.Returned? then Some(pc.exit) else None
      ensures exit.Some? ==> !exit.value.SetupFailed?
    {
      var snapshot, at, seen;
      exit, snapshot, at, seen := Look(TimerFired, turn);
      if exit.Some? {
        return;
      }
      exit := OnTimerSnapshot(snapshot, at, seen, turn);
    }

    method OnTimerSnapshot(snapshot: ConnectionState, at: nat, seen: nat, turn: Turn) returns (exit: Option<Exit>)
      requires pc == Deciding(TimerFired, snapshot, at, seen)
      modifies this
      ensures Now() == AfterSnapshot(config, old(Now()), turn)
      ensures exit == if pc.Returned? then Some(pc.exit) else None
      ensures exit.Some? ==> !exit.value.SetupFailed?
    {
      Others(turn.decided);
      exit := SettleTimer(snapshot, at, seen, turn);
    }

    method SettleTimer(snapshot: ConnectionState, at: nat, seen: nat, turn: Turn) returns (exit: Option<Exit>)
      requires pc == Deciding(TimerFired, snapshot, at, seen)
      modifies this
      ensures Now() == Acted(config, old(Now()), turn)
      ensures exit == if pc.Returned? then Some(pc.exit) else None
      ensures exit.Some? ==> !exit.value.SetupFailed?
    {
      exit := None;
      if snapshot.fatalError.Some? {
        exit := Leave(CannotReconnect(snapshot.fatalError.value, seen));
      } else if !snapshot.recovering {
        pc := Idle;
      } else if recoveryGeneration != snapshot.recoveryGeneration {
        Rearm(TimerFired, snapshot, at, seen, turn);
      } else {
        exit := Leave(DidNotRecover(snapshot.lastError, at, seen));
      }
    }

    /** One select and the case it picks. A case that is not ready leaves the select waiting. */
    method Select(turn: Turn) returns (exit: Option<Exit>)
      requires pc.Idle?
      modifies this
      ensures Now() == Turned(config, old(Now()), turn)
      ensures exit == if pc.Returned? then Some(pc.exit) else None
      ensures exit.Some? ==> !exit.value.SetupFailed?
    {
      Others(turn.before);
      exit := None;
      match turn.pick {
        case ContextDone =>
          if world.ctxDone {
            exit := Stop(turn);
          }
        case ManagerReturned =>
          if world.errCh.Some? {
            var result := world.errCh.value;
            world := world.(errCh := None);
            pc := Woken(ManagerExit(result));
            exit := OnManagerExit(result, turn);
          }
        case StateChanged =>
          if world.token {
            world := world.(token := false);
            pc := Woken(StateChange);
            exit := OnStateChange(turn);
          }
        case TimerTicked =>
          if recoveryTimer.Some? && recoveryTimer.value.expired {
            recoveryTimer := None;
            pc := Woken(TimerFired);
            exit := OnTimer(turn);
          }
      }
    }

    method Open(opening: Opening) returns (exit: Option<Exit>)
      requires Now() == START
      modifies this
      ensures Now() == Opened(config, opening)
      ensures exit == if pc.Returned? then Some(pc.exit) else None
      ensures Played(config, START, opening.before).ctxDone ==> exit == Some(Clean) && world.manager.pc.NotLaunched?
      ensures exit.Some? && exit.value.SetupFailed? ==> opening.refusal == Some(exit.value.err)
    {
      Others(opening.before);
      NotLaunchedByOthers(config, START, opening.before);
      if world.ctxDone {
        exit := Leave(Clean);
        return;
      }
      Others(opening.discovering);
      if opening.refusal.Some? {
        exit := Leave(SetupFailed(opening.refusal.value));
        return;
      }
      world := world.(manager := world.manager.(pc := Entering));
      pc := Idle;
      exit := None;
    }

    /** `Run` on any schedule. It returns `None` when the schedule ends with `Run` at its select.

        The result is nil only when the context was cancelled, never a session manager that stopped
        unexpectedly, the error of a failure that could not be identified again, or a timeout after
        an outage that was still going on at the deciding snapshot and had lasted long enough. */
    method Run(opening: Opening, schedule: seq<Turn>) returns (exit: Option<Exit>)
      requires Now() == START
      modifies this
      ensures Now() == Supervised(config, opening, schedule, |schedule|) && IsReachable(config, Now())
      ensures exit == if pc.Returned? then Some(pc.exit) else None
      ensures exit.None? ==> pc.Idle?
      ensures exit == Some(Clean) ==> world.ctxDone
      ensures Played(config, START, opening.before).ctxDone ==> exit == Some(Clean) && world.manager.pc.NotLaunched?
      ensures exit.Some? && exit.value.SetupFailed? ==> opening.refusal == Some(exit.value.err)
      ensures exit.Some? && exit.value.ManagerFailed? ==> world.manager.pc == Finished(exit.value.result)
      ensures exit.Some? ==> !exit.value.StoppedUnexpectedly?
      ensures exit.Some? && exit.value.CannotReconnect? ==> FailedForGood(world.history, exit.value.err)
      ensures exit.Some? && exit.value.DidNotRecover? ==>
        && exit.value.seen <= |world.history| && InOutage(world.history, exit.value.seen)
        && exit.value.at <= world.now
        && var began := Replay(world.history, exit.value.seen).disconnectedAt;
        && (config.recoveryTimeout > 0 ==> began + config.recoveryTimeout <= exit.value.at)
        && (config.recoveryTimeout <= 0 ==> began + 30_000_000_000 <= exit.value.at)
    {
      exit := Open(opening);
      SupervisedIsReachable(config, opening, schedule, 0);
      var i := 0;
      while i < |schedule| && exit.None?
        invariant i <= |schedule|
        invariant Now() == Supervised(config, opening, schedule, i)
        invariant exit == if pc.Returned? then Some(pc.exit) else None
        invariant exit.None? ==> pc.Idle?
        invariant Played(config, START, opening.before).ctxDone ==> exit == Some(Clean) && world.manager.pc.NotLaunched?
        invariant exit.Some? && exit.value.SetupFailed? ==> opening.refusal == Some(exit.value.err)
      {
        exit := Select(schedule[i]);
        i := i + 1;
        SupervisedIsReachable(config, opening, schedule, i);
      }
      SupervisedStays(config, opening, schedule, i, |schedule|);
      SupervisedIsReachable(config, opening, schedule, |schedule|);
      if exit.Some? {
        ReturnedWell(config, Now());
      }
    }
  }

  /** Some failure could not be identified again and had this error. */
  ghost predicate FailedForGood(h: seq<Call>, err: Error) {
    exists i: nat :: i < |h| && Dooms(h, i) && FailsWith(h[i], err)
  }

  lemma ReturnedWell(c: Config, s: State)
    requires IsReachable(c, s) && s.run.Returned?
    ensures s.run.exit.Clean? ==> s.ctxDone
    ensures !s.run.exit.StoppedUnexpectedly?
    ensures s.run.exit.ManagerFailed? ==> s.manager.pc == Finished(s.run.exit.result)
    ensures s.run.exit.CannotReconnect? ==> FailedForGood(s.history, s.run.exit.err)
    ensures s.run.exit.DidNotRecover? ==>
      && s.run.exit.seen <= |s.history| && InOutage(s.history, s.run.exit.seen)
      && s.run.exit.at <= s.now
      && var began := Replay(s.history, s.run.exit.seen).disconnectedAt;
      && (c.recoveryTimeout > 0 ==> began + c.recoveryTimeout <= s.run.exit.at)
      && (c.recoveryTimeout <= 0 ==> began + 30_000_000_000 <= s.run.exit.at)
  {
    var states, actions :| IsRun(c, states, actions) && states[|actions|] == s;
    ExitClassification(c, states, actions, |actions|);
    ExitHasOwnError(c, states, actions, |actions|);
  }
}
