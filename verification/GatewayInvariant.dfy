/** The inductive invariant of the composed gateway, one part per concern, and its preservation by
    every atomic step of every party. */
module GatewayInvariant {
  import opened Options
  import opened GatewayState
  import opened GatewayProtocol

  /** The history explains the state, and `outages` lists when each outage began. */
  ghost predicate DataInv(s: State) {
    && s.g == Replay(s.history, |s.history|)
    && Coherent(s.g)
    && (s.g.currentSession.None? ==> !s.g.recovering)
    && |s.outages| == s.g.recoveryGeneration
    && (s.g.recovering ==> s.outages[|s.outages| - 1] == s.g.disconnectedAt)
    && forall k :: 0 <= k < |s.outages| ==> s.outages[k] <= s.now
  }

  /** Between two attempts the manager's local copy is the gateway's. */
  ghost predicate BetweenAttempts(s: State) {
    && !s.g.currentSessionOpen
    && s.g.fatalError.None?
    && if s.manager.attempt == 0
       then s.g.currentSession.None? && s.manager.resume == FIRST_RESUME
       else s.g.currentSession == Some(s.manager.attempt - 1) && s.manager.resume == s.g.resume
  }

  ghost predicate InAttempt(s: State) {
    && s.g.currentSession == Some(s.manager.attempt)
    && s.g.currentSessionOpen
    && s.g.fatalError.None?
  }

  ghost predicate ManagerPcInv(s: State) {
    match s.manager.pc
    case NotLaunched => BetweenAttempts(s) && s.manager.attempt == 0
    case Entering => BetweenAttempts(s)
    case Waiting(_) => BetweenAttempts(s)
    case Creating => BetweenAttempts(s)
    case Opening => BetweenAttempts(s)
    case Attempting => InAttempt(s)
    case Checking(_) => InAttempt(s)
    case Reporting(_) => InAttempt(s)
    case Notifying(err, fatal, handed) => Reported(s, err, fatal, handed)
    case HandingOver(err, fatal, handed) => Reported(s, err, fatal, handed)
    case Finishing(result) => ResultInv(s, result)
    case Finished(result) => ResultInv(s, result)
  }

  ghost predicate Reported(s: State, err: Error, fatal: bool, handed: Resumable) {
    && s.g.currentSession == Some(s.manager.attempt)
    && !s.g.currentSessionOpen
    && handed == s.g.resume
    && s.g.fatalError == if fatal then Some(err) else None
  }

  ghost predicate ResultInv(s: State, result: ManagerResult) {
    match result
    case Cancelled => ManagerDone(s) && s.g.fatalError.None?
    case Misconfigured(_) => s.g.fatalError.None? && !s.g.currentSessionOpen
    case NoClient(_) => s.g.fatalError.None? && !s.g.currentSessionOpen
    case Unrecoverable(err) => s.g.fatalError == Some(err)
  }

  ghost predicate ManagerInv(s: State) {
    && ManagerPcInv(s)
    && (s.run.Beginning? ==> s.manager.pc.NotLaunched?)
    && (s.errCh.Some? ==> s.manager.pc == Finished(s.errCh.value))
    && (s.managerCancelled ==> s.run.Stopping? || s.run.Returned?)
    && (s.run.Stopping? ==> s.ctxDone)
    && (s.run.Woken? && s.run.cause.ManagerExit? ==> s.manager.pc == Finished(s.run.cause.result))
    && (s.run.Checked? && s.run.cause.ManagerExit? ==>
          s.manager.pc == Finished(s.run.cause.result) && !s.run.cause.result.Cancelled?)
    && (s.run.Deciding? && s.run.cause.ManagerExit? ==>
          && s.manager.pc == Finished(s.run.cause.result)
          && !s.run.cause.result.Cancelled?
          && s.run.snapshot.fatalError == s.g.fatalError)
  }

  /** `t` is no earlier than the recovery timeout after the start of outage number `outage`. */
  ghost predicate Due(c: Config, s: State, outage: nat, t: nat) {
    1 <= outage <= |s.outages| && s.outages[outage - 1] + c.Timeout() <= t
  }

  /** A duration computed at time `t` runs out when the timeout of the outage does, or at once. */
  ghost predicate Punctual(c: Config, s: State, outage: nat, t: nat, remaining: int) {
    && 1 <= outage <= |s.outages|
    && t + remaining == Later(s.outages[outage - 1] + c.Timeout(), t + 1)
  }

  function Later(x: nat, y: nat): nat {
    if x < y then y else x
  }

  ghost predicate TimerInv(c: Config, s: State) {
    && (s.timer.Some? ==>
          && s.timer.value.computedAt <= s.timer.value.armedAt <= s.now
          && Punctual(c, s, s.generation, s.timer.value.computedAt, s.timer.value.deadline - s.timer.value.armedAt)
          && (s.timer.value.expired ==> s.timer.value.deadline <= s.now))
    && match s.run
       case Woken(cause) => cause.TimerFired? ==> s.timer.None? && Due(c, s, s.generation, s.now)
       case Checked(cause) => cause.TimerFired? ==> s.timer.None? && Due(c, s, s.generation, s.now)
       case Deciding(cause, snapshot, at, seen) =>
         && (cause.TimerFired? ==> s.timer.None? && Due(c, s, s.generation, at))
         && at <= s.now
         && seen <= |s.history|
         && snapshot == Replay(s.history, seen)
         && snapshot.recoveryGeneration <= |s.outages|
         && (snapshot.recovering ==>
               snapshot.recoveryGeneration > 0
               && s.outages[snapshot.recoveryGeneration - 1] == snapshot.disconnectedAt)
       case Arming(remaining, outage, computedAt) =>
         s.timer.None? && computedAt <= s.now && Punctual(c, s, outage, computedAt, remaining)
       case _ => true
  }

  /** No notification is on its way to the supervisor. */
  predicate Quiet(s: State) {
    !s.token && s.notifiers == 0 && s.readyNotifiers == 0 && !s.manager.pc.Notifying?
  }

  /** When nothing is on its way, the supervisor already knows what it has to know. */
  ghost predicate SyncInv(s: State) {
    Quiet(s) ==>
      match s.run
      case Idle => Guarded(s.g, s.timer.Some?, s.generation)
      case Deciding(_, snapshot, _, _) =>
        && snapshot.fatalError == s.g.fatalError
        && snapshot.recovering == s.g.recovering
        && snapshot.recoveryGeneration == s.g.recoveryGeneration
      case Arming(_, outage, _) => Guarded(s.g, true, outage)
      case _ => true
  }

  ghost predicate Guarded(g: ConnectionState, armed: bool, outage: nat) {
    && g.fatalError.None?
    && (g.recovering ==> armed && outage == g.recoveryGeneration)
  }

  ghost predicate AcceptedReady(h: seq<Call>, i: nat)
    requires i < |h|
  {
    h[i].Ready? && Accepts(Replay(h, i), h[i].payload)
  }

  ghost predicate ReadyInv(s: State) {
    && s.readyCloses <= 1
    && (s.readyNotifiers + s.readyClosers + s.readyCloses > 0 <==>
          exists i: nat :: i < |s.history| && AcceptedReady(s.history, i))
  }

  ghost predicate ExitInv(c: Config, s: State) {
    s.run.Returned? ==>
      match s.run.exit
      case Clean => s.ctxDone
      case SetupFailed(_) => true
      case CannotReconnect(err, seen) =>
        seen <= |s.history| && Replay(s.history, seen).fatalError == Some(err)
      case StoppedUnexpectedly(_) => false
      case ManagerFailed(result, seen) =>
        && (result.Misconfigured? || result.NoClient?)
        && seen <= |s.history| && Replay(s.history, seen).fatalError.None?
      case DidNotRecover(lastError, at, seen) =>
        && seen <= |s.history| && at <= s.now
        && TimedOut(c, Replay(s.history, seen), at, lastError)
  }

  ghost predicate TimedOut(c: Config, g: ConnectionState, at: nat, lastError: Option<Error>) {
    && g.recovering
    && g.fatalError.None?
    && lastError == g.lastError
    && g.disconnectedAt + c.Timeout() <= at
  }

  ghost predicate CreationInv(c: Config, s: State) {
    && (forall k :: 0 <= k < |s.creations| ==>
          && s.creations[k].at <= s.now
          && s.creations[k].seen <= |s.history|
          && s.creations[k].resume
               == (if k == 0 then FIRST_RESUME else Replay(s.history, s.creations[k].seen).resume)
          && (k > 0 ==> Replay(s.history, s.creations[k].seen).currentSession.Some?))
    && (forall k :: 0 < k < |s.creations| ==> s.creations[k - 1].at + c.Pace() <= s.creations[k].at)
    && CreationPcInv(c, s)
  }

  ghost predicate CreationPcInv(c: Config, s: State) {
    match s.manager.pc
    case NotLaunched => |s.creations| == 0 && s.manager.attempt == 0
    case Entering => |s.creations| == 0 && s.manager.attempt == 0
    case Waiting(until) =>
      && |s.creations| == s.manager.attempt
      && (if s.manager.attempt == 0 then until.None? else until.Some? == (c.Pace() > 0))
      && (until.Some? ==> s.creations[|s.creations| - 1].at + c.Pace() <= until.value)
    case Creating =>
      && |s.creations| == s.manager.attempt
      && (|s.creations| > 0 ==> s.creations[|s.creations| - 1].at + c.Pace() <= s.now)
    case Finishing(_) => true
    case Finished(_) => true
    case _ => |s.creations| == s.manager.attempt + 1
  }

  /** Every session was started from what the gateway held at that moment, the first one excepted. */
  ghost predicate HandOvers(h: seq<Call>) {
    forall i: nat :: i < |h| && h[i].Started? ==>
      && Replay(h, i).fatalError.None?
      && if Replay(h, i).currentSession.None? then h[i].resume == FIRST_RESUME
         else h[i].resume == Replay(h, i).resume
  }

  /** Sessions get larger and larger numbers. */
  ghost predicate FreshStarts(h: seq<Call>) {
    forall i, j :: 0 <= i < j < |h| && h[i].Started? && h[j].Started? ==> h[i].identity < h[j].identity
  }

  ghost predicate StartsBelow(h: seq<Call>, bound: nat) {
    forall i :: 0 <= i < |h| && h[i].Started? ==> h[i].identity < bound
  }

  /** No session with this number or a larger one was started yet. */
  function NextIdentity(m: Manager): nat {
    match m.pc
    case Attempting => m.attempt + 1
    case Checking(_) => m.attempt + 1
    case Reporting(_) => m.attempt + 1
    case Notifying(_, _, _) => m.attempt + 1
    case HandingOver(_, _, _) => m.attempt + 1
    case _ => m.attempt
  }

  ghost predicate FreshInv(s: State) {
    && FreshStarts(s.history)
    && (s.manager.pc.Finishing? || s.manager.pc.Finished? || StartsBelow(s.history, NextIdentity(s.manager)))
  }

  ghost predicate Inv(c: Config, s: State) {
    && DataInv(s)
    && ManagerInv(s)
    && TimerInv(c, s)
    && SyncInv(s)
    && ReadyInv(s)
    && ExitInv(c, s)
    && CreationInv(c, s)
    && HandOvers(s.history)
    && FreshInv(s)
  }

  lemma StartInv(c: Config)
    ensures Inv(c, START)
  {
  }

  // ---- preservation ----

  lemma Extends(h: seq<Call>, call: Call)
    ensures forall n: nat :: n <= |h| ==> Replay(h + [call], n) == Replay(h, n)
    ensures Replay(h + [call], |h| + 1) == Next(Replay(h, |h|), call)
  {
    forall n: nat | n <= |h|
      ensures Replay(h + [call], n) == Replay(h, n)
    {
      ReplayOfPrefix(h, h + [call], n);
    }
  }

  /** What every step does to the record: time and history only grow. */
  ghost predicate Extended(s: State, t: State) {
    && s.now <= t.now
    && |s.history| <= |t.history|
    && (forall n: nat :: n <= |s.history| ==> Replay(t.history, n) == Replay(s.history, n))
    && (forall n: nat :: n < |s.history| ==> t.history[n] == s.history[n])
    && |s.outages| <= |t.outages|
    && (forall k :: 0 <= k < |s.outages| ==> t.outages[k] == s.outages[k])
    && (s.ctxDone ==> t.ctxDone)
    && (s.managerCancelled ==> t.managerCancelled)
  }

  /** A step without a call on the gateway state. */
  ghost predicate NoCall(s: State, t: State) {
    t.g == s.g && t.history == s.history && t.outages == s.outages
  }

  lemma PerformExtends(s: State, call: Call)
    ensures Extended(s, Perform(s, call))
  {
    Extends(s.history, call);
  }

  /** What the steps of one party leave to the others. */
  ghost predicate OnlyManager(s: State, t: State) {
    && t.now == s.now && t.ctxDone == s.ctxDone && t.managerCancelled == s.managerCancelled
    && t.run == s.run && t.timer == s.timer && t.generation == s.generation
    && t.notifiers == s.notifiers && t.readyNotifiers == s.readyNotifiers
    && t.readyClosers == s.readyClosers && t.readyCloses == s.readyCloses
  }

  ghost predicate OnlyEnvironment(s: State, t: State) {
    && t.managerCancelled == s.managerCancelled && t.manager == s.manager && t.errCh == s.errCh
    && t.run == s.run && t.generation == s.generation && t.creations == s.creations && t.outcomes == s.outcomes
    && t.timer.Some? == s.timer.Some?
  }

  ghost predicate OnlyRun(s: State, t: State) {
    && t.now == s.now && t.ctxDone == s.ctxDone && t.creations == s.creations && t.outcomes == s.outcomes
    && t.notifiers == s.notifiers && t.readyNotifiers == s.readyNotifiers
    && t.readyClosers == s.readyClosers && t.readyCloses == s.readyCloses
  }

  lemma ManagerExtends(c: Config, s: State, a: ManagerAction)
    requires ManagerEnabled(s, a)
    ensures Extended(s, ManagerStep(c, s, a)) && OnlyManager(s, ManagerStep(c, s, a))
    ensures !a.OpenSession? && !a.Report? ==> NoCall(s, ManagerStep(c, s, a))
  {
    if a.OpenSession? {
      PerformExtends(s, Started(s.manager.attempt, s.manager.resume));
    } else if a.Report? {
      PerformExtends(s, Failed(s.manager.attempt, s.manager.pc.err, a.cannotResume, a.cannotIdentify, s.now));
    } else {
      assert NoCall(s, ManagerStep(c, s, a));
    }
  }

  lemma ActExtends(c: Config, s: State)
    requires s.run.Deciding?
    ensures Extended(s, ActOn(c, s)) && NoCall(s, ActOn(c, s)) && OnlyRun(s, ActOn(c, s))
    ensures ActOn(c, s).manager == s.manager && ActOn(c, s).errCh == s.errCh
  {
  }

  lemma RunExtends(c: Config, s: State, a: RunAction)
    requires RunEnabled(s, a)
    ensures Extended(s, RunStep(c, s, a)) && NoCall(s, RunStep(c, s, a)) && OnlyRun(s, RunStep(c, s, a))
    ensures !a.Begin? ==> RunStep(c, s, a).manager == s.manager
  {
    if a.Act? {
      ActExtends(c, s);
    }
  }

  lemma EnvironmentExtends(s: State, a: EnvironmentAction)
    requires EnvironmentEnabled(s, a)
    ensures Extended(s, EnvironmentStep(s, a)) && OnlyEnvironment(s, EnvironmentStep(s, a))
    ensures !a.Event? ==> NoCall(s, EnvironmentStep(s, a))
    ensures !a.TimerExpires? ==> EnvironmentStep(s, a).timer == s.timer
  {
    if a.Event? {
      PerformExtends(s, a.call);
    }
  }

  // ---- data ----

  lemma DataFrame(s: State, t: State)
    requires DataInv(s) && NoCall(s, t) && s.now <= t.now
    ensures DataInv(t)
  {
  }

  lemma PerformKeepsData(s: State, call: Call)
    requires DataInv(s)
    requires call.Failed? ==> call.at == s.now
    ensures DataInv(Perform(s, call))
  {
    Extends(s.history, call);
    NextIsCoherent(s.g, call);
  }

  lemma DataKeptByEnvironment(s: State, a: EnvironmentAction)
    requires DataInv(s) && EnvironmentEnabled(s, a)
    ensures DataInv(EnvironmentStep(s, a))
  {
    EnvironmentExtends(s, a);
    if a.Event? {
      PerformKeepsData(s, a.call);
    } else {
      DataFrame(s, EnvironmentStep(s, a));
    }
  }

  lemma DataKeptByManager(c: Config, s: State, a: ManagerAction)
    requires DataInv(s) && ManagerEnabled(s, a)
    ensures DataInv(ManagerStep(c, s, a))
  {
    if a.OpenSession? {
      PerformKeepsData(s, Started(s.manager.attempt, s.manager.resume));
    } else if a.Report? {
      PerformKeepsData(s, Failed(s.manager.attempt, s.manager.pc.err, a.cannotResume, a.cannotIdentify, s.now));
    } else {
      ManagerExtends(c, s, a);
      DataFrame(s, ManagerStep(c, s, a));
    }
  }

  // ---- manager ----

  /** Events change nothing the manager relies on while no session is open. */
  lemma EventKeepsSession(g: ConnectionState, call: Call)
    requires call.IsEvent()
    ensures Next(g, call).currentSession == g.currentSession
    ensures Next(g, call).currentSessionOpen == g.currentSessionOpen
    ensures Next(g, call).fatalError == g.fatalError
    ensures !g.currentSessionOpen ==> Next(g, call) == g
  {
  }

  lemma ManagerFrame(s: State, t: State)
    requires ManagerInv(s) && OnlyEnvironment(s, t)
    requires s.ctxDone ==> t.ctxDone
    requires t.g.currentSession == s.g.currentSession && t.g.currentSessionOpen == s.g.currentSessionOpen
    requires t.g.fatalError == s.g.fatalError
    requires !s.g.currentSessionOpen ==> t.g == s.g
    ensures ManagerInv(t)
  {
  }

  lemma ManagerKeptByEnvironment(s: State, a: EnvironmentAction)
    requires ManagerInv(s) && EnvironmentEnabled(s, a)
    ensures ManagerInv(EnvironmentStep(s, a))
  {
    EnvironmentExtends(s, a);
    if a.Event? {
      EventKeepsSession(s.g, a.call);
    }
    ManagerFrame(s, EnvironmentStep(s, a));
  }

  /** The part of the invariant that is about the supervisor. */
  lemma ManagerSide(s: State, t: State)
    requires ManagerInv(s) && OnlyManager(s, t) && ManagerPcInv(t)
    requires !s.manager.pc.Finished? && !s.manager.pc.NotLaunched?
    requires t.errCh.Some? ==> t.manager.pc == Finished(t.errCh.value)
    ensures ManagerInv(t)
  {
  }

  lemma ReportKeepsManager(c: Config, s: State, cannotResume: bool, cannotIdentify: bool)
    requires s.manager.pc.Reporting? && InAttempt(s)
    ensures var t := ManagerStep(c, s, Report(cannotResume, cannotIdentify));
      t.manager.pc.Notifying? && ManagerPcInv(t)
  {
  }

  lemma PcKept(c: Config, s: State, a: ManagerAction)
    requires ManagerPcInv(s) && ManagerEnabled(s, a) && !a.Report?
    ensures ManagerPcInv(ManagerStep(c, s, a))
  {
    if !a.OpenSession? {
      assert ManagerStep(c, s, a).g == s.g;
    }
  }

  lemma ManagerKeptByManager(c: Config, s: State, a: ManagerAction)
    requires ManagerInv(s) && ManagerEnabled(s, a)
    ensures ManagerInv(ManagerStep(c, s, a))
  {
    ManagerExtends(c, s, a);
    if a.Report? {
      ReportKeepsManager(c, s, a.cannotResume, a.cannotIdentify);
    } else {
      PcKept(c, s, a);
    }
    ManagerSide(s, ManagerStep(c, s, a));
  }

  lemma PcFrame(s: State, t: State)
    requires ManagerPcInv(s) && NoCall(s, t) && t.manager == s.manager
    requires ManagerDone(s) ==> ManagerDone(t)
    ensures ManagerPcInv(t)
  {
  }

  lemma ManagerKeptByAct(c: Config, s: State)
    requires ManagerInv(s) && s.run.Deciding?
    ensures ManagerInv(ActOn(c, s))
  {
    ActExtends(c, s);
    PcFrame(s, ActOn(c, s));
  }

  lemma ManagerKeptByRun(c: Config, s: State, a: RunAction)
    requires ManagerInv(s) && RunEnabled(s, a)
    ensures ManagerInv(RunStep(c, s, a))
  {
    RunExtends(c, s, a);
    if a.Act? {
      ManagerKeptByAct(c, s);
    } else if !a.Begin? {
      PcFrame(s, RunStep(c, s, a));
    }
  }

  // ---- timer ----

  lemma TimerFrame(c: Config, s: State, t: State)
    requires TimerInv(c, s) && Extended(s, t)
    requires t.run == s.run && t.timer == s.timer && t.generation == s.generation
    ensures TimerInv(c, t)
  {
  }

  lemma TimerKeptByEnvironment(c: Config, s: State, a: EnvironmentAction)
    requires TimerInv(c, s) && EnvironmentEnabled(s, a)
    ensures TimerInv(c, EnvironmentStep(s, a))
  {
    if !a.TimerExpires? {
      EnvironmentExtends(s, a);
      TimerFrame(c, s, EnvironmentStep(s, a));
    }
  }

  lemma TimerKeptByManager(c: Config, s: State, a: ManagerAction)
    requires TimerInv(c, s) && ManagerEnabled(s, a)
    ensures TimerInv(c, ManagerStep(c, s, a))
  {
    ManagerExtends(c, s, a);
    TimerFrame(c, s, ManagerStep(c, s, a));
  }

  lemma TimerKeptByAct(c: Config, s: State)
    requires TimerInv(c, s) && s.run.Deciding?
    ensures TimerInv(c, ActOn(c, s))
  {
    var t := ActOn(c, s);
    if t.run.Arming? {
      DurationIsPunctual(c, s, s.run.snapshot);
    } else {
      TimerSettles(c, s, t);
    }
  }

  lemma TimerSettles(c: Config, s: State, t: State)
    requires TimerInv(c, s) && NoCall(s, t) && t.now == s.now
    requires t.run.Idle? || t.run.Returned?
    requires t.timer.None? || (t.timer == s.timer && t.generation == s.generation)
    ensures TimerInv(c, t)
  {
  }

  lemma DurationIsPunctual(c: Config, s: State, snapshot: ConnectionState)
    requires 1 <= snapshot.recoveryGeneration <= |s.outages|
    requires s.outages[snapshot.recoveryGeneration - 1] == snapshot.disconnectedAt
    ensures Punctual(c, s, snapshot.recoveryGeneration, s.now,
                     RecoveryTimeRemaining(c.Timeout(), snapshot.disconnectedAt, s.now))
  {
  }

  lemma TimerKeptByRun(c: Config, s: State, a: RunAction)
    requires TimerInv(c, s) && DataInv(s) && RunEnabled(s, a)
    ensures TimerInv(c, RunStep(c, s, a))
  {
    if a.Act? {
      TimerKeptByAct(c, s);
    } else if a.TakeSnapshot? {
      TimerKeptBySnapshot(c, s);
    }
  }

  lemma TimerKeptBySnapshot(c: Config, s: State)
    requires TimerInv(c, s) && DataInv(s) && s.run.Checked?
    ensures TimerInv(c, RunStep(c, s, TakeSnapshot))
  {
  }

  // ---- synchronisation ----

  lemma SyncKeptByManager(c: Config, s: State, a: ManagerAction)
    requires SyncInv(s) && ManagerEnabled(s, a)
    ensures SyncInv(ManagerStep(c, s, a))
  {
    ManagerExtends(c, s, a);
  }

  lemma SyncKeptByEnvironment(s: State, a: EnvironmentAction)
    requires SyncInv(s) && DataInv(s) && EnvironmentEnabled(s, a)
    ensures SyncInv(EnvironmentStep(s, a))
  {
    EnvironmentExtends(s, a);
  }

  lemma SyncKeptByAct(c: Config, s: State)
    requires SyncInv(s) && TimerInv(c, s) && s.run.Deciding?
    ensures SyncInv(ActOn(c, s))
  {
  }

  lemma SyncKeptByRun(c: Config, s: State, a: RunAction)
    requires SyncInv(s) && ManagerInv(s) && TimerInv(c, s) && DataInv(s) && RunEnabled(s, a)
    ensures SyncInv(RunStep(c, s, a))
  {
    if a.Act? {
      SyncKeptByAct(c, s);
    } else {
      RunExtends(c, s, a);
    }
  }

  // ---- ready ----

  lemma ReadyFrame(s: State, t: State)
    requires ReadyInv(s) && Extended(s, t) && t.readyCloses <= 1
    requires t.readyNotifiers + t.readyClosers + t.readyCloses > 0 <==>
               s.readyNotifiers + s.readyClosers + s.readyCloses > 0
    requires forall i: nat :: |s.history| <= i < |t.history| ==> !AcceptedReady(t.history, i)
    ensures ReadyInv(t)
  {
    assert forall i: nat :: i < |s.history| ==> (AcceptedReady(t.history, i) <==> AcceptedReady(s.history, i));
  }

  lemma ReadyKeptByEnvironment(s: State, a: EnvironmentAction)
    requires ReadyInv(s) && DataInv(s) && EnvironmentEnabled(s, a)
    ensures ReadyInv(EnvironmentStep(s, a))
  {
    EnvironmentExtends(s, a);
    if a.Event? && Wakes(s.g, a.call) && a.call.Ready? {
      assert AcceptedReady(EnvironmentStep(s, a).history, |s.history|);
    } else {
      ReadyFrame(s, EnvironmentStep(s, a));
    }
  }

  lemma ReadyKeptByManager(c: Config, s: State, a: ManagerAction)
    requires ReadyInv(s) && ManagerEnabled(s, a)
    ensures ReadyInv(ManagerStep(c, s, a))
  {
    ManagerExtends(c, s, a);
    var t := ManagerStep(c, s, a);
    assert forall i: nat :: |s.history| <= i < |t.history| ==> !t.history[i].Ready?;
    ReadyFrame(s, t);
  }

  // ---- exit ----

  lemma ExitFrame(c: Config, s: State, t: State)
    requires ExitInv(c, s) && Extended(s, t) && t.run == s.run
    ensures ExitInv(c, t)
  {
  }

  lemma ExitKeptByAct(c: Config, s: State)
    requires ManagerInv(s) && TimerInv(c, s) && DataInv(s) && s.run.Deciding?
    ensures ExitInv(c, ActOn(c, s))
  {
    ReplayIsCoherent(s.history, s.run.seen);
  }

  lemma ExitKeptByRun(c: Config, s: State, a: RunAction)
    requires ExitInv(c, s) && ManagerInv(s) && TimerInv(c, s) && DataInv(s) && RunEnabled(s, a)
    ensures ExitInv(c, RunStep(c, s, a))
  {
    if a.Act? {
      ExitKeptByAct(c, s);
    }
  }

  // ---- creations ----

  lemma CreationFrame(c: Config, s: State, t: State)
    requires CreationInv(c, s) && Extended(s, t)
    requires t.manager == s.manager && t.creations == s.creations
    ensures CreationInv(c, t)
  {
  }

  /** Between `Create` and the next `Waiting` only the program counter moves. */
  lemma CreationMoves(c: Config, s: State, t: State)
    requires CreationInv(c, s) && Extended(s, t) && t.creations == s.creations
    requires CreationPcInv(c, t)
    ensures CreationInv(c, t)
  {
  }

  lemma CreateKeepsCreations(c: Config, s: State)
    requires CreationInv(c, s) && ManagerInv(s) && DataInv(s) && s.manager.pc.Creating?
    ensures CreationInv(c, ManagerStep(c, s, Create(None)))
  {
    var t := ManagerStep(c, s, Create(None));
    var created := Creation(s.now, s.manager.resume, |s.history|);
    assert t.creations == s.creations + [created] && t.history == s.history && t.now == s.now;
    assert created.resume == if |s.creations| == 0 then FIRST_RESUME else Replay(s.history, created.seen).resume;
  }

  lemma CreationPcKept(c: Config, s: State, a: ManagerAction)
    requires CreationInv(c, s) && ManagerEnabled(s, a) && a != Create(None)
    ensures CreationPcInv(c, ManagerStep(c, s, a))
    ensures ManagerStep(c, s, a).creations == s.creations
  {
    if a.HandOver? {
      HandOverKeepsPc(c, s);
    } else {
      OtherKeepsPc(c, s, a);
    }
  }

  lemma HandOverKeepsPc(c: Config, s: State)
    requires CreationInv(c, s) && s.manager.pc.HandingOver?
    ensures CreationPcInv(c, ManagerStep(c, s, HandOver))
    ensures ManagerStep(c, s, HandOver).creations == s.creations
  {
  }

  lemma OtherKeepsPc(c: Config, s: State, a: ManagerAction)
    requires CreationInv(c, s) && ManagerEnabled(s, a) && a != Create(None) && !a.HandOver?
    ensures CreationPcInv(c, ManagerStep(c, s, a))
    ensures ManagerStep(c, s, a).creations == s.creations
  {
  }

  lemma CreationKeptByManager(c: Config, s: State, a: ManagerAction)
    requires CreationInv(c, s) && ManagerInv(s) && DataInv(s) && ManagerEnabled(s, a)
    ensures CreationInv(c, ManagerStep(c, s, a))
  {
    if a == Create(None) {
      CreateKeepsCreations(c, s);
    } else {
      ManagerExtends(c, s, a);
      CreationPcKept(c, s, a);
      CreationMoves(c, s, ManagerStep(c, s, a));
    }
  }

  lemma CreationKeptByRun(c: Config, s: State, a: RunAction)
    requires CreationInv(c, s) && ManagerInv(s) && RunEnabled(s, a)
    ensures CreationInv(c, RunStep(c, s, a))
  {
    RunExtends(c, s, a);
    if a.Begin? {
      CreationMoves(c, s, RunStep(c, s, a));
    } else {
      CreationFrame(c, s, RunStep(c, s, a));
    }
  }

  // ---- hand-overs ----

  lemma HandOversGrow(h: seq<Call>, call: Call)
    requires HandOvers(h)
    requires call.Started? ==>
      && Replay(h, |h|).fatalError.None?
      && if Replay(h, |h|).currentSession.None? then call.resume == FIRST_RESUME
         else call.resume == Replay(h, |h|).resume
    ensures HandOvers(h + [call])
  {
    Extends(h, call);
  }

  lemma HandOversKeptByEnvironment(s: State, a: EnvironmentAction)
    requires HandOvers(s.history) && EnvironmentEnabled(s, a)
    ensures HandOvers(EnvironmentStep(s, a).history)
  {
    if a.Event? {
      HandOversGrow(s.history, a.call);
    } else {
      assert EnvironmentStep(s, a).history == s.history;
    }
  }

  lemma HandOversKeptByManager(c: Config, s: State, a: ManagerAction)
    requires HandOvers(s.history) && ManagerInv(s) && DataInv(s) && ManagerEnabled(s, a)
    ensures HandOvers(ManagerStep(c, s, a).history)
  {
    if a.OpenSession? {
      HandOversGrow(s.history, Started(s.manager.attempt, s.manager.resume));
    } else if a.Report? {
      HandOversGrow(s.history, Failed(s.manager.attempt, s.manager.pc.err, a.cannotResume, a.cannotIdentify, s.now));
    } else {
      assert ManagerStep(c, s, a).history == s.history;
    }
  }

  // ---- fresh sessions ----

  lemma FreshGrows(h: seq<Call>, call: Call)
    requires FreshStarts(h)
    requires call.Started? ==> StartsBelow(h, call.identity)
    ensures FreshStarts(h + [call])
    ensures call.Started? ==> StartsBelow(h + [call], call.identity + 1)
    ensures !call.Started? ==> forall bound: nat :: StartsBelow(h, bound) ==> StartsBelow(h + [call], bound)
  {
  }

  lemma FreshKeptByManager(c: Config, s: State, a: ManagerAction)
    requires FreshInv(s) && ManagerEnabled(s, a)
    ensures FreshInv(ManagerStep(c, s, a))
  {
    if a.OpenSession? {
      FreshGrows(s.history, Started(s.manager.attempt, s.manager.resume));
    } else if a.Report? {
      FreshGrows(s.history, Failed(s.manager.attempt, s.manager.pc.err, a.cannotResume, a.cannotIdentify, s.now));
    } else {
      IdentityMoves(c, s, a);
    }
  }

  lemma IdentityMoves(c: Config, s: State, a: ManagerAction)
    requires ManagerEnabled(s, a) && !a.OpenSession? && !a.Report?
    ensures var t := ManagerStep(c, s, a);
      && t.history == s.history
      && (s.manager.pc.Finishing? ==> t.manager.pc.Finished?)
      && !s.manager.pc.Finished?
      && (t.manager.pc.Finishing? || t.manager.pc.Finished? || NextIdentity(t.manager) == NextIdentity(s.manager))
  {
  }

  lemma FreshKeptByEnvironment(s: State, a: EnvironmentAction)
    requires FreshInv(s) && EnvironmentEnabled(s, a)
    ensures FreshInv(EnvironmentStep(s, a))
  {
    EnvironmentExtends(s, a);
    if a.Event? {
      FreshGrows(s.history, a.call);
    }
  }

  lemma FreshKeptByRun(c: Config, s: State, a: RunAction)
    requires FreshInv(s) && RunEnabled(s, a) && ManagerInv(s)
    ensures FreshInv(RunStep(c, s, a))
  {
    RunExtends(c, s, a);
  }

  // ---- the whole invariant ----

  lemma KeptByEnvironment(c: Config, s: State, a: EnvironmentAction)
    requires Inv(c, s) && EnvironmentEnabled(s, a)
    ensures Inv(c, EnvironmentStep(s, a))
  {
    EnvironmentExtends(s, a);
    DataKeptByEnvironment(s, a);
    ManagerKeptByEnvironment(s, a);
    TimerKeptByEnvironment(c, s, a);
    SyncKeptByEnvironment(s, a);
    ReadyKeptByEnvironment(s, a);
    FreshKeptByEnvironment(s, a);
    ExitFrame(c, s, EnvironmentStep(s, a));
    CreationFrame(c, s, EnvironmentStep(s, a));
    HandOversKeptByEnvironment(s, a);
  }

  lemma KeptByManager(c: Config, s: State, a: ManagerAction)
    requires Inv(c, s) && ManagerEnabled(s, a)
    ensures Inv(c, ManagerStep(c, s, a))
  {
    ManagerExtends(c, s, a);
    DataKeptByManager(c, s, a);
    ManagerKeptByManager(c, s, a);
    TimerKeptByManager(c, s, a);
    SyncKeptByManager(c, s, a);
    ReadyKeptByManager(c, s, a);
    ExitFrame(c, s, ManagerStep(c, s, a));
    CreationKeptByManager(c, s, a);
    HandOversKeptByManager(c, s, a);
    FreshKeptByManager(c, s, a);
  }

  lemma KeptByRun(c: Config, s: State, a: RunAction)
    requires Inv(c, s) && RunEnabled(s, a)
    ensures Inv(c, RunStep(c, s, a))
  {
    RunExtends(c, s, a);
    DataFrame(s, RunStep(c, s, a));
    ManagerKeptByRun(c, s, a);
    TimerKeptByRun(c, s, a);
    SyncKeptByRun(c, s, a);
    ReadyFrame(s, RunStep(c, s, a));
    ExitKeptByRun(c, s, a);
    CreationKeptByRun(c, s, a);
    FreshKeptByRun(c, s, a);
  }

  lemma InvKept(c: Config, s: State, a: Action)
    requires Inv(c, s) && Enabled(s, a)
    ensures Inv(c, Step(c, s, a))
  {
    match a
    case Environment(e) => KeptByEnvironment(c, s, e);
    case Session(m) => KeptByManager(c, s, m);
    case Supervisor(r) => KeptByRun(c, s, r);
  }

  /** The invariant holds in every state of every run. */
  lemma {:induction false} Reachable(c: Config, states: seq<State>, actions: seq<Action>, k: nat)
    requires IsRun(c, states, actions) && k < |states|
    ensures Inv(c, states[k])
  {
    if k == 0 {
      StartInv(c);
    } else {
      Reachable(c, states, actions, k - 1);
      assert Moves(c, states, actions, k - 1);
      InvKept(c, states[k - 1], actions[k - 1]);
    }
  }
}
