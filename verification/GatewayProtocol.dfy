/** The gateway as a system of concurrent parties (internal/qqbot/gateway.go and
    internal/qqbot/gateway_session.go), one atomic step at a time:

    - the session manager, the loop of `Start`, with one program counter value for every point
      at which another party can interleave;
    - event callbacks, any number at once, for any session, live or dead, at any time; a callback
      that must notify is counted until it sends, and a READY callback until it closed `ready`;
    - the supervisor, the loop of `Run`, which takes a token, checks its context, takes a snapshot
      and acts on it in four separate steps, and arms a timer in two;
    - the clock, the runtime that expires timers, and the caller that cancels the context.

    Assumptions: every attempt has a fresh session identity, here its number; the error passed to
    `sessionFailed` is never nil, as lines 105-107 of gateway_session.go force. */
module GatewayProtocol {
  import opened Options
  import opened GatewayState

  const DEFAULT_RECOVERY_TIMEOUT: nat := 30_000_000_000

  /** Durations in nanoseconds, as configured. */
  datatype Config = Config(recoveryTimeout: int, retryInterval: int) {
    function Timeout(): nat {
      if recoveryTimeout <= 0 then DEFAULT_RECOVERY_TIMEOUT else recoveryTimeout
    }

    function Pace(): nat {
      if retryInterval <= 0 then 0 else retryInterval
    }
  }

  // ---- the session manager ----

  datatype ManagerResult =
    | Cancelled
    | Misconfigured(err: Error)
    | NoClient(err: Error)
    | Unrecoverable(err: Error)

  datatype ManagerPc =
    | NotLaunched
    | Entering
    | Waiting(until: Option<nat>)
    | Creating
    | Opening
    | Attempting
    | Checking(outcome: Option<Error>)
    | Reporting(err: Error)
    | Notifying(err: Error, fatal: bool, handed: Resumable)
    | HandingOver(err: Error, fatal: bool, handed: Resumable)
    | Finishing(result: ManagerResult)
    | Finished(result: ManagerResult)

  datatype Manager = Manager(pc: ManagerPc, attempt: nat, resume: Resumable)

  /** A session created for an attempt: when, from which resumable session, and how many calls
      had reached the gateway state by then. */
  datatype Creation = Creation(at: nat, resume: Resumable, seen: nat)

  const FIRST_RESUME := Resumable("", 0, Shards(0, 1))

  const LISTENER_STOPPED := Error(0)

  // ---- the supervisor ----

  /** A running timer or one whose tick waits in its channel. `computedAt` and `armedAt` record
      when its duration was computed and when it was created. */
  datatype Timer = Timer(deadline: nat, expired: bool, computedAt: nat, armedAt: nat)

  datatype Cause = StateChange | TimerFired | ManagerExit(result: ManagerResult)

  /** How `Run` returned. `seen` is the length of the history its deciding snapshot was taken at,
      and `at` the time of that snapshot. */
  datatype Exit =
    | Clean
    | SetupFailed(err: Error)
    | CannotReconnect(err: Error, seen: nat)
    | StoppedUnexpectedly(seen: nat)
    | ManagerFailed(result: ManagerResult, seen: nat)
    | DidNotRecover(lastError: Option<Error>, at: nat, seen: nat)

  datatype RunPc =
    | Beginning
    | Idle
    | Woken(cause: Cause)
    | Checked(cause: Cause)
    | Deciding(cause: Cause, snapshot: ConnectionState, at: nat, seen: nat)
    | Arming(remaining: nat, outage: nat, computedAt: nat)
    | Stopping
    | Returned(exit: Exit)

  datatype State = State(
    now: nat,
    g: ConnectionState,
    token: bool,              // the slot of stateChanged
    notifiers: nat,           // observeEvent callbacks between unlock and send
    readyNotifiers: nat,      // READY callbacks between unlock and send
    readyClosers: nat,        // READY callbacks between send and readyOnce
    readyCloses: nat,         // executions of close(g.ready)
    ctxDone: bool,
    managerCancelled: bool,
    manager: Manager,
    errCh: Option<ManagerResult>,
    run: RunPc,
    timer: Option<Timer>,     // recoveryTimer with its channel
    generation: nat,          // recoveryGeneration of Run
    history: seq<Call>,       // every call on g so far
    outages: seq<nat>,        // when each outage so far began
    creations: seq<Creation>, // every session created so far
    outcomes: seq<Option<Error>>) // how each attempt so far ended

  const START := State(0, INITIAL, false, 0, 0, 0, 0, false, false,
                       Manager(NotLaunched, 0, FIRST_RESUME), None, Beginning, None, 0, [], [], [], [])

  /** One call under the lock. */
  function Perform(s: State, call: Call): State {
    var g := Next(s.g, call);
    s.(g := g, history := s.history + [call],
       outages := if g.recoveryGeneration > s.g.recoveryGeneration then s.outages + [g.disconnectedAt] else s.outages)
  }

  predicate ManagerDone(s: State) {
    s.ctxDone || s.managerCancelled
  }

  // ---- callbacks, clock and caller ----

  datatype EnvironmentAction =
    | Advance(duration: nat)
    | CancelContext
    | TimerExpires
    | Event(call: Call)
    | NotifyEvent
    | NotifyReady
    | CloseReady

  predicate EnvironmentEnabled(s: State, a: EnvironmentAction) {
    match a
    case Advance(_) => true
    case CancelContext => !s.ctxDone
    case TimerExpires => s.timer.Some? && !s.timer.value.expired && s.timer.value.deadline <= s.now
    case Event(call) => call.IsEvent()
    case NotifyEvent => s.notifiers > 0
    case NotifyReady => s.readyNotifiers > 0
    case CloseReady => s.readyClosers > 0
  }

  function EnvironmentStep(s: State, a: EnvironmentAction): State
    requires EnvironmentEnabled(s, a)
  {
    match a
    case Advance(duration) => s.(now := s.now + duration)
    case CancelContext => s.(ctxDone := true)
    case TimerExpires => s.(timer := Some(s.timer.value.(expired := true)))
    case Event(call) =>
      var t := Perform(s, call);
      if !Wakes(s.g, call) then t
      else if call.Ready? then t.(readyNotifiers := s.readyNotifiers + 1)
      else t.(notifiers := s.notifiers + 1)
    case NotifyEvent => s.(notifiers := s.notifiers - 1, token := true)
    case NotifyReady => s.(readyNotifiers := s.readyNotifiers - 1, token := true, readyClosers := s.readyClosers + 1)
    case CloseReady =>
      s.(readyClosers := s.readyClosers - 1,
         readyCloses := if s.readyCloses == 0 then 1 else s.readyCloses)
  }

  // ---- session manager ----

  datatype ManagerAction =
    | Enter(refusal: Option<Error>)
    | WaitOver
    | WaitCancelled
    | Create(failure: Option<Error>)
    | OpenSession
    | EndAttempt(outcome: Option<Error>)
    | CheckAttempt
    | Report(cannotResume: bool, cannotIdentify: bool)
    | Notify
    | HandOver
    | Finish

  predicate ManagerEnabled(s: State, a: ManagerAction) {
    match a
    case Enter(_) => s.manager.pc.Entering?
    case WaitOver =>
      && s.manager.pc.Waiting?
      && match s.manager.pc.until { case None => !ManagerDone(s) case Some(until) => until <= s.now }
    case WaitCancelled => s.manager.pc.Waiting? && ManagerDone(s)
    case Create(_) => s.manager.pc.Creating?
    case OpenSession => s.manager.pc.Opening?
    case EndAttempt(_) => s.manager.pc.Attempting?
    case CheckAttempt => s.manager.pc.Checking?
    case Report(_, _) => s.manager.pc.Reporting?
    case Notify => s.manager.pc.Notifying?
    case HandOver => s.manager.pc.HandingOver?
    case Finish => s.manager.pc.Finishing? && s.errCh.None?
  }

  function AtPc(s: State, pc: ManagerPc): State {
    s.(manager := s.manager.(pc := pc))
  }

  function ManagerStep(c: Config, s: State, a: ManagerAction): State
    requires ManagerEnabled(s, a)
  {
    var m := s.manager;
    match a
    case Enter(refusal) =>
      if ManagerDone(s) then AtPc(s, Finishing(Cancelled))
      else if refusal.Some? then AtPc(s, Finishing(Misconfigured(refusal.value)))
      else AtPc(s, Waiting(None))
    case WaitOver => AtPc(s, Creating)
    case WaitCancelled => AtPc(s, Finishing(Cancelled))
    case Create(failure) =>
      if failure.Some? then AtPc(s, Finishing(NoClient(failure.value)))
      else AtPc(s, Opening).(creations := s.creations + [Creation(s.now, m.resume, |s.history|)])
    case OpenSession => AtPc(Perform(s, Started(m.attempt, m.resume)), Attempting)
    case EndAttempt(outcome) => AtPc(s, Checking(outcome)).(outcomes := s.outcomes + [outcome])
    case CheckAttempt =>
      if ManagerDone(s) then AtPc(s, Finishing(Cancelled))
      else AtPc(s, Reporting(if m.pc.outcome.None? then LISTENER_STOPPED else m.pc.outcome.value))
    case Report(cannotResume, cannotIdentify) =>
      var call := Failed(m.attempt, m.pc.err, cannotResume, cannotIdentify, s.now);
      var t := Perform(s, call);
      AtPc(t, if Wakes(s.g, call) then Notifying(m.pc.err, cannotIdentify, t.g.resume)
              else HandingOver(m.pc.err, cannotIdentify, t.g.resume))
    case Notify => AtPc(s, HandingOver(m.pc.err, m.pc.fatal, m.pc.handed)).(token := true)
    case HandOver =>
      if m.pc.fatal then s.(manager := Manager(Finishing(Unrecoverable(m.pc.err)), m.attempt, m.pc.handed))
      else s.(manager := Manager(Waiting(if c.retryInterval <= 0 then None else Some(s.now + c.retryInterval)),
                                 m.attempt + 1, m.pc.handed))
    case Finish => AtPc(s, Finished(m.pc.result)).(errCh := Some(m.pc.result))
  }

  // ---- supervisor ----

  datatype Launch = AlreadyCancelled | Refused(err: Error) | Launched

  datatype RunAction =
    | Begin(launch: Launch)
    | TakeDone
    | TakeManager
    | TakeToken
    | TakeTimer
    | CheckContext
    | TakeSnapshot
    | Act
    | Arm
    | StopManager

  predicate RunEnabled(s: State, a: RunAction) {
    match a
    case Begin(launch) => s.run.Beginning? && (launch.AlreadyCancelled? ==> s.ctxDone)
    case TakeDone => s.run.Idle? && s.ctxDone
    case TakeManager => s.run.Idle? && s.errCh.Some?
    case TakeToken => s.run.Idle? && s.token
    case TakeTimer => s.run.Idle? && s.timer.Some? && s.timer.value.expired
    case CheckContext => s.run.Woken?
    case TakeSnapshot => s.run.Checked?
    case Act => s.run.Deciding?
    case Arm => s.run.Arming?
    case StopManager => s.run.Stopping?
  }

  /** Returning runs the deferred `cancelManager` and `stopTimer`. */
  function Return(s: State, exit: Exit): State {
    s.(run := Returned(exit), managerCancelled := true, timer := None)
  }

  function RecoveryTimeRemaining(timeout: nat, disconnectedAt: nat, now: nat): nat {
    if timeout - (now - disconnectedAt) <= 0 then 1 else timeout - (now - disconnectedAt)
  }

  datatype Decision = Leave(exit: Exit) | Rest(disarm: bool) | Rearm(remaining: nat, outage: nat)

  /** What the loop body decides on a snapshot. */
  function Decide(c: Config, run: RunPc, timer: Option<Timer>, generation: nat, now: nat): Decision
    requires run.Deciding?
  {
    var snapshot := run.snapshot;
    var rearm := Rearm(RecoveryTimeRemaining(c.Timeout(), snapshot.disconnectedAt, now), snapshot.recoveryGeneration);
    if snapshot.fatalError.Some? then Leave(CannotReconnect(snapshot.fatalError.value, run.seen))
    else match run.cause
      case ManagerExit(result) =>
        if result.Cancelled? then Leave(StoppedUnexpectedly(run.seen)) else Leave(ManagerFailed(result, run.seen))
      case StateChange =>
        if !snapshot.recovering then Rest(true)
        else if timer.None? || generation != snapshot.recoveryGeneration then rearm
        else Rest(false)
      case TimerFired =>
        if !snapshot.recovering then Rest(false)
        else if generation != snapshot.recoveryGeneration then rearm
        else Leave(DidNotRecover(snapshot.lastError, run.at, run.seen))
  }

  /** The old timer is stopped before a new one is armed. */
  function ActOn(c: Config, s: State): State
    requires s.run.Deciding?
  {
    match Decide(c, s.run, s.timer, s.generation, s.now)
    case Leave(exit) => Return(s, exit)
    case Rest(disarm) => s.(timer := if disarm then None else s.timer, run := Idle)
    case Rearm(remaining, outage) => s.(timer := None, run := Arming(remaining, outage, s.now))
  }

  function RunStep(c: Config, s: State, a: RunAction): State
    requires RunEnabled(s, a)
  {
    match a
    case Begin(AlreadyCancelled) => Return(s, Clean)
    case Begin(Refused(err)) => Return(s, SetupFailed(err))
    case Begin(Launched) => AtPc(s, Entering).(run := Idle)
    case TakeDone => s.(managerCancelled := true, run := Stopping)
    case TakeManager => s.(errCh := None, run := Woken(ManagerExit(s.errCh.value)))
    case TakeToken => s.(token := false, run := Woken(StateChange))
    case TakeTimer => s.(timer := None, run := Woken(TimerFired))
    case CheckContext =>
      if !s.ctxDone then s.(run := Checked(s.run.cause))
      else if s.run.cause.ManagerExit? then Return(s, Clean)
      else s.(managerCancelled := true, run := Stopping)
    case TakeSnapshot => s.(run := Deciding(s.run.cause, s.g, s.now, |s.history|))
    case Act => ActOn(c, s)
    case Arm =>
      s.(timer := Some(Timer(s.now + s.run.remaining, false, s.run.computedAt, s.now)),
         generation := s.run.outage, run := Idle)
    case StopManager => Return(s, Clean)
  }

  // ---- runs ----

  datatype Action =
    | Environment(environment: EnvironmentAction)
    | Session(session: ManagerAction)
    | Supervisor(supervisor: RunAction)

  predicate Enabled(s: State, a: Action) {
    match a
    case Environment(e) => EnvironmentEnabled(s, e)
    case Session(m) => ManagerEnabled(s, m)
    case Supervisor(r) => RunEnabled(s, r)
  }

  function Step(c: Config, s: State, a: Action): State
    requires Enabled(s, a)
  {
    match a
    case Environment(e) => EnvironmentStep(s, e)
    case Session(m) => ManagerStep(c, s, m)
    case Supervisor(r) => RunStep(c, s, r)
  }

  predicate Moves(c: Config, states: seq<State>, actions: seq<Action>, i: nat)
    requires i < |actions| < |states|
  {
    Enabled(states[i], actions[i]) && states[i + 1] == Step(c, states[i], actions[i])
  }

  /** `states` is what a run passes through when the parties interleave as `actions` says. */
  ghost predicate IsRun(c: Config, states: seq<State>, actions: seq<Action>) {
    && |states| == |actions| + 1
    && states[0] == START
    && forall i {:trigger Moves(c, states, actions, i)} :: 0 <= i < |actions| ==> Moves(c, states, actions, i)
  }
}
