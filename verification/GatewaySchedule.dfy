/** What a schedule for `Run` (internal/qqbot/gateway.go) means as steps of the protocol, and that
    every schedule is a run of it: which case each select picks, and when the session manager, the
    callbacks, the clock and the caller move in between. A move that is not possible when its turn
    comes is skipped. */
module GatewaySchedule {
  import opened Options
  import opened GatewayState
  import opened GatewayProtocol
  import opened GatewayInvariant
  import opened GatewayTheorems

  /** What happens before the loop: the moves of the others before and after the first look at the
      context, and why the gateway could not be discovered or the intents are wrong, if so. */
  datatype Opening = Opening(before: seq<Action>, discovering: seq<Action>, refusal: Option<Error>)

  /** One round of the loop: the case the select picks once it looks, and the moves of the others
      before that and between the statements that follow. */
  datatype Turn = Turn(
    before: seq<Action>,
    pick: Pick,
    woken: seq<Action>,
    checked: seq<Action>,
    decided: seq<Action>,
    arming: seq<Action>,
    stopping: seq<Action>)

  datatype Pick = ContextDone | ManagerReturned | StateChanged | TimerTicked

  function TakeOf(pick: Pick): RunAction {
    match pick
    case ContextDone => TakeDone
    case ManagerReturned => TakeManager
    case StateChanged => TakeToken
    case TimerTicked => TakeTimer
  }

  // ---- what a schedule means ----

  /** The state after those moves of the others that were possible. */
  function Played(c: Config, s: State, moves: seq<Action>): (t: State)
    ensures t.run == s.run && t.generation == s.generation
  {
    if moves == [] then s
    else
      var t := Played(c, s, moves[..|moves| - 1]);
      Moved(c, t, moves[|moves| - 1])
  }

  function Moved(c: Config, s: State, move: Action): (t: State)
    ensures t.run == s.run && t.generation == s.generation
  {
    match move
    case Environment(e) => if EnvironmentEnabled(s, e) then EnvironmentStep(s, e) else s
    case Session(m) => if ManagerEnabled(s, m) then ManagerStep(c, s, m) else s
    case Supervisor(_) => s
  }

  function Opened(c: Config, opening: Opening): State {
    var s := Played(c, START, opening.before);
    if s.ctxDone then RunStep(c, s, Begin(AlreadyCancelled))
    else
      var t := Played(c, s, opening.discovering);
      RunStep(c, t, Begin(if opening.refusal.Some? then Refused(opening.refusal.value) else Launched))
  }

  function Turned(c: Config, s: State, turn: Turn): State {
    var t := Played(c, s, turn.before);
    if RunEnabled(t, TakeOf(turn.pick)) then AfterTake(c, RunStep(c, t, TakeOf(turn.pick)), turn) else t
  }

  function AfterTake(c: Config, s: State, turn: Turn): State
    requires s.run.Woken? || s.run.Stopping?
  {
    if s.run.Stopping? then AfterStop(c, s, turn)
    else
      var t := RunStep(c, Played(c, s, turn.woken), CheckContext);
      if t.run.Stopping? then AfterStop(c, t, turn)
      else if t.run.Returned? then t
      else AfterSnapshot(c, RunStep(c, Played(c, t, turn.checked), TakeSnapshot), turn)
  }

  function AfterSnapshot(c: Config, s: State, turn: Turn): State
    requires s.run.Deciding?
  {
    Acted(c, Played(c, s, turn.decided), turn)
  }

  function Acted(c: Config, s: State, turn: Turn): State
    requires s.run.Deciding?
  {
    var t := RunStep(c, s, Act);
    if t.run.Arming? then Armed(c, t, turn) else t
  }

  function Armed(c: Config, s: State, turn: Turn): State
    requires s.run.Arming?
  {
    RunStep(c, Played(c, s, turn.arming), Arm)
  }

  function AfterStop(c: Config, s: State, turn: Turn): State
    requires s.run.Stopping?
  {
    RunStep(c, Played(c, s, turn.stopping), StopManager)
  }

  /** The state after the first `n` turns, or after the one that returned. */
  function Supervised(c: Config, opening: Opening, schedule: seq<Turn>, n: nat): State
    requires n <= |schedule|
  {
    if n == 0 then Opened(c, opening)
    else Continued(c, Supervised(c, opening, schedule, n - 1), schedule[n - 1])
  }

  function Continued(c: Config, s: State, turn: Turn): State {
    if s.run.Returned? then s else Turned(c, s, turn)
  }

  // ---- every schedule is a run of the protocol ----

  lemma OwnStepIsReachable(c: Config, s: State, a: RunAction)
    requires IsReachable(c, s) && RunEnabled(s, a)
    ensures IsReachable(c, RunStep(c, s, a))
  {
    StepIsReachable(c, s, Supervisor(a));
  }

  lemma {:induction false} PlayedIsReachable(c: Config, s: State, moves: seq<Action>)
    requires IsReachable(c, s)
    ensures IsReachable(c, Played(c, s, moves))
  {
    if moves != [] {
      var t := Played(c, s, moves[..|moves| - 1]);
      PlayedIsReachable(c, s, moves[..|moves| - 1]);
      var move := moves[|moves| - 1];
      if !move.Supervisor? && Enabled(t, move) {
        StepIsReachable(c, t, move);
      }
    }
  }

  lemma OpenedIsReachable(c: Config, opening: Opening)
    ensures IsReachable(c, Opened(c, opening))
    ensures Opened(c, opening).run.Returned? || Opened(c, opening).run.Idle?
  {
    assert IsRun(c, [START], []);
    var s := Played(c, START, opening.before);
    PlayedIsReachable(c, START, opening.before);
    if s.ctxDone {
      OwnStepIsReachable(c, s, Begin(AlreadyCancelled));
    } else {
      var t := Played(c, s, opening.discovering);
      PlayedIsReachable(c, s, opening.discovering);
      OwnStepIsReachable(c, t, Begin(if opening.refusal.Some? then Refused(opening.refusal.value) else Launched));
    }
  }

  lemma StopIsReachable(c: Config, s: State, turn: Turn)
    requires IsReachable(c, s) && s.run.Stopping?
    ensures IsReachable(c, AfterStop(c, s, turn)) && AfterStop(c, s, turn).run.Returned?
  {
    PlayedIsReachable(c, s, turn.stopping);
    OwnStepIsReachable(c, Played(c, s, turn.stopping), StopManager);
  }

  lemma DecisionIsReachable(c: Config, s: State, turn: Turn)
    requires IsReachable(c, s) && s.run.Deciding?
    ensures var t := AfterSnapshot(c, s, turn); IsReachable(c, t) && (t.run.Returned? || t.run.Idle?)
  {
    PlayedIsReachable(c, s, turn.decided);
    OwnStepIsReachable(c, Played(c, s, turn.decided), Act);
    var t := RunStep(c, Played(c, s, turn.decided), Act);
    if t.run.Arming? {
      PlayedIsReachable(c, t, turn.arming);
      OwnStepIsReachable(c, Played(c, t, turn.arming), Arm);
    }
  }

  lemma TakeIsReachable(c: Config, s: State, turn: Turn)
    requires IsReachable(c, s) && (s.run.Woken? || s.run.Stopping?)
    ensures var t := AfterTake(c, s, turn); IsReachable(c, t) && (t.run.Returned? || t.run.Idle?)
  {
    if s.run.Stopping? {
      StopIsReachable(c, s, turn);
    } else {
      PlayedIsReachable(c, s, turn.woken);
      OwnStepIsReachable(c, Played(c, s, turn.woken), CheckContext);
      var t := RunStep(c, Played(c, s, turn.woken), CheckContext);
      if t.run.Stopping? {
        StopIsReachable(c, t, turn);
      } else if t.run.Checked? {
        PlayedIsReachable(c, t, turn.checked);
        OwnStepIsReachable(c, Played(c, t, turn.checked), TakeSnapshot);
        DecisionIsReachable(c, RunStep(c, Played(c, t, turn.checked), TakeSnapshot), turn);
      }
    }
  }

  lemma TurnedIsReachable(c: Config, s: State, turn: Turn)
    requires IsReachable(c, s) && s.run.Idle?
    ensures var t := Turned(c, s, turn); IsReachable(c, t) && (t.run.Returned? || t.run.Idle?)
  {
    var t := Played(c, s, turn.before);
    PlayedIsReachable(c, s, turn.before);
    if RunEnabled(t, TakeOf(turn.pick)) {
      OwnStepIsReachable(c, t, TakeOf(turn.pick));
      TakeIsReachable(c, RunStep(c, t, TakeOf(turn.pick)), turn);
    }
  }

  /** Whatever the schedule, the supervised gateway is in a state the protocol reaches, and between
      two turns the supervisor is at its select. */
  lemma {:induction false} SupervisedIsReachable(c: Config, opening: Opening, schedule: seq<Turn>, n: nat)
    requires n <= |schedule|
    ensures var s := Supervised(c, opening, schedule, n); IsReachable(c, s) && (s.run.Returned? || s.run.Idle?)
  {
    if n == 0 {
      OpenedIsReachable(c, opening);
    } else {
      SupervisedIsReachable(c, opening, schedule, n - 1);
      var s := Supervised(c, opening, schedule, n - 1);
      if s.run.Idle? {
        TurnedIsReachable(c, s, schedule[n - 1]);
      }
    }
  }

  // ---- what the others leave alone ----

  lemma {:induction false} StoppedStaysSilent(c: Config, s: State, moves: seq<Action>)
    requires s.timer.None?
    ensures Played(c, s, moves).timer.None?
  {
    if moves != [] {
      StoppedStaysSilent(c, s, moves[..|moves| - 1]);
      OnlyRings(c, Played(c, s, moves[..|moves| - 1]), moves[|moves| - 1]);
    }
  }

  lemma {:induction false} NotLaunchedByOthers(c: Config, s: State, moves: seq<Action>)
    requires s.manager.pc.NotLaunched?
    ensures Played(c, s, moves).manager.pc.NotLaunched?
  {
    if moves != [] {
      NotLaunchedByOthers(c, s, moves[..|moves| - 1]);
      NotLaunchedByMove(c, Played(c, s, moves[..|moves| - 1]), moves[|moves| - 1]);
    }
  }

  lemma NotLaunchedByMove(c: Config, s: State, move: Action)
    requires s.manager.pc.NotLaunched?
    ensures Moved(c, s, move).manager.pc.NotLaunched?
  {
    if move.Environment? && EnvironmentEnabled(s, move.environment) {
      EnvironmentExtends(s, move.environment);
    }
  }

  /** All the others can do to the timer is to let it expire. */
  predicate Rings(before: Option<Timer>, after: Option<Timer>) {
    after == before || (before.Some? && after == Some(before.value.(expired := true)))
  }

  lemma OnlyRings(c: Config, s: State, move: Action)
    ensures Rings(s.timer, Moved(c, s, move).timer)
  {
    if move.Session? && ManagerEnabled(s, move.session) {
      ManagerExtends(c, s, move.session);
    } else if move.Environment? && EnvironmentEnabled(s, move.environment) {
      EnvironmentExtends(s, move.environment);
    }
  }

  /** The others look neither at the supervisor's place in `Run` nor at its generation. */
  lemma IgnoresSupervisor(c: Config, s: State, move: Action, pc: RunPc, generation: nat)
    ensures Moved(c, s.(run := pc, generation := generation), move)
         == Moved(c, s, move).(run := pc, generation := generation)
  {
    match move
    case Environment(e) => EnvironmentIgnoresSupervisor(s, e, pc, generation);
    case Session(m) => ManagerIgnoresSupervisor(c, s, m, pc, generation);
    case Supervisor(_) =>
  }

  lemma EnvironmentIgnoresSupervisor(s: State, a: EnvironmentAction, pc: RunPc, generation: nat)
    ensures var t := s.(run := pc, generation := generation);
      && (EnvironmentEnabled(t, a) <==> EnvironmentEnabled(s, a))
      && (EnvironmentEnabled(s, a) ==> EnvironmentStep(t, a) == EnvironmentStep(s, a).(run := pc, generation := generation))
  {
    if a.Event? && EnvironmentEnabled(s, a) {
      EventIgnoresSupervisor(s, a, pc, generation);
    }
  }

  lemma EventIgnoresSupervisor(s: State, a: EnvironmentAction, pc: RunPc, generation: nat)
    requires a.Event? && EnvironmentEnabled(s, a)
    ensures EnvironmentStep(s.(run := pc, generation := generation), a)
         == EnvironmentStep(s, a).(run := pc, generation := generation)
  {
    assert Perform(s.(run := pc, generation := generation), a.call)
        == Perform(s, a.call).(run := pc, generation := generation);
  }

  lemma ManagerIgnoresSupervisor(c: Config, s: State, a: ManagerAction, pc: RunPc, generation: nat)
    ensures var t := s.(run := pc, generation := generation);
      && (ManagerEnabled(t, a) <==> ManagerEnabled(s, a))
      && (ManagerEnabled(s, a) ==> ManagerStep(c, t, a) == ManagerStep(c, s, a).(run := pc, generation := generation))
  {
    var t := s.(run := pc, generation := generation);
    assert ManagerEnabled(t, a) <==> ManagerEnabled(s, a);
    if ManagerEnabled(s, a) {
      if a.OpenSession? || a.Report? || a.HandOver? {
        CallIgnoresSupervisor(c, s, t, a);
      } else if a.Create? {
        CreateIgnoresSupervisor(c, s, t, a);
      } else {
        MoveIgnoresSupervisor(c, s, t, a);
      }
    }
  }

  lemma CallIgnoresSupervisor(c: Config, s: State, t: State, a: ManagerAction)
    requires t == s.(run := t.run, generation := t.generation)
    requires ManagerEnabled(s, a) && ManagerEnabled(t, a) && (a.OpenSession? || a.Report? || a.HandOver?)
    ensures ManagerStep(c, t, a) == ManagerStep(c, s, a).(run := t.run, generation := t.generation)
  {
  }

  lemma CreateIgnoresSupervisor(c: Config, s: State, t: State, a: ManagerAction)
    requires t == s.(run := t.run, generation := t.generation)
    requires ManagerEnabled(s, a) && ManagerEnabled(t, a) && a.Create?
    ensures ManagerStep(c, t, a) == ManagerStep(c, s, a).(run := t.run, generation := t.generation)
  {
  }

  lemma MoveIgnoresSupervisor(c: Config, s: State, t: State, a: ManagerAction)
    requires t == s.(run := t.run, generation := t.generation)
    requires ManagerEnabled(s, a) && ManagerEnabled(t, a) && !(a.OpenSession? || a.Report? || a.HandOver? || a.Create?)
    ensures ManagerStep(c, t, a) == ManagerStep(c, s, a).(run := t.run, generation := t.generation)
  {
  }

  lemma {:induction false} SupervisedStays(c: Config, opening: Opening, schedule: seq<Turn>, m: nat, n: nat)
    requires m <= n <= |schedule|
    requires m < n ==> Supervised(c, opening, schedule, m).run.Returned?
    ensures Supervised(c, opening, schedule, n) == Supervised(c, opening, schedule, m)
  {
    if m < n {
      SupervisedStays(c, opening, schedule, m, n - 1);
    }
  }
}
