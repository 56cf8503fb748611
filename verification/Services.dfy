/** `runServeServices` (internal/cli/services.go) with the composed gateway as its first service:
    two goroutines, a result channel of two slots, the startup timer, the parent context and the
    run context derived from it. Every select chooses freely among its ready cases. */
module Services {
  import opened Options
  import P = GatewayProtocol
  import I = GatewayInvariant
  import T = GatewayTheorems
  import H = GatewayHistory

  datatype ServiceError = ServiceError(code: nat, isCanceled: bool)

  datatype Service = QQGateway | HTTPServer

  datatype ServiceResult = ServiceResult(service: Service, err: Option<ServiceError>)

  /** One of the errors `errors.Join` puts together; the empty sequence is nil. */
  datatype Failure = NotReady | StoppedUnexpectedly(service: Service) | Failed(err: ServiceError)

  function ServiceFailure(result: ServiceResult): seq<Failure> {
    if result.err.None? then [StoppedUnexpectedly(result.service)] else [Failed(result.err.value)]
  }

  function ShutdownError(err: Option<ServiceError>): seq<Failure> {
    if err.Some? && !err.value.isCanceled then [Failed(err.value)] else []
  }

  datatype MainPc =
    | AwaitingReady
    | EarlyResult(result: ServiceResult)
    | DrainingOne(late: bool)
    | Launching
    | AwaitingEnd
    | CheckingFirst(first: ServiceResult)
    | DrainingBoth
    | DrainingLast(first: ServiceResult)
    | DrainingSecond(first: ServiceResult, parentStopped: bool)
    | Returned(verdict: seq<Failure>)

  datatype HttpPc = NotStarted | Running | Delivered

  datatype System = System(
    gateway: P.State,
    gatewayDelivered: bool,
    http: HttpPc,
    parentDone: bool,
    cancelled: bool,                // cancel() of the run context was called
    timerExpired: bool,
    results: seq<ServiceResult>,    // the buffered channel
    stopped: seq<ServiceResult>,    // every result sent so far, in order
    main: MainPc)

  datatype Config = Config(gateway: P.Config, readyTimeout: nat)

  const START := System(P.START, false, NotStarted, false, false, false, [], [], AwaitingReady)

  datatype WorldAction =
    | CancelParent
    | GatewayMoves(step: P.Action)
    | GatewayDelivers(err: ServiceError)
    | HttpStops(outcome: Option<ServiceError>)
    | StartupTimerExpires

  predicate RunCancelled(s: System) {
    s.parentDone || s.cancelled
  }

  /** The gateway sees its context end only when the run context has. */
  predicate WorldEnabled(c: Config, s: System, a: WorldAction) {
    match a
    case CancelParent => !s.parentDone
    case GatewayMoves(step) =>
      P.Enabled(s.gateway, step) && (step == P.Environment(P.CancelContext) ==> RunCancelled(s))
    case GatewayDelivers(_) => s.gateway.run.Returned? && !s.gatewayDelivered && |s.results| < 2
    case HttpStops(_) => s.http.Running? && |s.results| < 2
    case StartupTimerExpires => !s.timerExpired && c.readyTimeout <= s.gateway.now
  }

  function Deliver(s: System, result: ServiceResult): System {
    s.(results := s.results + [result], stopped := s.stopped + [result])
  }

  function WorldStep(c: Config, s: System, a: WorldAction): System
    requires WorldEnabled(c, s, a)
  {
    match a
    case CancelParent => s.(parentDone := true)
    case GatewayMoves(step) => s.(gateway := P.Step(c.gateway, s.gateway, step))
    case GatewayDelivers(err) =>
      Deliver(s, ServiceResult(QQGateway, if s.gateway.run.exit.Clean? then None else Some(err))).(gatewayDelivered := true)
    case HttpStops(outcome) => Deliver(s, ServiceResult(HTTPServer, outcome)).(http := Delivered)
    case StartupTimerExpires => s.(timerExpired := true)
  }

  datatype MainAction =
    | TakeReady | TakeEarly | TakeDone | TakeTimeout | JudgeEarly | DrainOne
    | Launch | TakeEnd | TakeFirst | CheckFirst | DrainFirst | DrainLast | DrainSecond

  predicate MainEnabled(s: System, a: MainAction) {
    match a
    case TakeReady => s.main.AwaitingReady? && s.gateway.readyCloses > 0
    case TakeEarly => s.main.AwaitingReady? && s.results != []
    case TakeDone => s.main.AwaitingReady? && s.parentDone
    case TakeTimeout => s.main.AwaitingReady? && s.timerExpired
    case JudgeEarly => s.main.EarlyResult?
    case DrainOne => s.main.DrainingOne? && s.results != []
    case Launch => s.main.Launching?
    case TakeEnd => s.main.AwaitingEnd? && s.parentDone
    case TakeFirst => s.main.AwaitingEnd? && s.results != []
    case CheckFirst => s.main.CheckingFirst?
    case DrainFirst => s.main.DrainingBoth? && s.results != []
    case DrainLast => s.main.DrainingLast? && s.results != []
    case DrainSecond => s.main.DrainingSecond? && s.results != []
  }

  /** Returning runs the deferred `cancel`. */
  function Return(s: System, verdict: seq<Failure>): System {
    s.(main := Returned(verdict), cancelled := true)
  }

  function Received(s: System): System
    requires s.results != []
  {
    s.(results := s.results[1..])
  }

  function MainStep(s: System, a: MainAction): System
    requires MainEnabled(s, a)
  {
    match a
    case TakeReady => s.(main := Launching)
    case TakeEarly => Received(s).(main := EarlyResult(s.results[0]))
    case TakeDone => s.(main := DrainingOne(false), cancelled := true)
    case TakeTimeout => s.(main := DrainingOne(true), cancelled := true)
    case JudgeEarly =>
      Return(s, if s.parentDone then ShutdownError(s.main.result.err) else ServiceFailure(s.main.result))
    case DrainOne =>
      Return(Received(s), (if s.main.late then [NotReady] else []) + ShutdownError(s.results[0].err))
    case Launch => s.(main := AwaitingEnd, http := Running)
    case TakeEnd => s.(main := DrainingBoth, cancelled := true)
    case TakeFirst => Received(s).(main := CheckingFirst(s.results[0]))
    case CheckFirst => s.(main := DrainingSecond(s.main.first, s.parentDone), cancelled := true)
    case DrainFirst => Received(s).(main := DrainingLast(s.results[0]))
    case DrainLast => Return(Received(s), ShutdownError(s.main.first.err) + ShutdownError(s.results[0].err))
    case DrainSecond =>
      Return(Received(s),
             (if s.main.parentStopped then ShutdownError(s.main.first.err) else ServiceFailure(s.main.first))
               + ShutdownError(s.results[0].err))
  }

  datatype Action = World(world: WorldAction) | Main(main: MainAction)

  predicate Enabled(c: Config, s: System, a: Action) {
    match a
    case World(w) => WorldEnabled(c, s, w)
    case Main(m) => MainEnabled(s, m)
  }

  function Step(c: Config, s: System, a: Action): System
    requires Enabled(c, s, a)
  {
    match a
    case World(w) => WorldStep(c, s, w)
    case Main(m) => MainStep(s, m)
  }

  predicate Moves(c: Config, states: seq<System>, actions: seq<Action>, i: nat)
    requires i < |actions| < |states|
  {
    Enabled(c, states[i], actions[i]) && states[i + 1] == Step(c, states[i], actions[i])
  }

  ghost predicate IsRun(c: Config, states: seq<System>, actions: seq<Action>) {
    && |states| == |actions| + 1
    && states[0] == START
    && forall i {:trigger Moves(c, states, actions, i)} :: 0 <= i < |actions| ==> Moves(c, states, actions, i)
  }

  // ---- invariant ----

  ghost predicate GatewayInv(c: Config, s: System) {
    && I.Inv(c.gateway, s.gateway)
    && (s.gateway.ctxDone ==> RunCancelled(s))
  }

  /** Who has stopped so far, and how many results the main goroutine has taken. */
  predicate Counts(s: System, taken: nat) {
    && |s.stopped| == (if s.gatewayDelivered then 1 else 0) + (if s.http.Delivered? then 1 else 0)
    && taken <= |s.stopped|
    && s.results == s.stopped[taken..]
  }

  ghost predicate MainInv(s: System) {
    && (s.gatewayDelivered ==> s.gateway.run.Returned?)
    && (s.http != NotStarted ==> s.gateway.readyCloses > 0)
    && match s.main
       case AwaitingReady => Counts(s, 0) && s.http.NotStarted?
       case EarlyResult(result) => Counts(s, 1) && s.http.NotStarted? && s.stopped[0] == result
       case DrainingOne(late) => Counts(s, 0) && s.http.NotStarted? && s.cancelled && (late || s.parentDone)
       case Launching => Counts(s, 0) && s.http.NotStarted? && s.gateway.readyCloses > 0
       case AwaitingEnd => Counts(s, 0) && !s.http.NotStarted?
       case CheckingFirst(first) => Counts(s, 1) && !s.http.NotStarted? && s.stopped[0] == first
       case DrainingBoth => Counts(s, 0) && !s.http.NotStarted? && s.cancelled && s.parentDone
       case DrainingLast(first) =>
         Counts(s, 1) && !s.http.NotStarted? && s.cancelled && s.parentDone && s.stopped[0] == first
       case DrainingSecond(first, parentStopped) =>
         && Counts(s, 1) && !s.http.NotStarted? && s.cancelled && s.stopped[0] == first
         && (parentStopped ==> s.parentDone)
       case Returned(verdict) =>
         && s.gatewayDelivered && !s.http.Running? && s.results == [] && s.cancelled
         && Counts(s, |s.stopped|)
         && Judged(s, verdict)
  }

  /** Without the parent's cancellation the verdict names what ended the service. */
  ghost predicate Judged(s: System, verdict: seq<Failure>) {
    s.parentDone || NotReady in verdict || (s.stopped != [] && ServiceFailure(s.stopped[0]) <= verdict)
  }

  lemma StartInv(c: Config)
    ensures GatewayInv(c, START) && MainInv(START)
  {
    I.StartInv(c.gateway);
  }

  lemma GatewayKept(c: Config, s: System, step: P.Action)
    requires GatewayInv(c, s) && WorldEnabled(c, s, GatewayMoves(step))
    ensures var g := P.Step(c.gateway, s.gateway, step);
      && I.Inv(c.gateway, g)
      && (g.ctxDone ==> RunCancelled(s))
      && (s.gateway.run.Returned? ==> g.run == s.gateway.run)
      && (s.gateway.readyCloses > 0 ==> g.readyCloses > 0)
  {
    I.InvKept(c.gateway, s.gateway, step);
    GatewayFrame(c.gateway, s.gateway, step);
  }

  /** What services see of a gateway step. */
  lemma GatewayFrame(c: P.Config, g: P.State, step: P.Action)
    requires P.Enabled(g, step)
    ensures var t := P.Step(c, g, step);
      && (t.ctxDone <==> g.ctxDone || step == P.Environment(P.CancelContext))
      && (g.run.Returned? ==> t.run == g.run)
      && (g.readyCloses > 0 ==> t.readyCloses > 0)
  {
    match step
    case Environment(e) => I.EnvironmentExtends(g, e);
    case Session(m) => I.ManagerExtends(c, g, m);
    case Supervisor(r) => I.RunExtends(c, g, r);
  }

  /** What a gateway step leaves of the main invariant. */
  lemma MainFrame(s: System, g: P.State)
    requires MainInv(s)
    requires s.gateway.run.Returned? ==> g.run.Returned?
    requires s.gateway.readyCloses > 0 ==> g.readyCloses > 0
    ensures MainInv(s.(gateway := g))
  {
  }

  lemma DeliveryKept(c: Config, s: System, a: WorldAction)
    requires MainInv(s) && WorldEnabled(c, s, a) && (a.GatewayDelivers? || a.HttpStops?)
    ensures MainInv(WorldStep(c, s, a))
  {
    var t := WorldStep(c, s, a);
    DeliveryFrame(s, t, t.stopped[|s.stopped|]);
  }

  lemma DeliveryFrame(s: System, t: System, result: ServiceResult)
    requires MainInv(s) && !s.main.Returned?
    requires t == s.(results := s.results + [result], stopped := s.stopped + [result],
                     gatewayDelivered := t.gatewayDelivered, http := t.http)
    requires || (!s.gatewayDelivered && t.gatewayDelivered && s.gateway.run.Returned? && t.http == s.http)
             || (s.http.Running? && t.http.Delivered? && t.gatewayDelivered == s.gatewayDelivered)
    ensures MainInv(t)
  {
    CountsGrow(s, t, 0, result);
    CountsGrow(s, t, 1, result);
  }

  /** One more service has stopped; nothing was taken. */
  lemma CountsGrow(s: System, t: System, taken: nat, result: ServiceResult)
    requires t.stopped == s.stopped + [result] && t.results == s.results + [result]
    requires (if t.gatewayDelivered then 1 else 0) + (if t.http.Delivered? then 1 else 0)
          == (if s.gatewayDelivered then 1 else 0) + (if s.http.Delivered? then 1 else 0) + 1
    ensures Counts(s, taken) ==> Counts(t, taken)
  {
    if Counts(s, taken) {
      TailGrows(s.stopped, result, taken);
    }
  }

  lemma TailGrows(s: seq<ServiceResult>, x: ServiceResult, k: nat)
    requires k <= |s|
    ensures (s + [x])[k..] == s[k..] + [x]
  {
  }

  lemma WorldKept(c: Config, s: System, a: WorldAction)
    requires GatewayInv(c, s) && MainInv(s) && WorldEnabled(c, s, a)
    ensures GatewayInv(c, WorldStep(c, s, a)) && MainInv(WorldStep(c, s, a))
  {
    if a.GatewayMoves? {
      GatewayKept(c, s, a.step);
      MainFrame(s, P.Step(c.gateway, s.gateway, a.step));
    } else if a.GatewayDelivers? || a.HttpStops? {
      DeliveryKept(c, s, a);
    }
  }

  lemma MainKept(c: Config, s: System, a: MainAction)
    requires GatewayInv(c, s) && MainInv(s) && MainEnabled(s, a)
    ensures GatewayInv(c, MainStep(s, a)) && MainInv(MainStep(s, a))
  {
    MainKeepsGateway(c, s, a);
    if a.JudgeEarly? || a.DrainOne? || a.DrainLast? || a.DrainSecond? {
      ReturnKept(s, a);
    } else if a.TakeEarly? || a.TakeFirst? || a.DrainFirst? {
      ReceiptKept(s, a);
    } else {
      MoveKept(s, a);
    }
  }

  lemma MainKeepsGateway(c: Config, s: System, a: MainAction)
    requires GatewayInv(c, s) && MainEnabled(s, a)
    ensures GatewayInv(c, MainStep(s, a))
  {
    assert MainStep(s, a).gateway == s.gateway;
  }

  lemma ReturnKept(s: System, a: MainAction)
    requires MainInv(s) && MainEnabled(s, a) && (a.JudgeEarly? || a.DrainOne? || a.DrainLast? || a.DrainSecond?)
    ensures MainInv(MainStep(s, a))
  {
  }

  lemma ReceiptKept(s: System, a: MainAction)
    requires MainInv(s) && MainEnabled(s, a) && (a.TakeEarly? || a.TakeFirst? || a.DrainFirst?)
    ensures MainInv(MainStep(s, a))
  {
  }

  lemma MoveKept(s: System, a: MainAction)
    requires MainInv(s) && MainEnabled(s, a)
    requires a.TakeReady? || a.TakeDone? || a.TakeTimeout? || a.Launch? || a.TakeEnd? || a.CheckFirst?
    ensures MainInv(MainStep(s, a))
  {
  }

  lemma {:induction false} Reachable(c: Config, states: seq<System>, actions: seq<Action>, k: nat)
    requires IsRun(c, states, actions) && k < |states|
    ensures GatewayInv(c, states[k]) && MainInv(states[k])
  {
    if k == 0 {
      StartInv(c);
    } else {
      Reachable(c, states, actions, k - 1);
      assert Moves(c, states, actions, k - 1);
      match actions[k - 1]
      case World(w) => WorldKept(c, states[k - 1], w);
      case Main(m) => MainKept(c, states[k - 1], m);
    }
  }

  // ---- theorems ----

  /** On every return path each service that was started has delivered its result, and the
      gateway service was always started. */
  lemma ServicesAreJoined(c: Config, states: seq<System>, actions: seq<Action>, k: nat)
    requires IsRun(c, states, actions) && k < |states| && states[k].main.Returned?
    ensures states[k].gatewayDelivered && states[k].gateway.run.Returned?
    ensures states[k].http.NotStarted? || states[k].http.Delivered?
    ensures states[k].results == [] && RunCancelled(states[k])
    ensures |states[k].stopped| == if states[k].http.NotStarted? then 1 else 2
  {
    Reachable(c, states, actions, k);
  }

  /** The two slots of the result channel are enough: a service that wants to send always can. */
  lemma SendersNeverBlock(c: Config, states: seq<System>, actions: seq<Action>, k: nat)
    requires IsRun(c, states, actions) && k < |states|
    ensures |states[k].results| <= 2
    ensures states[k].http.Running? || (states[k].gateway.run.Returned? && !states[k].gatewayDelivered)
      ==> |states[k].results| < 2
  {
    Reachable(c, states, actions, k);
  }

  /** HTTP starts only after the gateway closed `ready`, and it did so because it accepted a READY
      of its live session; `ready` is closed at most once. */
  lemma HttpStartsAfterReady(c: Config, states: seq<System>, actions: seq<Action>, k: nat)
    requires IsRun(c, states, actions) && k < |states|
    ensures states[k].gateway.readyCloses <= 1
    ensures !states[k].http.NotStarted? ==>
      exists i: nat ::
        && i < |states[k].gateway.history| && states[k].gateway.history[i].Ready?
        && H.Accepted(states[k].gateway.history, i)
  {
    Reachable(c, states, actions, k);
    if !states[k].http.NotStarted? {
      T.GenuineReady(c.gateway, states[k].gateway);
    }
  }

  /** `runServeServices` returns nil only after the parent was cancelled; otherwise its error
      carries the readiness timeout or the failure of the first service to stop. */
  lemma ShutdownVerdict(c: Config, states: seq<System>, actions: seq<Action>, k: nat)
    requires IsRun(c, states, actions) && k < |states| && states[k].main.Returned?
    ensures states[k].main.verdict == [] ==> states[k].parentDone
    ensures !states[k].parentDone && NotReady !in states[k].main.verdict ==>
      && states[k].stopped != []
      && match states[k].stopped[0].err
         case None => StoppedUnexpectedly(states[k].stopped[0].service) in states[k].main.verdict
         case Some(err) => Failed(err) in states[k].main.verdict
    ensures NotReady in states[k].main.verdict ==> states[k].http.NotStarted? && c.readyTimeout <= states[k].gateway.now
  {
    Reachable(c, states, actions, k);
    TimeoutIsGenuine(c, states, actions, k);
    var verdict := states[k].main.verdict;
    if !states[k].parentDone && NotReady !in verdict {
      assert ServiceFailure(states[k].stopped[0])[0] == verdict[0];
    }
  }

  /** The readiness timeout is reported only when it ran out before HTTP was started. */
  ghost predicate TimeoutInv(c: Config, s: System) {
    && (s.timerExpired ==> c.readyTimeout <= s.gateway.now)
    && match s.main
       case DrainingOne(late) => s.http.NotStarted? && (late ==> s.timerExpired)
       case EarlyResult(_) => s.http.NotStarted?
       case AwaitingReady => s.http.NotStarted?
       case Launching => s.http.NotStarted?
       case Returned(verdict) => NotReady in verdict ==> s.timerExpired && s.http.NotStarted?
       case _ => true
  }

  lemma TimeoutKeptByWorld(c: Config, s: System, a: WorldAction)
    requires TimeoutInv(c, s) && WorldEnabled(c, s, a)
    ensures TimeoutInv(c, WorldStep(c, s, a))
  {
    if a.GatewayMoves? {
      ClockRuns(c.gateway, s.gateway, a.step);
    }
  }

  lemma ClockRuns(c: P.Config, g: P.State, step: P.Action)
    requires P.Enabled(g, step)
    ensures g.now <= P.Step(c, g, step).now
  {
    match step
    case Environment(e) => I.EnvironmentExtends(g, e);
    case Session(m) => I.ManagerExtends(c, g, m);
    case Supervisor(r) => I.RunExtends(c, g, r);
  }

  lemma TimeoutKeptByMain(c: Config, s: System, a: MainAction)
    requires TimeoutInv(c, s) && MainEnabled(s, a)
    ensures TimeoutInv(c, MainStep(s, a))
  {
  }

  lemma {:induction false} TimeoutIsGenuine(c: Config, states: seq<System>, actions: seq<Action>, k: nat)
    requires IsRun(c, states, actions) && k < |states|
    ensures TimeoutInv(c, states[k])
  {
    if k > 0 {
      TimeoutIsGenuine(c, states, actions, k - 1);
      assert Moves(c, states, actions, k - 1);
      match actions[k - 1]
      case World(w) => TimeoutKeptByWorld(c, states[k - 1], w);
      case Main(m) => TimeoutKeptByMain(c, states[k - 1], m);
    }
  }

  // ---- what the verdict says ----

  /** Every error of a service but a cancellation is in the verdict, every error in the verdict is
      that of a service, and only the first to stop can be said to have stopped unexpectedly. */
  ghost predicate Complete(stopped: seq<ServiceResult>, verdict: seq<Failure>) {
    && (forall r, err :: r in stopped && r.err == Some(err) && !err.isCanceled ==> Failed(err) in verdict)
    && (forall err :: Failed(err) in verdict ==> exists r :: r in stopped && r.err == Some(err))
    && (forall service :: StoppedUnexpectedly(service) in verdict ==>
          stopped != [] && stopped[0] == ServiceResult(service, None))
  }

  lemma OneStopped(s: System)
    requires MainInv(s) && (s.main.EarlyResult? || (s.main.DrainingOne? && s.results != []))
    ensures s.stopped == [if s.main.EarlyResult? then s.main.result else s.results[0]]
  {
    assert |s.stopped| == 1;
  }

  lemma TwoStopped(s: System)
    requires MainInv(s) && (s.main.DrainingLast? || s.main.DrainingSecond?) && s.results != []
    ensures s.stopped == [s.main.first, s.results[0]]
  {
    assert |s.stopped| == 2;
    assert s.stopped[1..] == [s.stopped[1]];
  }

  lemma OneVerdict(r: ServiceResult, late: bool)
    ensures Complete([r], ServiceFailure(r))
    ensures Complete([r], (if late then [NotReady] else []) + ShutdownError(r.err))
    ensures Complete([r], ShutdownError(r.err))
    ensures ShutdownError(r.err) == [] <==> Quiet(r)
    ensures ShutdownError(r.err) == [] <==> forall x :: x in [r] ==> Quiet(x)
    ensures [] + ShutdownError(r.err) == ShutdownError(r.err)
  {
    assert r in [r];
  }

  lemma TwoVerdicts(r1: ServiceResult, r2: ServiceResult)
    ensures Complete([r1, r2], ServiceFailure(r1) + ShutdownError(r2.err))
    ensures Complete([r1, r2], ShutdownError(r1.err) + ShutdownError(r2.err))
    ensures ShutdownError(r1.err) + ShutdownError(r2.err) == [] <==> forall x :: x in [r1, r2] ==> Quiet(x)
  {
    assert r1 in [r1, r2] && r2 in [r1, r2];
  }

  lemma ReturnIsComplete(s: System, a: MainAction)
    requires MainInv(s) && MainEnabled(s, a) && MainStep(s, a).main.Returned?
    ensures Complete(MainStep(s, a).stopped, MainStep(s, a).main.verdict)
  {
    if a.JudgeEarly? || a.DrainOne? {
      OneStopped(s);
      OneVerdict(s.stopped[0], s.main.DrainingOne? && s.main.late);
    } else {
      TwoStopped(s);
      TwoVerdicts(s.main.first, s.results[0]);
    }
  }

  /** No failure of a service is lost, on any return path, and none is made up. */
  lemma {:induction false} VerdictIsComplete(c: Config, states: seq<System>, actions: seq<Action>, k: nat)
    requires IsRun(c, states, actions) && k < |states| && states[k].main.Returned?
    ensures Complete(states[k].stopped, states[k].main.verdict)
  {
    Reachable(c, states, actions, k - 1);
    if states[k - 1].main.Returned? {
      VerdictIsComplete(c, states, actions, k - 1);
    }
    assert Moves(c, states, actions, k - 1);
    CompleteStep(c, states[k - 1], actions[k - 1]);
  }

  lemma CompleteStep(c: Config, s: System, a: Action)
    requires MainInv(s) && Enabled(c, s, a) && Step(c, s, a).main.Returned?
    requires s.main.Returned? ==> Complete(s.stopped, s.main.verdict)
    ensures Complete(Step(c, s, a).stopped, Step(c, s, a).main.verdict)
  {
    if s.main.Returned? {
      NothingAfterReturn(c, s, a);
    } else {
      ReturnIsComplete(s, a.main);
    }
  }

  /** Nothing is delivered after the return. */
  lemma NothingAfterReturn(c: Config, s: System, a: Action)
    requires MainInv(s) && Enabled(c, s, a) && s.main.Returned?
    ensures Step(c, s, a).stopped == s.stopped && Step(c, s, a).main == s.main
  {
  }

  predicate Quiet(result: ServiceResult) {
    result.err.None? || result.err.value.isCanceled
  }

  /** A shutdown on the parent's demand is under way, or over with exactly the failures of services
      that did not just stop. */
  ghost predicate Forgiving(s: System) {
    match s.main
    case AwaitingReady => false
    case DrainingOne(late) => !late
    case DrainingSecond(_, parentStopped) => parentStopped
    case DrainingBoth => true
    case DrainingLast(_) => true
    case Returned(verdict) =>
      && (verdict == [] <==> forall r :: r in s.stopped ==> Quiet(r))
      && (forall f :: f in verdict ==> f.Failed?)
    case _ => s.parentDone
  }

  lemma ForgivingReturn(s: System, a: MainAction)
    requires MainInv(s) && MainEnabled(s, a) && Forgiving(s) && MainStep(s, a).main.Returned?
    ensures Forgiving(MainStep(s, a))
  {
    if a.JudgeEarly? || a.DrainOne? {
      ForgivingOne(s, a);
    } else {
      ForgivingTwo(s, a);
    }
  }

  lemma ForgivingOne(s: System, a: MainAction)
    requires MainInv(s) && MainEnabled(s, a) && Forgiving(s) && (a.JudgeEarly? || a.DrainOne?)
    ensures Forgiving(MainStep(s, a))
  {
    OneStopped(s);
    OneVerdict(s.stopped[0], false);
    assert MainStep(s, a).stopped == s.stopped && MainStep(s, a).main.verdict == ShutdownError(s.stopped[0].err);
  }

  lemma ForgivingTwo(s: System, a: MainAction)
    requires MainInv(s) && MainEnabled(s, a) && Forgiving(s) && (a.DrainLast? || a.DrainSecond?)
    ensures Forgiving(MainStep(s, a))
  {
    TwoStopped(s);
    TwoVerdicts(s.main.first, s.results[0]);
  }

  lemma ForgivingStep(c: Config, s: System, a: Action)
    requires MainInv(s) && Enabled(c, s, a) && Forgiving(s)
    ensures Forgiving(Step(c, s, a))
  {
    if s.main.Returned? {
      NothingAfterReturn(c, s, a);
    } else if a.Main? && MainStep(s, a.main).main.Returned? {
      ForgivingReturn(s, a.main);
    }
  }

  /** Once the parent is cancelled before a service's result is judged, nil comes back exactly when
      every service ended without an error or with a cancellation. */
  lemma {:induction false} ShutdownIsForgiven(c: Config, states: seq<System>, actions: seq<Action>, k: nat, j: nat)
    requires IsRun(c, states, actions) && k <= j < |states| && Forgiving(states[k])
    ensures Forgiving(states[j])
    ensures states[j].main.Returned? ==>
      (states[j].main.verdict == [] <==> forall r :: r in states[j].stopped ==> Quiet(r))
  {
    if k < j {
      ShutdownIsForgiven(c, states, actions, k, j - 1);
      Reachable(c, states, actions, j - 1);
      assert Moves(c, states, actions, j - 1);
      ForgivingStep(c, states[j - 1], actions[j - 1]);
    }
  }

  /** A service that stopped while the parent went on is blamed for it, whatever happens to the
      parent meanwhile. */
  ghost predicate Blames(s: System, first: ServiceResult) {
    match s.main
    case DrainingSecond(result, parentStopped) => result == first && !parentStopped
    case Returned(verdict) =>
      (match first.err
       case None => StoppedUnexpectedly(first.service) in verdict
       case Some(err) => Failed(err) in verdict)
    case _ => false
  }

  lemma BlameStep(c: Config, s: System, a: Action, first: ServiceResult)
    requires MainInv(s) && Enabled(c, s, a) && Blames(s, first)
    ensures Blames(Step(c, s, a), first)
  {
    if s.main.Returned? {
      NothingAfterReturn(c, s, a);
    } else if a.Main? {
      assert MainStep(s, a.main).main.verdict[0] == ServiceFailure(first)[0];
    }
  }

  lemma {:induction false} FirstFailureIsBlamed(c: Config, states: seq<System>, actions: seq<Action>, k: nat, j: nat,
                                                first: ServiceResult)
    requires IsRun(c, states, actions) && k <= j < |states| && Blames(states[k], first)
    ensures Blames(states[j], first)
  {
    if k < j {
      FirstFailureIsBlamed(c, states, actions, k, j - 1, first);
      Reachable(c, states, actions, j - 1);
      assert Moves(c, states, actions, j - 1);
      BlameStep(c, states[j - 1], actions[j - 1], first);
    }
  }

  // ---- a gateway that stops by itself ----

  const STOPPED := ServiceResult(QQGateway, None)

  /** The gateway stops without an error only when the run context has ended; before `cancel` is
      called, only the parent's end can have ended it. */
  ghost predicate GatewayNeverJustStops(s: System) {
    && (STOPPED in s.stopped ==> RunCancelled(s))
    && match s.main
       case AwaitingReady => !s.cancelled
       case EarlyResult(_) => !s.cancelled
       case Launching => !s.cancelled
       case AwaitingEnd => !s.cancelled
       case CheckingFirst(_) => !s.cancelled
       case DrainingSecond(first, parentStopped) => first == STOPPED ==> parentStopped
       case Returned(verdict) => StoppedUnexpectedly(QQGateway) !in verdict
       case _ => true
  }

  lemma WorldKeepsStops(c: Config, s: System, a: WorldAction)
    requires GatewayInv(c, s) && MainInv(s) && GatewayNeverJustStops(s) && WorldEnabled(c, s, a)
    ensures GatewayNeverJustStops(WorldStep(c, s, a))
  {
  }

  lemma MainKeepsStops(c: Config, s: System, a: MainAction)
    requires MainInv(s) && GatewayNeverJustStops(s) && MainEnabled(s, a)
    ensures GatewayNeverJustStops(MainStep(s, a))
  {
  }

  lemma {:induction false} GatewayStopsOnlyWhenCancelled(c: Config, states: seq<System>, actions: seq<Action>, k: nat)
    requires IsRun(c, states, actions) && k < |states|
    ensures GatewayNeverJustStops(states[k])
  {
    if k > 0 {
      GatewayStopsOnlyWhenCancelled(c, states, actions, k - 1);
      Reachable(c, states, actions, k - 1);
      assert Moves(c, states, actions, k - 1);
      match actions[k - 1]
      case World(w) => WorldKeepsStops(c, states[k - 1], w);
      case Main(m) => MainKeepsStops(c, states[k - 1], m);
    }
  }

  /** With the real gateway "stopped unexpectedly" is never said of it, on any return path. */
  lemma GatewayIsNeverBlamed(c: Config, states: seq<System>, actions: seq<Action>, k: nat)
    requires IsRun(c, states, actions) && k < |states| && states[k].main.Returned?
    ensures StoppedUnexpectedly(QQGateway) !in states[k].main.verdict
  {
    GatewayStopsOnlyWhenCancelled(c, states, actions, k);
  }

  // ---- shutdown ----

  function MainRank(main: MainPc): nat {
    match main
    case AwaitingReady => 5
    case Launching => 4
    case AwaitingEnd => 3
    case CheckingFirst(_) => 2
    case DrainingBoth => 2
    case EarlyResult(_) => 1
    case DrainingOne(_) => 1
    case DrainingLast(_) => 1
    case DrainingSecond(_, _) => 1
    case Returned(_) => 0
  }

  function StopMeasure(s: System): nat {
    MainRank(s.main)
      + (if s.gateway.ctxDone then T.CancelRank(s.gateway) else 8)
      + (if s.gatewayDelivered then 0 else 1)
      + (match s.http { case NotStarted => 2 case Running => 1 case Delivered => 0 })
  }

  /** The steps of the main goroutine and of services that stop on cancellation. */
  predicate Stops(s: System, a: Action) {
    match a
    case Main(_) => true
    case World(GatewayMoves(step)) =>
      step == P.Environment(P.CancelContext) || (step.Supervisor? && s.gateway.ctxDone)
    case World(GatewayDelivers(_)) => true
    case World(HttpStops(_)) => true
    case World(_) => false
  }

  lemma GatewayMeasure(c: Config, s: System, step: P.Action)
    requires WorldEnabled(c, s, GatewayMoves(step))
    ensures StopMeasure(WorldStep(c, s, GatewayMoves(step)))
         <= StopMeasure(s) - if Stops(s, World(GatewayMoves(step))) then 1 else 0
  {
    match step
    case Environment(e) => I.EnvironmentExtends(s.gateway, e);
    case Session(m) => I.ManagerExtends(c.gateway, s.gateway, m);
    case Supervisor(r) =>
      I.RunExtends(c.gateway, s.gateway, r);
      if s.gateway.ctxDone {
        T.CancelRankFalls(c.gateway, s.gateway, r);
      }
  }

  /** No select waits for ever once the run context ended, if services stop on cancellation: each
      of their steps and of the main goroutine's lowers the measure, no other step raises it... */
  lemma ShutdownProgress(c: Config, states: seq<System>, actions: seq<Action>, k: nat)
    requires IsRun(c, states, actions) && k < |actions|
    ensures StopMeasure(states[k + 1]) + (if Stops(states[k], actions[k]) then 1 else 0) <= StopMeasure(states[k])
  {
    Reachable(c, states, actions, k);
    assert Moves(c, states, actions, k);
    StepLowersMeasure(c, states[k], actions[k]);
  }

  lemma StepLowersMeasure(c: Config, s: System, a: Action)
    requires MainInv(s) && Enabled(c, s, a)
    ensures StopMeasure(Step(c, s, a)) + (if Stops(s, a) then 1 else 0) <= StopMeasure(s)
  {
    if a.Main? {
      MainLowersMeasure(s, a.main);
    } else if a.world.GatewayMoves? {
      GatewayMeasure(c, s, a.world.step);
    }
  }

  lemma MainLowersMeasure(s: System, a: MainAction)
    requires MainInv(s) && MainEnabled(s, a)
    ensures StopMeasure(MainStep(s, a)) < StopMeasure(s)
  {
  }

  /** ... and until `runServeServices` returns one of them is enabled. */
  lemma ShutdownIsNeverStuck(c: Config, states: seq<System>, actions: seq<Action>, k: nat) returns (a: Action)
    requires IsRun(c, states, actions) && k < |states|
    requires RunCancelled(states[k]) && !states[k].main.Returned?
    ensures Enabled(c, states[k], a) && Stops(states[k], a)
  {
    Reachable(c, states, actions, k);
    var s := states[k];
    if s.main.AwaitingReady? && s.parentDone {
      a := Main(TakeDone);
    } else if s.main.EarlyResult? {
      a := Main(JudgeEarly);
    } else if s.main.Launching? {
      a := Main(Launch);
    } else if s.main.AwaitingEnd? && s.parentDone {
      a := Main(TakeEnd);
    } else if s.main.CheckingFirst? {
      a := Main(CheckFirst);
    } else if s.results == [] {
      a := ServiceThatStops(c, s);
    } else {
      a := Main(match s.main
                case AwaitingReady => TakeEarly
                case DrainingOne(_) => DrainOne
                case AwaitingEnd => TakeFirst
                case DrainingBoth => DrainFirst
                case DrainingLast(_) => DrainLast
                case _ => DrainSecond);
    }
  }

  lemma ServiceThatStops(c: Config, s: System) returns (a: Action)
    requires GatewayInv(c, s) && MainInv(s) && RunCancelled(s) && s.results == []
    requires !s.main.Returned? && !s.main.EarlyResult? && !s.main.CheckingFirst? && !s.main.Launching?
    ensures Enabled(c, s, a) && Stops(s, a)
  {
    if s.http.Running? {
      a := World(HttpStops(None));
    } else if s.gateway.run.Returned? {
      a := World(GatewayDelivers(ServiceError(0, true)));
    } else if s.gateway.ctxDone {
      var r := T.NextRunAction(s.gateway);
      a := World(GatewayMoves(P.Supervisor(r)));
    } else {
      a := World(GatewayMoves(P.Environment(P.CancelContext)));
    }
  }
}
