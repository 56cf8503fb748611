/** The session manager as the sequential program it is (internal/qqbot/gateway_session.go): the
    client calls of one attempt, and `Start` with its retry loop, while callbacks, the supervisor,
    the clock and the caller move between its statements. Who moves when, and how attempts go, is a
    schedule given to the methods.

    `Managed` says what a schedule means as steps of the protocol, and `Start` is proved to do
    exactly that, so every theorem about runs of the protocol is one about `Start`. */
module GatewaySession {
  import opened Options
  import opened GatewayState
  import opened GatewayProtocol
  import opened GatewayInvariant
  import opened GatewayTheorems
  import opened GatewayOrigins

  // ---- one attempt ----

  datatype ClientCall = Connect | Resume | Identify | Listening | Close

  datatype Outcome = Fine | Fails(err: Error) | Panics(err: Error)

  /** When the goroutine of the listener gets to its call, if the context ends first. */
  datatype Reached = BeforeClose | AfterClose | Never

  /** What the listener and the context do first while the attempt is listening. */
  datatype Ending = ContextDone(listener: Reached) | ListenerEnds(err: Option<Error>)

  datatype Script = Script(
    connect: Outcome, cancelledAfterConnect: bool,
    handshake: Outcome, cancelledAfterHandshake: bool,
    ending: Ending)
  {
    predicate Handshakes() {
      connect.Fine? && !cancelledAfterConnect
    }

    predicate Launches() {
      Handshakes() && handshake.Fine? && !cancelledAfterHandshake
    }
  }

  const CANCELED := Error(1)

  class Client {
    var calls: seq<ClientCall>

    constructor ()
      ensures calls == []
    {
      calls := [];
    }

    method Record(call: ClientCall)
      modifies this
      ensures calls == old(calls) + [call]
    {
      calls := calls + [call];
    }
  }

  /** How far an attempt is. The listener runs in a goroutine of its own, so its call and Close
      come in either order. */
  function Position(call: ClientCall): nat {
    match call
    case Connect => 0
    case Resume => 1
    case Identify => 1
    case Listening => 2
    case Close => 2
  }

  /** Connect, one handshake, then the listener and Close, each at most once. */
  predicate Orderly(calls: seq<ClientCall>) {
    && |calls| > 0 && calls[0] == Connect
    && (forall i, j :: 0 <= i < j < |calls| ==> calls[i] != calls[j] && Position(calls[i]) <= Position(calls[j]))
    && !(Resume in calls && Identify in calls)
  }

  function FinalCalls(ending: Ending): seq<ClientCall> {
    match ending
    case ContextDone(BeforeClose) => [Listening, Close]
    case ContextDone(AfterClose) => [Close, Listening]
    case ContextDone(Never) => [Close]
    case ListenerEnds(_) => [Listening]
  }

  function CallsOf(script: Script, resume: bool): seq<ClientCall> {
    if !script.connect.Fine? then [Connect] + if script.connect.Panics? then [Close] else []
    else if script.cancelledAfterConnect then [Connect, Close]
    else [Connect, if resume then Resume else Identify] + if script.Launches() then FinalCalls(script.ending) else [Close]
  }

  /** The error an attempt ends with. */
  function ResultOf(script: Script): Option<Error> {
    if !script.connect.Fine? then Some(script.connect.err)
    else if script.cancelledAfterConnect then Some(CANCELED)
    else if !script.handshake.Fine? then Some(script.handshake.err)
    else if script.cancelledAfterHandshake || script.ending.ContextDone? then Some(CANCELED)
    else script.ending.err
  }

  /** What the calls and the error of an attempt say, in terms of what happened. A late listener is
      the only call that can follow Close; a failed Connect or handshake comes back as it is, and so
      does what the listener ended with. */
  lemma AttemptMeaning(script: Script, resume: bool)
    ensures var calls := CallsOf(script, resume); var err := ResultOf(script);
      var handshakes := script.connect.Fine? && !script.cancelledAfterConnect;
      var launches := handshakes && script.handshake.Fine? && !script.cancelledAfterHandshake;
      && Orderly(calls)
      && (resume && handshakes <==> Resume in calls) && (Resume in calls ==> calls[1] == Resume)
      && (!resume && handshakes <==> Identify in calls) && (Identify in calls ==> calls[1] == Identify)
      && (Listening in calls <==> launches && script.ending != ContextDone(Never))
      && (Close !in calls <==> script.connect.Fails? || (launches && script.ending.ListenerEnds?))
      && (Close in calls && calls[|calls| - 1] != Close ==> launches && script.ending == ContextDone(AfterClose))
      && (!script.connect.Fine? ==> err == Some(script.connect.err))
      && (script.connect.Fine? && !handshakes ==> err == Some(CANCELED))
      && (handshakes && !script.handshake.Fine? ==> err == Some(script.handshake.err))
      && (handshakes && script.handshake.Fine? && !launches ==> err == Some(CANCELED))
      && (launches && script.ending.ContextDone? ==> err == Some(CANCELED))
      && (launches && script.ending.ListenerEnds? ==> err == script.ending.err)
  {
    var calls := CallsOf(script, resume);
    if script.Launches() {
      assert calls == [Connect, if resume then Resume else Identify] + FinalCalls(script.ending);
    }
  }

  /** `runWebSocketAttempt` */
  method RunWebSocketAttempt(client: Client, script: Script, resume: bool) returns (err: Option<Error>)
    requires client.calls == []
    modifies client
    ensures client.calls == CallsOf(script, resume) && err == ResultOf(script)
  {
    client.Record(Connect);
    if script.connect.Panics? {
      client.Record(Close);
      return Some(script.connect.err);
    }
    if script.connect.Fails? {
      return Some(script.connect.err);
    }
    if script.cancelledAfterConnect {
      client.Record(Close);
      return Some(CANCELED);
    }
    if resume {
      client.Record(Resume);
    } else {
      client.Record(Identify);
    }
    if !script.handshake.Fine? {
      // Both the error path and the deferred recovery of a panic close the client.
      client.Record(Close);
      return Some(script.handshake.err);
    }
    if script.cancelledAfterHandshake {
      client.Record(Close);
      return Some(CANCELED);
    }
    match script.ending {
      case ContextDone(listener) =>
        if listener.BeforeClose? {
          client.Record(Listening);
        }
        client.Record(Close);
        if listener.AfterClose? {
          client.Record(Listening);
        }
        err := Some(CANCELED);
      case ListenerEnds(result) =>
        client.Record(Listening);
        err := result;
    }
  }

  /** `closeSessionAttempt`, for any session: a stale one leaves the gateway alone and gets its
      resumable session; the open one is closed, and the failure is fatal when it cannot identify. */
  method CloseSessionAttempt(g: Gateway, identity: Identity, err: Error, cannotResume: bool, cannotIdentify: bool, now: nat)
    returns (resume: Resumable, fatal: bool)
    requires g.Valid()
    modifies g
    ensures g.Valid() && g.history == old(g.history) + [Failed(identity, err, cannotResume, cannotIdentify, now)]
    ensures resume == g.state.resume && fatal == cannotIdentify
    ensures Stale(old(g.state), identity) ==> g.state == old(g.state) && g.token == old(g.token)
    ensures !Stale(old(g.state), identity) ==>
      && g.token && g.state.currentSession == Some(identity) && !g.state.currentSessionOpen
      && g.state.recovering && g.state.lastError == Some(err)
      && g.state.fatalError == (if fatal then Some(err) else None)
      && (cannotResume ==> resume.id == "" && resume.lastSeq == 0)
      && (!cannotResume ==> resume == old(g.state.resume))
  {
    ReplayIsCoherent(g.history, |g.history|);
    resume := g.SessionFailed(identity, err, cannotResume, cannotIdentify, now);
    fatal := cannotIdentify;
  }

  // ---- what a schedule means ----

  /** What precedes a statement of the manager: the moves of the others, and how the statement goes
      where that is open. `preferDone` resolves a select whose timer and context are both ready. */
  datatype Gap = Gap(
    moves: seq<Action>,
    preferDone: bool,
    refusal: Option<Error>,
    creation: Option<Error>,
    script: Script,
    cannotResume: bool,
    cannotIdentify: bool)

  type Schedule = nat -> Gap

  /** The others may do whatever the protocol allows, but launch a second manager. */
  predicate Foreign(s: State, move: Action) {
    !move.Session? && !(move.Supervisor? && move.supervisor.Begin?) && Enabled(s, move)
  }

  function Moved(c: Config, s: State, move: Action): State {
    if Foreign(s, move) then Step(c, s, move) else s
  }

  function Played(c: Config, s: State, moves: seq<Action>): State {
    if moves == [] then s else Moved(c, Played(c, s, moves[..|moves| - 1]), moves[|moves| - 1])
  }

  /** The next step of the manager; none while its timer runs and when it has finished. */
  function NextStep(s: State, gap: Gap): Option<ManagerAction> {
    match s.manager.pc
    case NotLaunched => None
    case Entering => Some(Enter(gap.refusal))
    case Waiting(until) =>
      if ManagerDone(s) && (until.None? || gap.preferDone || s.now < until.value) then Some(WaitCancelled)
      else if until.None? || until.value <= s.now then Some(WaitOver)
      else None
    case Creating => Some(Create(gap.creation))
    case Opening => Some(OpenSession)
    case Attempting => Some(EndAttempt(ResultOf(gap.script)))
    case Checking(_) => Some(CheckAttempt)
    case Reporting(_) => Some(Report(gap.cannotResume, gap.cannotIdentify))
    case Notifying(_, _, _) => Some(Notify)
    case HandingOver(_, _, _) => Some(HandOver)
    case Finishing(_) => Some(Finish)
    case Finished(_) => None
  }

  function Advanced(c: Config, s: State, gap: Gap): State {
    if NextStep(s, gap).Some? && ManagerEnabled(s, NextStep(s, gap).value)
    then ManagerStep(c, s, NextStep(s, gap).value) else s
  }

  /** The state after `n` gaps and the statements that follow them. */
  function Managed(c: Config, s: State, schedule: Schedule, n: nat): State {
    if n == 0 then s
    else
      var gap := schedule(n - 1);
      Advanced(c, Played(c, Managed(c, s, schedule, n - 1), gap.moves), gap)
  }

  // ---- every schedule is a run of the protocol ----

  lemma {:induction false} PlayedIsReachable(c: Config, s: State, moves: seq<Action>)
    requires IsReachable(c, s)
    ensures IsReachable(c, Played(c, s, moves))
  {
    if moves != [] {
      var t := Played(c, s, moves[..|moves| - 1]);
      PlayedIsReachable(c, s, moves[..|moves| - 1]);
      if Foreign(t, moves[|moves| - 1]) {
        StepIsReachable(c, t, moves[|moves| - 1]);
      }
    }
  }

  lemma AdvancedIsReachable(c: Config, s: State, gap: Gap)
    requires IsReachable(c, s)
    ensures IsReachable(c, Advanced(c, s, gap))
  {
    if NextStep(s, gap).Some? && ManagerEnabled(s, NextStep(s, gap).value) {
      StepIsReachable(c, s, Session(NextStep(s, gap).value));
    }
  }

  lemma {:induction false} ManagedIsReachable(c: Config, s: State, schedule: Schedule, n: nat)
    requires IsReachable(c, s)
    ensures IsReachable(c, Managed(c, s, schedule, n))
  {
    if n > 0 {
      var t := Managed(c, s, schedule, n - 1);
      ManagedIsReachable(c, s, schedule, n - 1);
      PlayedIsReachable(c, t, schedule(n - 1).moves);
      AdvancedIsReachable(c, Played(c, t, schedule(n - 1).moves), schedule(n - 1));
    }
  }

  predicate SameAttempts(s: State, t: State) {
    t.creations == s.creations && t.outcomes == s.outcomes
  }

  /** The others do not touch the manager, its sessions or its context's end. */
  predicate Undisturbed(s: State, t: State) {
    && t.manager == s.manager && SameAttempts(s, t)
    && s.now <= t.now && (ManagerDone(s) ==> ManagerDone(t))
  }

  lemma MovedIsUndisturbed(c: Config, s: State, move: Action)
    ensures Undisturbed(s, Moved(c, s, move))
  {
    if Foreign(s, move) {
      match move
      case Environment(e) => EnvironmentExtends(s, e);
      case Supervisor(r) => RunExtends(c, s, r);
    }
  }

  lemma {:induction false} PlayedIsUndisturbed(c: Config, s: State, moves: seq<Action>)
    ensures Undisturbed(s, Played(c, s, moves))
  {
    if moves != [] {
      PlayedIsUndisturbed(c, s, moves[..|moves| - 1]);
      MovedIsUndisturbed(c, Played(c, s, moves[..|moves| - 1]), moves[|moves| - 1]);
    }
  }

  /** An attempt made the calls and came to the end that its script says, and resumed exactly when
      its session had an ID. */
  predicate Fits(script: Script, created: Creation, calls: seq<ClientCall>, outcome: Option<Error>) {
    calls == CallsOf(script, created.resume.id != "") && outcome == ResultOf(script)
  }

  /** Attempt `k` went as the schedule says at gap `gaps[k]`. */
  ghost predicate AllFit(s: State, schedule: Schedule, calls: seq<seq<ClientCall>>, gaps: seq<nat>) {
    && |s.creations| == |s.outcomes| == |calls| == |gaps|
    && forall k :: 0 <= k < |calls| ==> Fits(schedule(gaps[k]).script, s.creations[k], calls[k], s.outcomes[k])
  }

  // ---- the program ----

  class SessionManager {
    const config: Config
    /** What is shared with the others, and where the manager is. The manager keeps its own record
        up to date and looks at nothing of the others but the clock and its context. */
    var world: State

    constructor (config: Config, world: State)
      ensures this.config == config && this.world == world
    {
      this.config, this.world := config, world;
    }

    /** The manager has come to `pc`, `n` gaps after `start`. */
    ghost predicate Follows(start: State, schedule: Schedule, n: nat, pc: ManagerPc)
      reads this
    {
      IsReachable(config, world) && world == Managed(config, start, schedule, n) && world.manager.pc == pc
    }

    /** ... and the others made the moves of gap `n`. */
    ghost predicate Awaits(start: State, schedule: Schedule, n: nat, pc: ManagerPc)
      reads this
    {
      && IsReachable(config, world)
      && world == Played(config, Managed(config, start, schedule, n), schedule(n).moves)
      && world.manager.pc == pc
    }

    /** The others make their moves. */
    method Others(ghost start: State, schedule: Schedule, n: nat, ghost pc: ManagerPc)
      requires Follows(start, schedule, n, pc)
      modifies this
      ensures Awaits(start, schedule, n, pc) && Undisturbed(old(world), world)
    {
      var moves := schedule(n).moves;
      var k := 0;
      while k < |moves|
        invariant k <= |moves|
        invariant world == Played(config, old(world), moves[..k])
      {
        assert moves[..k + 1][..k] == moves[..k];
        world := Moved(config, world, moves[k]);
        k := k + 1;
      }
      assert moves[..k] == moves;
      PlayedIsReachable(config, old(world), moves);
      PlayedIsUndisturbed(config, old(world), moves);
    }

    /** The statement of gap `n` was the step `a` of the protocol. */
    lemma Took(s: State, start: State, schedule: Schedule, n: nat, a: ManagerAction)
      requires IsReachable(config, s)
      requires s == Played(config, Managed(config, start, schedule, n), schedule(n).moves)
      requires NextStep(s, schedule(n)) == Some(a) && ManagerEnabled(s, a) && world == ManagerStep(config, s, a)
      ensures IsReachable(config, world) && world == Managed(config, start, schedule, n + 1)
    {
      StepIsReachable(config, s, Session(a));
    }

    method Goto(pc: ManagerPc)
      modifies this
      ensures world == old(world).(manager := old(world).manager.(pc := pc))
    {
      world := world.(manager := world.manager.(pc := pc));
    }

    /** `Start`, for a schedule of at most so many attempts and looks at each timer: `None` means
        that it would go on. Its calls on the clients are recorded attempt by attempt.

        On any schedule each session was created from what the gateway held, a retry interval after
        the one before, and was resumed only if it had an ID; nil comes only from an ended context,
        and the result is a failure for good exactly when the gateway recorded that failure. */
    method Start(schedule: Schedule, attempts: nat, patience: nat)
      returns (result: Option<ManagerResult>, calls: seq<seq<ClientCall>>, ghost gaps: seq<nat>, ghost n: nat)
      requires IsReachable(config, world) && world.manager.pc.Entering?
      modifies this
      ensures Follows(old(world), schedule, n, world.manager.pc)
      ensures result.Some? ==> world.manager.pc == Finished(result.value)
      ensures result.None? ==> world.manager.pc.Waiting? && (|calls| == attempts || n >= patience)
      ensures AllFit(world, schedule, calls, gaps)
      ensures SessionsAreHandedOver(config, world) && FailuresInv(world)
      ensures result.Some? && result.value.Unrecoverable? ==> LastError(world.outcomes, result.value.err)
      ensures result == Some(Cancelled) ==> ManagerDone(world)
      ensures world.g.fatalError == if result.Some? && result.value.Unrecoverable? then Some(result.value.err) else None
    {
      ghost var start := world;
      var at;
      result, calls, at, gaps := Supervise(start, schedule, attempts, patience);
      if result.Some? {
        Others(start, schedule, at, Finishing(result.value));
        Deliver(start, schedule, at, result.value);
        at := at + 1;
      }
      n := at;
      StartedWell(config, world);
    }

    /** Everything but the delivery of the result. */
    method Supervise(ghost start: State, schedule: Schedule, attempts: nat, patience: nat)
      returns (result: Option<ManagerResult>, calls: seq<seq<ClientCall>>, at: nat, ghost gaps: seq<nat>)
      requires Follows(start, schedule, 0, Entering) && start == world
      modifies this
      ensures if result.Some? then Follows(start, schedule, at, Finishing(result.value))
              else Follows(start, schedule, at, world.manager.pc) && world.manager.pc.Waiting?
      ensures result.None? ==> |calls| == attempts || at >= patience
      ensures AllFit(world, schedule, calls, gaps)
    {
      NothingCreatedYet(config, world);
      calls, gaps := [], [];
      result := Check(start, schedule);
      at := 1;
      var until: Option<nat> := None;
      var attempt := 0;
      while attempt < attempts && result.None?
        invariant if result.Some? then Follows(start, schedule, at, Finishing(result.value))
                  else Follows(start, schedule, at, Waiting(until))
        invariant AllFit(world, schedule, calls, gaps)
        invariant attempt <= attempts && (result.None? ==> |calls| == attempt)
        decreases attempts - attempt, result.None?
      {
        var waited;
        waited, at := WaitForAttempt(start, schedule, at, until, patience);
        match waited {
          case Pending =>
            return;
          case Ended =>
            result := Some(Cancelled);
          case Over =>
            result, calls, gaps, at, until := Attempt(start, schedule, at, calls, gaps);
        }
        attempt := attempt + 1;
      }
    }

    /** The look at the context and the checks of the arguments. */
    method Check(ghost start: State, schedule: Schedule) returns (result: Option<ManagerResult>)
      requires Follows(start, schedule, 0, Entering)
      modifies this
      ensures Follows(start, schedule, 1, if result.Some? then Finishing(result.value) else Waiting(None))
      ensures SameAttempts(old(world), world)
    {
      Others(start, schedule, 0, Entering);
      ghost var s := world;
      if ManagerDone(world) {
        result := Some(Cancelled);
        Goto(Finishing(Cancelled));
      } else if schedule(0).refusal.Some? {
        result := Some(Misconfigured(schedule(0).refusal.value));
        Goto(Finishing(Misconfigured(schedule(0).refusal.value)));
      } else {
        result := None;
        Goto(Waiting(None));
      }
      Took(s, start, schedule, 0, Enter(schedule(0).refusal));
    }

    /** `waitForSessionAttempt` */
    method WaitForAttempt(ghost start: State, schedule: Schedule, from: nat, until: Option<nat>, patience: nat)
      returns (waited: Wait, at: nat)
      requires Follows(start, schedule, from, Waiting(until))
      modifies this
      ensures Follows(start, schedule, at, match waited
                                           case Pending => Waiting(until)
                                           case Ended => Finishing(Cancelled)
                                           case Over => Creating)
      ensures waited == Pending ==> at == from + patience
      ensures SameAttempts(old(world), world)
      decreases patience
    {
      if patience == 0 {
        return Pending, from;
      }
      waited := LookAtTimer(start, schedule, from, until);
      at := from + 1;
      if waited.Pending? {
        waited, at := WaitForAttempt(start, schedule, at, until, patience - 1);
      }
    }

    method LookAtTimer(ghost start: State, schedule: Schedule, at: nat, until: Option<nat>) returns (waited: Wait)
      requires Follows(start, schedule, at, Waiting(until))
      modifies this
      ensures Follows(start, schedule, at + 1, match waited
                                               case Pending => Waiting(until)
                                               case Ended => Finishing(Cancelled)
                                               case Over => Creating)
      ensures SameAttempts(old(world), world)
    {
      Others(start, schedule, at, Waiting(until));
      ghost var s := world;
      if ManagerDone(world) && (until.None? || schedule(at).preferDone || world.now < until.value) {
        Goto(Finishing(Cancelled));
        Took(s, start, schedule, at, WaitCancelled);
        waited := Ended;
      } else if until.None? || until.value <= world.now {
        Goto(Creating);
        Took(s, start, schedule, at, WaitOver);
        waited := Over;
      } else {
        waited := Pending;
      }
    }

    /** One attempt, from the creation of its client to the hand-over. */
    method Attempt(ghost start: State, schedule: Schedule, from: nat, before: seq<seq<ClientCall>>, ghost gapsBefore: seq<nat>)
      returns (result: Option<ManagerResult>, calls: seq<seq<ClientCall>>, ghost gaps: seq<nat>, at: nat, until: Option<nat>)
      requires Follows(start, schedule, from, Creating) && AllFit(world, schedule, before, gapsBefore)
      modifies this
      ensures Follows(start, schedule, at, if result.Some? then Finishing(result.value) else Waiting(until))
      ensures AllFit(world, schedule, calls, gaps) && (result.None? ==> |calls| == |before| + 1)
    {
      var outcome;
      result, outcome, calls, gaps, at := Connected(start, schedule, from, before, gapsBefore);
      until := None;
      if result.None? {
        result, at, until := Concluded(start, schedule, at, outcome);
      }
    }

    /** ... until the attempt has ended. */
    method Connected(ghost start: State, schedule: Schedule, from: nat, before: seq<seq<ClientCall>>, ghost gapsBefore: seq<nat>)
      returns (result: Option<ManagerResult>, outcome: Option<Error>, calls: seq<seq<ClientCall>>, ghost gaps: seq<nat>, at: nat)
      requires Follows(start, schedule, from, Creating) && AllFit(world, schedule, before, gapsBefore)
      modifies this
      ensures Follows(start, schedule, at, if result.Some? then Finishing(result.value) else Checking(outcome))
      ensures AllFit(world, schedule, calls, gaps) && (result.None? ==> |calls| == |before| + 1)
    {
      ghost var was := world;
      result := CreateClient(start, schedule, from);
      if result.Some? {
        StillFits(was, world, schedule, before, gapsBefore);
        outcome, calls, gaps, at := None, before, gapsBefore, from + 1;
        return;
      }
      outcome, calls, gaps := Ran(was, start, schedule, from + 1, before, gapsBefore);
      at := from + 3;
    }

    method Ran(ghost was: State, ghost start: State, schedule: Schedule, from: nat,
               before: seq<seq<ClientCall>>, ghost gapsBefore: seq<nat>)
      returns (outcome: Option<Error>, calls: seq<seq<ClientCall>>, ghost gaps: seq<nat>)
      requires Follows(start, schedule, from, Opening)
      requires AllFit(was, schedule, before, gapsBefore) && Created(was, world)
      modifies this
      ensures Follows(start, schedule, from + 2, Checking(outcome))
      ensures AllFit(world, schedule, calls, gaps) && |calls| == |before| + 1
    {
      ghost var created := world;
      var attemptCalls;
      outcome, attemptCalls := OpenAndRun(start, schedule, from);
      OneMoreFits(was, created, world, schedule, before, gapsBefore, outcome, attemptCalls, from + 1);
      calls, gaps := before + [attemptCalls], gapsBefore + [from + 1];
    }

    /** `observer.sessionStarted` and the attempt. */
    method OpenAndRun(ghost start: State, schedule: Schedule, from: nat)
      returns (outcome: Option<Error>, calls: seq<ClientCall>)
      requires Follows(start, schedule, from, Opening)
      modifies this
      ensures Follows(start, schedule, from + 2, Checking(outcome))
      ensures Attempted(old(world), world, schedule(from + 1).script, outcome, calls)
    {
      OpenTheSession(start, schedule, from);
      outcome, calls := RunAttempt(start, schedule, from + 1);
    }

    /** ... and from there to the hand-over. */
    method Concluded(ghost start: State, schedule: Schedule, from: nat, outcome: Option<Error>)
      returns (result: Option<ManagerResult>, at: nat, until: Option<nat>)
      requires Follows(start, schedule, from, Checking(outcome))
      modifies this
      ensures Follows(start, schedule, at, if result.Some? then Finishing(result.value) else Waiting(until))
      ensures SameAttempts(old(world), world)
    {
      var err;
      result, err := Judge(start, schedule, from, outcome);
      at, until := from + 1, None;
      if result.None? {
        var handed, fatal;
        handed, fatal, at := Close(start, schedule, at, err);
        result, until := Continue(start, schedule, at, err, fatal, handed);
        at := at + 1;
      }
    }

    method CreateClient(ghost start: State, schedule: Schedule, at: nat) returns (result: Option<ManagerResult>)
      requires Follows(start, schedule, at, Creating)
      modifies this
      ensures Follows(start, schedule, at + 1, if result.Some? then Finishing(result.value) else Opening)
      ensures result.Some? ==> SameAttempts(old(world), world)
      ensures result.None? ==> Created(old(world), world)
    {
      Others(start, schedule, at, Creating);
      ghost var s := world;
      var failure := schedule(at).creation;
      if failure.Some? {
        result := Some(NoClient(failure.value));
        Goto(Finishing(NoClient(failure.value)));
      } else {
        result := None;
        Goto(Opening);
        world := world.(creations := world.creations + [Creation(world.now, world.manager.resume, |world.history|)]);
      }
      Took(s, start, schedule, at, Create(failure));
    }

    /** `observer.sessionStarted` */
    method OpenTheSession(ghost start: State, schedule: Schedule, at: nat)
      requires Follows(start, schedule, at, Opening)
      modifies this
      ensures Follows(start, schedule, at + 1, Attempting)
      ensures SameAttempts(old(world), world) && world.manager.resume == old(world).manager.resume
    {
      Others(start, schedule, at, Opening);
      ghost var s := world;
      Call(Started(world.manager.attempt, world.manager.resume));
      Goto(Attempting);
      Took(s, start, schedule, at, OpenSession);
    }

    /** A call on the gateway under its lock, as the class `Gateway` performs it. */
    method Call(call: Call)
      modifies this
      ensures world == Perform(old(world), call)
    {
      var g := Next(world.g, call);
      if g.recoveryGeneration > world.g.recoveryGeneration {
        world := world.(outages := world.outages + [g.disconnectedAt]);
      }
      world := world.(g := g, history := world.history + [call]);
    }

    /** The attempt itself, which resumes exactly when there is an ID. */
    method RunAttempt(ghost start: State, schedule: Schedule, at: nat)
      returns (outcome: Option<Error>, calls: seq<ClientCall>)
      requires Follows(start, schedule, at, Attempting)
      modifies this
      ensures Follows(start, schedule, at + 1, Checking(outcome))
      ensures Attempted(old(world), world, schedule(at).script, outcome, calls)
    {
      Others(start, schedule, at, Attempting);
      ghost var s := world;
      var client := new Client();
      outcome := RunWebSocketAttempt(client, schedule(at).script, world.manager.resume.id != "");
      calls := client.calls;
      Goto(Checking(outcome));
      world := world.(outcomes := world.outcomes + [outcome]);
      Took(s, start, schedule, at, EndAttempt(outcome));
    }

    /** The look at the context after the attempt, and the error of a listener that ended without. */
    method Judge(ghost start: State, schedule: Schedule, at: nat, outcome: Option<Error>)
      returns (result: Option<ManagerResult>, err: Error)
      requires Follows(start, schedule, at, Checking(outcome))
      modifies this
      ensures Follows(start, schedule, at + 1, if result.Some? then Finishing(result.value) else Reporting(err))
      ensures SameAttempts(old(world), world)
    {
      Others(start, schedule, at, Checking(outcome));
      ghost var s := world;
      err := if outcome.None? then LISTENER_STOPPED else outcome.value;
      if ManagerDone(world) {
        result := Some(Cancelled);
        Goto(Finishing(Cancelled));
      } else {
        result := None;
        Goto(Reporting(err));
      }
      Took(s, start, schedule, at, CheckAttempt);
    }

    /** `closeSessionAttempt`: the update under the lock, and the notification when there is one. */
    method Close(ghost start: State, schedule: Schedule, from: nat, err: Error)
      returns (handed: Resumable, fatal: bool, at: nat)
      requires Follows(start, schedule, from, Reporting(err))
      modifies this
      ensures Follows(start, schedule, at, HandingOver(err, fatal, handed))
      ensures SameAttempts(old(world), world)
    {
      var wakes;
      handed, fatal, wakes := Report(start, schedule, from, err);
      at := from + 1;
      if wakes {
        Others(start, schedule, at, Notifying(err, fatal, handed));
        Notice(start, schedule, at, err, fatal, handed);
        at := at + 1;
      }
    }

    /** `notifyStateChanged`: a full slot drops the send. */
    method Notice(ghost start: State, schedule: Schedule, at: nat, err: Error, fatal: bool, handed: Resumable)
      requires Awaits(start, schedule, at, Notifying(err, fatal, handed))
      modifies this
      ensures Follows(start, schedule, at + 1, HandingOver(err, fatal, handed))
      ensures SameAttempts(old(world), world)
    {
      ghost var s := world;
      Goto(HandingOver(err, fatal, handed));
      world := world.(token := true);
      Took(s, start, schedule, at, Notify);
    }

    method Report(ghost start: State, schedule: Schedule, at: nat, err: Error)
      returns (handed: Resumable, fatal: bool, wakes: bool)
      requires Follows(start, schedule, at, Reporting(err))
      modifies this
      ensures Follows(start, schedule, at + 1, if wakes then Notifying(err, fatal, handed) else HandingOver(err, fatal, handed))
      ensures SameAttempts(old(world), world)
    {
      Others(start, schedule, at, Reporting(err));
      ghost var s := world;
      fatal := schedule(at).cannotIdentify;
      var failed := Failed(world.manager.attempt, err, schedule(at).cannotResume, fatal, world.now);
      wakes := !Stale(world.g, world.manager.attempt);
      Call(failed);
      handed := world.g.resume;
      Goto(if wakes then Notifying(err, fatal, handed) else HandingOver(err, fatal, handed));
      Took(s, start, schedule, at, ManagerAction.Report(schedule(at).cannotResume, fatal));
    }

    /** The end of the loop body: the local copy is replaced, and the next timer starts. */
    method Continue(ghost start: State, schedule: Schedule, at: nat, err: Error, fatal: bool, handed: Resumable)
      returns (result: Option<ManagerResult>, until: Option<nat>)
      requires Follows(start, schedule, at, HandingOver(err, fatal, handed))
      modifies this
      ensures Follows(start, schedule, at + 1, if result.Some? then Finishing(result.value) else Waiting(until))
      ensures SameAttempts(old(world), world)
    {
      Others(start, schedule, at, HandingOver(err, fatal, handed));
      result, until := None, None;
      if fatal {
        result := Some(Unrecoverable(err));
        GiveUp(start, schedule, at, err, handed);
      } else {
        if config.retryInterval > 0 {
          until := Some(world.now + config.retryInterval);
        }
        Retry(start, schedule, at, err, handed, until);
      }
    }

    method GiveUp(ghost start: State, schedule: Schedule, at: nat, err: Error, handed: Resumable)
      requires Awaits(start, schedule, at, HandingOver(err, true, handed))
      modifies this
      ensures Follows(start, schedule, at + 1, Finishing(Unrecoverable(err)))
      ensures SameAttempts(old(world), world)
    {
      ghost var s := world;
      world := world.(manager := Manager(Finishing(Unrecoverable(err)), world.manager.attempt, handed));
      Took(s, start, schedule, at, HandOver);
    }

    method Retry(ghost start: State, schedule: Schedule, at: nat, err: Error, handed: Resumable, until: Option<nat>)
      requires Awaits(start, schedule, at, HandingOver(err, false, handed))
      requires until == if config.retryInterval <= 0 then None else Some(world.now + config.retryInterval)
      modifies this
      ensures Follows(start, schedule, at + 1, Waiting(until))
      ensures SameAttempts(old(world), world)
    {
      ghost var s := world;
      world := world.(manager := Manager(Waiting(until), world.manager.attempt + 1, handed));
      Took(s, start, schedule, at, HandOver);
    }

    /** `errCh <- g.manager.Start(...)` in the goroutine of `Run`. */
    method Deliver(ghost start: State, schedule: Schedule, at: nat, result: ManagerResult)
      requires Awaits(start, schedule, at, Finishing(result))
      modifies this
      ensures Follows(start, schedule, at + 1, Finished(result))
      ensures SameAttempts(old(world), world)
    {
      ghost var s := world;
      ReachableIsSound(config, world);
      Goto(Finished(result));
      world := world.(errCh := Some(result));
      Took(s, start, schedule, at, Finish);
    }
  }

  /** One more session was created, from the manager's own copy. */
  predicate Created(s: State, t: State) {
    && |t.creations| == |s.creations| + 1
    && t.creations[..|s.creations|] == s.creations
    && t.creations[|s.creations|].resume == t.manager.resume
    && t.outcomes == s.outcomes
  }

  /** An attempt with the manager's own copy went as its script says, and is on record. */
  predicate Attempted(s: State, t: State, script: Script, outcome: Option<Error>, calls: seq<ClientCall>) {
    && t.creations == s.creations && t.outcomes == s.outcomes + [outcome]
    && calls == CallsOf(script, s.manager.resume.id != "") && outcome == ResultOf(script)
  }

  lemma StillFits(s: State, t: State, schedule: Schedule, calls: seq<seq<ClientCall>>, gaps: seq<nat>)
    requires AllFit(s, schedule, calls, gaps) && SameAttempts(s, t)
    ensures AllFit(t, schedule, calls, gaps)
  {
  }

  lemma OneMoreFits(s: State, t: State, ended: State, schedule: Schedule, before: seq<seq<ClientCall>>, gapsBefore: seq<nat>,
                    outcome: Option<Error>, calls: seq<ClientCall>, gap: nat)
    requires AllFit(s, schedule, before, gapsBefore) && Created(s, t)
    requires Attempted(t, ended, schedule(gap).script, outcome, calls)
    ensures AllFit(ended, schedule, before + [calls], gapsBefore + [gap])
  {
    forall k | 0 <= k < |before|
      ensures t.creations[k] == s.creations[k]
    {
      assert t.creations[..|s.creations|][k] == s.creations[k];
    }
  }

  /** How a wait for the next attempt ended. */
  datatype Wait = Pending | Ended | Over

  lemma NothingCreatedYet(c: Config, s: State)
    requires IsReachable(c, s) && s.manager.pc.Entering?
    ensures s.creations == [] && s.outcomes == []
  {
    ReachableIsSound(c, s);
    OutcomesOfReachable(c, s);
  }

  /** The last attempt ended with this error, or its listener ended without one. */
  predicate LastError(outcomes: seq<Option<Error>>, err: Error) {
    outcomes != [] && ErrorOf(outcomes[|outcomes| - 1], err)
  }

  lemma OutcomesOfReachable(c: Config, s: State)
    requires IsReachable(c, s)
    ensures OutcomeInv(s)
  {
    var states, actions :| IsRun(c, states, actions) && states[|actions|] == s;
    OutcomesReachable(c, states, actions, |actions|);
  }

  /** Every session was created from what the gateway held, a retry interval after the one before. */
  ghost predicate SessionsAreHandedOver(c: Config, s: State) {
    forall k :: 0 <= k < |s.creations| ==>
      && s.creations[k].seen <= |s.history|
      && s.creations[k].resume == (if k == 0 then FIRST_RESUME else Replay(s.history, s.creations[k].seen).resume)
      && (k > 0 && c.retryInterval > 0 ==> s.creations[k - 1].at + c.retryInterval <= s.creations[k].at)
  }

  lemma StartedWell(c: Config, s: State)
    requires IsReachable(c, s) && (s.manager.pc.Finished? || s.manager.pc.Waiting?)
    ensures SessionsAreHandedOver(c, s) && FailuresInv(s)
    ensures s.manager.pc.Finished? && s.manager.pc.result.Unrecoverable? ==> LastError(s.outcomes, s.manager.pc.result.err)
    ensures s.manager.pc == Finished(Cancelled) ==> ManagerDone(s)
    ensures s.g.fatalError
         == if s.manager.pc.Finished? && s.manager.pc.result.Unrecoverable? then Some(s.manager.pc.result.err) else None
  {
    ReachableIsSound(c, s);
    OutcomesOfReachable(c, s);
  }
}
