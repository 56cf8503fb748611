/** `Sender.Send` under any number of concurrent callers (internal/qqbot/sender.go), one atomic
    step at a time. The admission and gate channels are counters of the tokens they hold; a call
    is a record with the program counter at which another call can interleave. Calls are numbered;
    their number is arbitrary and they start at any time. */
module DeliveryQueue {
  import opened Options

  datatype Target = Target(name: string, kind: string, id: string)

  predicate Supported(target: Target) {
    target.kind == "channel" || target.kind == "group" || target.kind == "user"
  }

  /** `PostMessage`, `PostGroupMessage` and `PostC2CMessage`. */
  datatype Api = ChannelMessage | GroupMessage | UserMessage

  datatype ContextError = Canceled | DeadlineExceeded

  /** An error of the QQ API, with what `errors.Is` says about it. */
  datatype ApiError = ApiError(code: nat, isQueueFull: bool, isDeadline: bool)

  /** The errors `Send` joins; no error at all is nil. A delivery without a cause is the
      unsupported target type. */
  datatype SendError =
    | QueueFull
    | Context(reason: ContextError)
    | Delivery(index: nat, cause: Option<ApiError>)

  /** What became of one target. */
  datatype Result = Delivered | Refused(cause: Option<ApiError>)

  datatype Pc =
    | NotStarted | Entering | Admitting | Queueing | Gated | Looping | Posting | Failing
    | ReleasingGate | ReleasingAdmission | Done

  /** `results` records the targets dealt with so far, and `gated` that the gate was ever taken. */
  datatype Call = Call(
    pc: Pc, content: string, ctx: Option<ContextError>, errs: seq<SendError>,
    results: seq<Result>, gated: bool)

  /** A message the API accepted or refused. */
  datatype Post = Post(caller: nat, content: string, index: nat, ok: bool, api: Api, id: string)

  function ApiFor(kind: string): Api {
    if kind == "channel" then ChannelMessage else if kind == "group" then GroupMessage else UserMessage
  }

  /** The API call for a target of a known type. */
  function PostTo(target: Target, caller: nat, content: string, index: nat, ok: bool): Post {
    Post(caller, content, index, ok, ApiFor(target.kind), target.id)
  }

  /** `order` records who took the gate, in turn. */
  datatype Queue = Queue(
    targets: seq<Target>,
    maxPending: int,
    admission: nat,
    gate: nat,
    calls: seq<Call>,
    log: seq<Post>,
    order: seq<nat>)
  {
    function Capacity(): nat {
      (if maxPending < 0 then 0 else maxPending) + 1
    }
  }

  datatype Action =
    | Cancel(i: nat, reason: ContextError)
    | Begin(i: nat)
    | Enter(i: nat)
    | Acquire(i: nat)
    | GiveUpAdmission(i: nat)
    | Reject(i: nat)
    | TakeGate(i: nat)
    | GiveUpGate(i: nat)
    | CheckGated(i: nat)
    | Turn(i: nat)
    | Respond(i: nat, failure: Option<ApiError>)
    | CheckFailing(i: nat)
    | ReleaseGate(i: nat)
    | ReleaseAdmission(i: nat)

  predicate Enabled(q: Queue, a: Action) {
    a.i < |q.calls| &&
    var call := q.calls[a.i];
    match a
    case Cancel(_, _) => call.ctx.None?
    case Begin(_) => call.pc.NotStarted?
    case Enter(_) => call.pc.Entering?
    case Acquire(_) => call.pc.Admitting? && q.admission < q.Capacity()
    case GiveUpAdmission(_) => call.pc.Admitting? && call.ctx.Some?
    case Reject(_) => call.pc.Admitting? && call.ctx.None? && q.admission >= q.Capacity()
    case TakeGate(_) => call.pc.Queueing? && q.gate < 1
    case GiveUpGate(_) => call.pc.Queueing? && call.ctx.Some?
    case CheckGated(_) => call.pc.Gated?
    case Turn(_) => call.pc.Looping?
    case Respond(_, _) => call.pc.Posting? && |call.results| < |q.targets|
    case CheckFailing(_) => call.pc.Failing?
    case ReleaseGate(_) => call.pc.ReleasingGate? && q.gate > 0
    case ReleaseAdmission(_) => call.pc.ReleasingAdmission? && q.admission > 0
  }

  function ContextErrors(call: Call): seq<SendError> {
    if call.ctx.Some? then [Context(call.ctx.value)] else []
  }

  /** What the step does to the call that takes it. */
  function CallStep(targets: seq<Target>, call: Call, a: Action): Call {
    var n := |call.results|;
    match a
    case Cancel(_, reason) => call.(ctx := Some(reason))
    case Begin(_) => call.(pc := Entering)
    case Enter(_) =>
      if call.ctx.Some? then call.(pc := Done, errs := ContextErrors(call)) else call.(pc := Admitting)
    case Acquire(_) => call.(pc := Queueing)
    case GiveUpAdmission(_) => call.(pc := Done, errs := ContextErrors(call))
    case Reject(_) => call.(pc := Done, errs := [QueueFull])
    case TakeGate(_) => call.(pc := Gated, gated := true)
    case GiveUpGate(_) => call.(pc := ReleasingAdmission, errs := ContextErrors(call))
    case CheckGated(_) =>
      if call.ctx.Some? then call.(pc := ReleasingGate, errs := ContextErrors(call)) else call.(pc := Looping)
    case Turn(_) =>
      if n >= |targets| then call.(pc := ReleasingGate)
      else if call.ctx.Some? then call.(pc := ReleasingGate, errs := call.errs + ContextErrors(call))
      else if Supported(targets[n]) then call.(pc := Posting)
      else call.(pc := Failing, errs := call.errs + [Delivery(n, None)], results := call.results + [Refused(None)])
    case Respond(_, failure) =>
      if failure.None? then call.(pc := Looping, results := call.results + [Delivered])
      else call.(pc := Failing, errs := call.errs + [Delivery(n, failure)], results := call.results + [Refused(failure)])
    case CheckFailing(_) =>
      if call.ctx.Some? then call.(pc := ReleasingGate, errs := call.errs + ContextErrors(call)) else call.(pc := Looping)
    case ReleaseGate(_) => call.(pc := ReleasingAdmission)
    case ReleaseAdmission(_) => call.(pc := Done)
  }

  function Step(q: Queue, a: Action): Queue
    requires Enabled(q, a)
  {
    var call := q.calls[a.i];
    var t := q.(calls := q.calls[a.i := CallStep(q.targets, call, a)]);
    match a
    case Acquire(_) => t.(admission := q.admission + 1)
    case TakeGate(i) => t.(gate := q.gate + 1, order := q.order + [i])
    case Respond(i, failure) => 
      t.(log := q.log + [PostTo(q.targets[|call.results|], i, call.content, |call.results|, failure.None?)])
    case ReleaseGate(_) => t.(gate := q.gate - 1)
    case ReleaseAdmission(_) => t.(admission := q.admission - 1)
    case _ => t
  }

  /** A new sender and the calls that will be made on it. */
  ghost predicate Init(q: Queue) {
    && q.admission == 0 && q.gate == 0 && q.log == [] && q.order == []
    && forall i :: 0 <= i < |q.calls| ==>
         q.calls[i] == Call(NotStarted, q.calls[i].content, None, [], [], false)
  }

  predicate Moves(states: seq<Queue>, actions: seq<Action>, k: nat)
    requires k < |actions| < |states|
  {
    Enabled(states[k], actions[k]) && states[k + 1] == Step(states[k], actions[k])
  }

  ghost predicate IsRun(states: seq<Queue>, actions: seq<Action>) {
    && |states| == |actions| + 1
    && Init(states[0])
    && forall k {:trigger Moves(states, actions, k)} :: 0 <= k < |actions| ==> Moves(states, actions, k)
  }

  // ---- sums over the calls ----

  function Sum(calls: seq<Call>, f: Call -> nat): nat {
    if calls == [] then 0 else Sum(calls[..|calls| - 1], f) + f(calls[|calls| - 1])
  }

  lemma {:induction false} SumUpdate(calls: seq<Call>, f: Call -> nat, i: nat, call: Call)
    requires i < |calls|
    ensures Sum(calls[i := call], f) + f(calls[i]) == Sum(calls, f) + f(call)
  {
    var n := |calls| - 1;
    if i < n {
      SumUpdate(calls[..n], f, i, call);
      assert calls[i := call][..n] == calls[..n][i := call];
    } else {
      assert calls[i := call][..n] == calls[..n];
    }
  }

  lemma {:induction false} SumAtLeast(calls: seq<Call>, f: Call -> nat, i: nat)
    requires i < |calls|
    ensures f(calls[i]) <= Sum(calls, f)
  {
    var n := |calls| - 1;
    if i < n {
      SumAtLeast(calls[..n], f, i);
    }
  }

  lemma {:induction false} SumAtLeastTwo(calls: seq<Call>, f: Call -> nat, i: nat, j: nat)
    requires i < j < |calls|
    ensures f(calls[i]) + f(calls[j]) <= Sum(calls, f)
  {
    var n := |calls| - 1;
    if j < n {
      SumAtLeastTwo(calls[..n], f, i, j);
    } else {
      SumAtLeast(calls[..n], f, i);
    }
  }

  lemma {:induction false} SumPositive(calls: seq<Call>, f: Call -> nat) returns (i: nat)
    requires Sum(calls, f) > 0
    ensures i < |calls| && f(calls[i]) > 0
  {
    i := |calls| - 1;
    if f(calls[i]) == 0 {
      i := SumPositive(calls[..i], f);
    }
  }

  lemma {:induction false} SumZero(calls: seq<Call>, f: Call -> nat)
    requires forall i :: 0 <= i < |calls| ==> f(calls[i]) == 0
    ensures Sum(calls, f) == 0
  {
    if calls != [] {
      SumZero(calls[..|calls| - 1], f);
    }
  }

  // ---- who holds what ----

  predicate HoldsGate(call: Call) {
    call.pc.Gated? || call.pc.Looping? || call.pc.Posting? || call.pc.Failing? || call.pc.ReleasingGate?
  }

  predicate HoldsAdmission(call: Call) {
    call.pc.Queueing? || HoldsGate(call) || call.pc.ReleasingAdmission?
  }

  function GateTokens(call: Call): nat {
    if HoldsGate(call) then 1 else 0
  }

  function AdmissionTokens(call: Call): nat {
    if HoldsAdmission(call) then 1 else 0
  }

  ghost predicate TokenInv(q: Queue) {
    && q.admission == Sum(q.calls, AdmissionTokens)
    && q.gate == Sum(q.calls, GateTokens)
    && q.admission <= q.Capacity()
    && q.gate <= 1
  }

  // ---- what a call has done ----

  function ErrorsOf(results: seq<Result>): seq<SendError> {
    if results == [] then []
    else
      var n := |results| - 1;
      ErrorsOf(results[..n]) + (if results[n].Delivered? then [] else [Delivery(n, results[n].cause)])
  }

  function PostsOf(targets: seq<Target>, caller: nat, content: string, results: seq<Result>): seq<Post>
    requires |results| <= |targets|
  {
    if results == [] then []
    else
      var n := |results| - 1;
      PostsOf(targets, caller, content, results[..n])
        + (if Supported(targets[n]) then [PostTo(targets[n], caller, content, n, results[n].Delivered?)] else [])
  }

  /** The loop finished, or the context cut it short and its error comes last. */
  ghost predicate Concluded(targets: seq<Target>, call: Call) {
    || (call.errs == ErrorsOf(call.results) && |call.results| == |targets|)
    || (call.ctx.Some? && call.errs == ErrorsOf(call.results) + [Context(call.ctx.value)]
        && (|call.results| < |targets| || call.results == [] || call.results[|call.results| - 1].Refused?))
  }

  ghost predicate CallInv(targets: seq<Target>, call: Call) {
    && |call.results| <= |targets|
    && (forall k :: 0 <= k < |call.results| ==>
          (call.results[k] == Refused(None) <==> !Supported(targets[k])))
    && (HoldsGate(call) ==> call.gated)
    && (!call.gated ==> call.results == [])
    && match call.pc
       case NotStarted => !call.gated && call.errs == []
       case Entering => !call.gated && call.errs == []
       case Admitting => !call.gated && call.errs == []
       case Queueing => !call.gated && call.errs == []
       case Gated => call.results == [] && call.errs == []
       case Looping => call.errs == ErrorsOf(call.results)
       case Posting => call.errs == ErrorsOf(call.results)
         && |call.results| < |targets| && Supported(targets[|call.results|])
       case Failing => call.errs == ErrorsOf(call.results)
         && |call.results| > 0 && call.results[|call.results| - 1].Refused?
       case ReleasingGate => Concluded(targets, call)
       case ReleasingAdmission => if call.gated then Concluded(targets, call) else IsContextError(call)
       case Done =>
         if call.gated then Concluded(targets, call) else call.errs == [QueueFull] || IsContextError(call)
  }

  ghost predicate IsContextError(call: Call) {
    call.ctx.Some? && call.errs == [Context(call.ctx.value)]
  }

  ghost predicate CallsInv(q: Queue) {
    forall i :: 0 <= i < |q.calls| ==> CallInv(q.targets, q.calls[i])
  }

  // ---- the log ----

  ghost predicate Bounded(q: Queue) {
    forall i :: 0 <= i < |q.calls| ==> |q.calls[i].results| <= |q.targets|
  }

  lemma CallsAreBounded(q: Queue)
    requires CallsInv(q)
    ensures Bounded(q)
  {
    forall i | 0 <= i < |q.calls|
      ensures |q.calls[i].results| <= |q.targets|
    {
      assert CallInv(q.targets, q.calls[i]);
    }
  }

  ghost predicate IsOrder(q: Queue, order: seq<nat>) {
    forall k :: 0 <= k < |order| ==> order[k] < |q.calls|
  }

  /** The blocks of the callers in `order`, one after the other. */
  ghost function Blocks(q: Queue, order: seq<nat>): seq<Post>
    requires Bounded(q) && IsOrder(q, order)
  {
    if order == [] then []
    else
      var n := |order| - 1;
      Blocks(q, order[..n]) + Block(q, order[n])
  }

  ghost function Block(q: Queue, i: nat): seq<Post>
    requires Bounded(q) && i < |q.calls|
  {
    PostsOf(q.targets, i, q.calls[i].content, q.calls[i].results)
  }

  ghost predicate LogInv(q: Queue)
    requires Bounded(q)
  {
    && IsOrder(q, q.order)
    && (forall j, k :: 0 <= j < k < |q.order| ==> q.order[j] != q.order[k])
    && (forall k :: 0 <= k < |q.order| ==> q.calls[q.order[k]].gated)
    && (forall i :: 0 <= i < |q.calls| && q.calls[i].gated ==> i in q.order)
    && (forall k :: 0 <= k < |q.order| - 1 ==> !HoldsGate(q.calls[q.order[k]]))
    && q.log == Blocks(q, q.order)
  }

  ghost predicate Inv(q: Queue) {
    TokenInv(q) && CallsInv(q) && Bounded(q) && LogInv(q)
  }

  lemma InitInv(q: Queue)
    requires Init(q)
    ensures Inv(q)
  {
    SumZero(q.calls, AdmissionTokens);
    SumZero(q.calls, GateTokens);
  }

  // ---- preservation ----

  /** How a step moves the tokens a call holds. */
  lemma TokensMove(q: Queue, a: Action)
    requires Enabled(q, a)
    ensures var call := CallStep(q.targets, q.calls[a.i], a); var t := Step(q, a);
      && t.admission - q.admission == AdmissionTokens(call) - AdmissionTokens(q.calls[a.i])
      && t.gate - q.gate == GateTokens(call) - GateTokens(q.calls[a.i])
      && t.calls == q.calls[a.i := call]
      && t.admission <= (if q.admission < q.Capacity() then q.Capacity() else q.admission)
      && t.gate <= (if q.gate < 1 then 1 else q.gate)
      && t.Capacity() == q.Capacity()
  {
  }

  lemma TokensKept(q: Queue, a: Action)
    requires TokenInv(q) && Enabled(q, a)
    ensures TokenInv(Step(q, a))
  {
    TokensMove(q, a);
    SumUpdate(q.calls, AdmissionTokens, a.i, CallStep(q.targets, q.calls[a.i], a));
    SumUpdate(q.calls, GateTokens, a.i, CallStep(q.targets, q.calls[a.i], a));
  }

  lemma ErrorsGrow(results: seq<Result>, r: Result)
    ensures ErrorsOf(results + [r])
         == ErrorsOf(results) + if r.Delivered? then [] else [Delivery(|results|, r.cause)]
  {
    assert (results + [r])[..|results|] == results;
  }

  lemma PostsGrow(targets: seq<Target>, caller: nat, content: string, results: seq<Result>, r: Result)
    requires |results| < |targets|
    ensures PostsOf(targets, caller, content, results + [r])
         == PostsOf(targets, caller, content, results)
            + if Supported(targets[|results|]) then [PostTo(targets[|results|], caller, content, |results|, r.Delivered?)] else []
  {
    assert (results + [r])[..|results|] == results;
  }

  lemma RespondKeepsCall(targets: seq<Target>, call: Call, a: Action)
    requires CallInv(targets, call) && a.Respond? && call.pc.Posting?
    ensures CallInv(targets, CallStep(targets, call, a))
  {
    ErrorsGrow(call.results, if a.failure.None? then Delivered else Refused(a.failure));
  }

  lemma TurnKeepsCall(targets: seq<Target>, call: Call, a: Action)
    requires CallInv(targets, call) && a.Turn? && call.pc.Looping?
    ensures CallInv(targets, CallStep(targets, call, a))
  {
    ErrorsGrow(call.results, Refused(None));
  }

  /** The steps outside the loop body leave the results alone. */
  lemma OtherKeepsCall(q: Queue, a: Action)
    requires a.i < |q.calls| && CallInv(q.targets, q.calls[a.i]) && Enabled(q, a)
    requires !a.Respond? && !a.Turn? && !a.Cancel?
    ensures CallInv(q.targets, CallStep(q.targets, q.calls[a.i], a))
  {
    assert CallStep(q.targets, q.calls[a.i], a).results == q.calls[a.i].results;
  }

  lemma CallKept(q: Queue, a: Action)
    requires CallsInv(q) && Enabled(q, a)
    ensures CallInv(q.targets, CallStep(q.targets, q.calls[a.i], a))
  {
    var call := q.calls[a.i];
    assert CallInv(q.targets, call);
    if a.Respond? {
      RespondKeepsCall(q.targets, call, a);
    } else if a.Turn? {
      TurnKeepsCall(q.targets, call, a);
    } else if a.Cancel? {
      CancelKeepsCall(q.targets, call, a.reason);
    } else {
      OtherKeepsCall(q, a);
    }
  }

  lemma CancelKeepsCall(targets: seq<Target>, call: Call, reason: ContextError)
    requires CallInv(targets, call) && call.ctx.None?
    ensures CallInv(targets, call.(ctx := Some(reason)))
  {
  }

  lemma CallsKept(q: Queue, a: Action)
    requires CallsInv(q) && Enabled(q, a)
    ensures CallsInv(Step(q, a))
  {
    CallKept(q, a);
    var t := Step(q, a);
    assert t.calls == q.calls[a.i := CallStep(q.targets, q.calls[a.i], a)] && t.targets == q.targets;
  }

  /** Blocks of callers whose results did not change are unchanged. */
  lemma {:induction false} BlocksFrame(q: Queue, t: Queue, order: seq<nat>)
    requires Bounded(q) && Bounded(t) && IsOrder(q, order)
    requires t.targets == q.targets && |t.calls| == |q.calls|
    requires forall k :: 0 <= k < |order| ==>
      && t.calls[order[k]].results == q.calls[order[k]].results
      && t.calls[order[k]].content == q.calls[order[k]].content
    ensures Blocks(t, order) == Blocks(q, order)
  {
    if order != [] {
      BlocksFrame(q, t, order[..|order| - 1]);
    }
  }

  /** The gate holder is the last to have taken it. */
  lemma HolderIsLast(q: Queue, i: nat)
    requires Inv(q) && i < |q.calls| && HoldsGate(q.calls[i])
    ensures |q.order| > 0 && q.order[|q.order| - 1] == i
  {
    assert CallInv(q.targets, q.calls[i]);
    var k :| 0 <= k < |q.order| && q.order[k] == i;
  }

  lemma NobodyHolds(q: Queue, i: nat)
    requires TokenInv(q) && q.gate == 0 && i < |q.calls|
    ensures !HoldsGate(q.calls[i])
  {
    SumAtLeast(q.calls, GateTokens, i);
  }

  /** `t` is `q` with call `i` replaced. */
  ghost predicate Replaces(q: Queue, t: Queue, i: nat, call: Call) {
    && i < |q.calls|
    && t.calls == q.calls[i := call]
    && t.targets == q.targets
    && call.content == q.calls[i].content
  }

  lemma NewBlockIsEmpty(q: Queue, t: Queue, i: nat, call: Call)
    requires Bounded(q) && Bounded(t) && Replaces(q, t, i, call) && IsOrder(q, q.order)
    requires i !in q.order && call.results == []
    ensures IsOrder(t, q.order + [i]) && Blocks(t, q.order + [i]) == Blocks(q, q.order)
  {
    BlocksFrame(q, t, q.order);
    assert (q.order + [i])[..|q.order|] == q.order;
  }

  lemma LogTaken(q: Queue, t: Queue, i: nat, call: Call)
    requires Inv(q) && Bounded(t) && Replaces(q, t, i, call)
    requires q.gate == 0 && !q.calls[i].gated && call.gated && call.results == []
    requires t.order == q.order + [i] && t.log == q.log
    ensures LogInv(t)
  {
    assert CallInv(q.targets, q.calls[i]);
    assert i !in q.order;
    NewBlockIsEmpty(q, t, i, call);
    forall k | 0 <= k < |q.order|
      ensures !HoldsGate(q.calls[q.order[k]])
    {
      NobodyHolds(q, q.order[k]);
    }
  }

  lemma LastBlockGrows(q: Queue, t: Queue, i: nat, call: Call, r: Result)
    requires Bounded(q) && Bounded(t) && Replaces(q, t, i, call) && IsOrder(q, q.order)
    requires |q.order| > 0 && q.order[|q.order| - 1] == i
    requires forall k :: 0 <= k < |q.order| - 1 ==> q.order[k] != i
    requires call.results == q.calls[i].results + [r] && |call.results| <= |q.targets|
    ensures var n := |q.calls[i].results|;
      Blocks(t, q.order)
        == Blocks(q, q.order) + if Supported(q.targets[n]) then [PostTo(q.targets[n], i, call.content, n, r.Delivered?)] else []
  {
    var before := Blocks(q, q.order[..|q.order| - 1]);
    var n := |q.calls[i].results|;
    var grown := if Supported(q.targets[n]) then [PostTo(q.targets[n], i, call.content, n, r.Delivered?)] else [];
    BlocksFrame(q, t, q.order[..|q.order| - 1]);
    assert Block(t, i) == Block(q, i) + grown by {
      PostsGrow(q.targets, i, q.calls[i].content, q.calls[i].results, r);
    }
    assert Blocks(t, q.order) == before + (Block(q, i) + grown);
    assert Blocks(q, q.order) == before + Block(q, i);
    assert before + (Block(q, i) + grown) == (before + Block(q, i)) + grown;
  }

  /** The gate holder deals with one more target, with or without a post. */
  lemma LogTurned(q: Queue, t: Queue, i: nat, call: Call, r: Result)
    requires Inv(q) && Bounded(t) && Replaces(q, t, i, call)
    requires HoldsGate(q.calls[i]) && call.gated && call.results == q.calls[i].results + [r]
    requires |call.results| <= |q.targets|
    requires t.order == q.order
    requires var n := |q.calls[i].results|;
      t.log == q.log + if Supported(q.targets[n]) then [PostTo(q.targets[n], i, call.content, n, r.Delivered?)] else []
    ensures LogInv(t)
  {
    HolderIsLast(q, i);
    LastBlockGrows(q, t, i, call, r);
  }

  lemma LogFrame(q: Queue, t: Queue, i: nat, call: Call)
    requires Inv(q) && Bounded(t) && Replaces(q, t, i, call)
    requires call.results == q.calls[i].results && call.gated == q.calls[i].gated
    requires HoldsGate(call) ==> HoldsGate(q.calls[i])
    requires t.order == q.order && t.log == q.log
    ensures LogInv(t)
  {
    BlocksFrame(q, t, q.order);
  }

  lemma LogKeptOtherwise(q: Queue, a: Action)
    requires Inv(q) && Enabled(q, a) && !a.TakeGate? && !a.Turn? && !a.Respond? && Bounded(Step(q, a))
    ensures LogInv(Step(q, a))
  {
    var call := CallStep(q.targets, q.calls[a.i], a);
    assert call.results == q.calls[a.i].results && call.gated == q.calls[a.i].gated;
    LogFrame(q, Step(q, a), a.i, call);
  }

  lemma LogKept(q: Queue, a: Action)
    requires Inv(q) && Enabled(q, a) && Bounded(Step(q, a))
    ensures LogInv(Step(q, a))
  {
    var call := CallStep(q.targets, q.calls[a.i], a);
    assert CallInv(q.targets, q.calls[a.i]);
    if a.TakeGate? {
      LogTaken(q, Step(q, a), a.i, call);
    } else if a.Respond? {
      LogTurned(q, Step(q, a), a.i, call, if a.failure.None? then Delivered else Refused(a.failure));
    } else if a.Turn? {
      if call.results == q.calls[a.i].results {
        LogFrame(q, Step(q, a), a.i, call);
      } else {
        LogTurned(q, Step(q, a), a.i, call, Refused(None));
      }
    } else {
      LogKeptOtherwise(q, a);
    }
  }

  lemma InvKept(q: Queue, a: Action)
    requires Inv(q) && Enabled(q, a)
    ensures Inv(Step(q, a))
  {
    TokensKept(q, a);
    CallsKept(q, a);
    CallsAreBounded(Step(q, a));
    LogKept(q, a);
  }

  ghost predicate SameContents(q: Queue, t: Queue) {
    |q.calls| == |t.calls| && forall i :: 0 <= i < |q.calls| ==> q.calls[i].content == t.calls[i].content
  }

  lemma StepKeepsContents(q: Queue, a: Action)
    requires Enabled(q, a)
    ensures SameContents(q, Step(q, a))
  {
    assert CallStep(q.targets, q.calls[a.i], a).content == q.calls[a.i].content;
    assert Step(q, a).calls == q.calls[a.i := CallStep(q.targets, q.calls[a.i], a)];
  }

  /** A call delivers the content it was made with. */
  lemma {:induction false} ContentsStay(states: seq<Queue>, actions: seq<Action>, k: nat)
    requires IsRun(states, actions) && k < |states|
    ensures SameContents(states[0], states[k])
  {
    if k > 0 {
      ContentsStay(states, actions, k - 1);
      assert Moves(states, actions, k - 1);
      StepKeepsContents(states[k - 1], actions[k - 1]);
    }
  }

  lemma {:induction false} Reachable(states: seq<Queue>, actions: seq<Action>, k: nat)
    requires IsRun(states, actions) && k < |states|
    ensures Inv(states[k])
    ensures states[k].targets == states[0].targets && states[k].maxPending == states[0].maxPending
    ensures |states[k].calls| == |states[0].calls|
  {
    if k == 0 {
      InitInv(states[0]);
    } else {
      Reachable(states, actions, k - 1);
      assert Moves(states, actions, k - 1);
      InvKept(states[k - 1], actions[k - 1]);
    }
  }
}
