/** What `Sender.Send` guarantees to any number of concurrent callers, in every reachable state. */
module DeliveryTheorems {
  import opened Options
  import opened DeliveryQueue

  // ---- reachable states ----

  ghost predicate IsReachable(q: Queue) {
    exists states, actions :: IsRun(states, actions) && states[|actions|] == q
  }

  lemma ReachableIsSound(q: Queue)
    requires IsReachable(q)
    ensures Inv(q)
  {
    var states, actions :| IsRun(states, actions) && states[|actions|] == q;
    Reachable(states, actions, |actions|);
  }

  lemma InitIsReachable(q: Queue)
    requires Init(q)
    ensures IsReachable(q)
  {
    assert IsRun([q], []);
  }

  lemma StepIsReachable(q: Queue, a: Action)
    requires IsReachable(q) && Enabled(q, a)
    ensures IsReachable(Step(q, a))
  {
    var states, actions :| IsRun(states, actions) && states[|actions|] == q;
    var states', actions' := states + [Step(q, a)], actions + [a];
    forall k | 0 <= k < |actions'|
      ensures Moves(states', actions', k)
    {
      assert k < |actions| ==> Moves(states, actions, k);
    }
    assert IsRun(states', actions');
  }

  // ---- one block ----

  /** A post goes to the ID of its target through the API for its type. */
  predicate Addressed(target: Target, post: Post) {
    && post.id == target.id
    && match post.api
       case ChannelMessage => target.kind == "channel"
       case GroupMessage => target.kind == "group"
       case UserMessage => target.kind == "user"
  }

  /** The posts of one call: its content, to the supported targets dealt with so far, in order. */
  ghost predicate IsBlock(posts: seq<Post>, targets: seq<Target>, caller: nat, content: string, results: seq<Result>)
    requires |results| <= |targets|
  {
    && (forall p :: 0 <= p < |posts| ==>
          && posts[p].caller == caller && posts[p].content == content
          && posts[p].index < |results| && Supported(targets[posts[p].index])
          && Addressed(targets[posts[p].index], posts[p])
          && posts[p].ok == results[posts[p].index].Delivered?)
    && (forall p, r :: 0 <= p < r < |posts| ==> posts[p].index < posts[r].index)
  }

  lemma BlockGrows(posts: seq<Post>, targets: seq<Target>, caller: nat, content: string, results: seq<Result>, n: nat)
    requires n + 1 == |results| <= |targets| && IsBlock(posts, targets, caller, content, results[..n])
    ensures IsBlock(posts, targets, caller, content, results)
    ensures Supported(targets[n]) ==>
      IsBlock(posts + [PostTo(targets[n], caller, content, n, results[n].Delivered?)], targets, caller, content, results)
  {
  }

  lemma {:induction false} PostsMeaning(targets: seq<Target>, caller: nat, content: string, results: seq<Result>)
    requires |results| <= |targets|
    ensures IsBlock(PostsOf(targets, caller, content, results), targets, caller, content, results)
  {
    if results != [] {
      var n := |results| - 1;
      PostsMeaning(targets, caller, content, results[..n]);
      BlockGrows(PostsOf(targets, caller, content, results[..n]), targets, caller, content, results, n);
    }
  }

  ghost predicate AllDelivered(results: seq<Result>) {
    forall k :: 0 <= k < |results| ==> results[k].Delivered?
  }

  function FullBlock(caller: nat, content: string, targets: seq<Target>): seq<Post> {
    seq(|targets|, k requires 0 <= k < |targets| => PostTo(targets[k], caller, content, k, true))
  }

  lemma {:induction false} PostsOfDelivered(targets: seq<Target>, caller: nat, content: string, results: seq<Result>)
    requires |results| <= |targets| && AllDelivered(results)
    requires forall k :: 0 <= k < |results| ==> Supported(targets[k])
    ensures PostsOf(targets, caller, content, results) == FullBlock(caller, content, targets[..|results|])
  {
    if results != [] {
      PostsOfDelivered(targets, caller, content, results[..|results| - 1]);
    }
  }

  lemma {:induction false} ErrorsMeaning(results: seq<Result>)
    ensures ErrorsOf(results) == [] <==> AllDelivered(results)
    ensures forall e :: e in ErrorsOf(results) <==> Reports(results, e)
    ensures forall p :: 0 <= p < |ErrorsOf(results)| ==> Reports(results, ErrorsOf(results)[p])
  {
    if results != [] {
      var n := |results| - 1;
      ErrorsMeaning(results[..n]);
      forall e
        ensures e in ErrorsOf(results) <==> Reports(results, e)
      {
        assert Reports(results, e) <==>
          Reports(results[..n], e) || (results[n].Refused? && e == Delivery(n, results[n].cause));
      }
      assert AllDelivered(results) <==> AllDelivered(results[..n]) && results[n].Delivered?;
    }
  }

  /** `e` is the delivery error of a refused target. */
  ghost predicate Reports(results: seq<Result>, e: SendError) {
    e.Delivery? && e.index < |results| && results[e.index] == Refused(e.cause)
  }

  // ---- serialised delivery ----

  lemma {:induction false} BlockCallers(q: Queue, order: seq<nat>)
    requires Bounded(q) && IsOrder(q, order)
    ensures forall p :: 0 <= p < |Blocks(q, order)| ==> Blocks(q, order)[p].caller in order
  {
    if order != [] {
      var n := |order| - 1;
      BlockCallers(q, order[..n]);
      BlockIsSerial(q, order[n]);
      var before := Blocks(q, order[..n]);
      forall p | 0 <= p < |Blocks(q, order)|
        ensures Blocks(q, order)[p].caller in order
      {
        assert Blocks(q, order)[p] == if p < |before| then before[p] else Block(q, order[n])[p - |before|];
      }
    }
  }

  lemma BlockIsSerial(q: Queue, i: nat)
    requires Bounded(q) && i < |q.calls|
    ensures Serial(q, Block(q, i))
    ensures forall p :: 0 <= p < |Block(q, i)| ==> Block(q, i)[p].caller == i
  {
    PostsMeaning(q.targets, i, q.calls[i].content, q.calls[i].results);
  }

  /** Posts of one caller stand together, in target order, and carry the caller's content. */
  ghost predicate Serial(q: Queue, log: seq<Post>) {
    && (forall p, r :: 0 <= p < r < |log| && log[p].caller == log[r].caller ==> log[p].index < log[r].index)
    && (forall p, m, r :: 0 <= p < m < r < |log| && log[p].caller == log[r].caller ==> log[m].caller == log[p].caller)
    && (forall p :: 0 <= p < |log| ==>
          && log[p].caller < |q.calls| && log[p].content == q.calls[log[p].caller].content
          && log[p].index < |q.targets| && Addressed(q.targets[log[p].index], log[p]))
  }

  lemma {:induction false} BlocksAreSerial(q: Queue, order: seq<nat>)
    requires Bounded(q) && IsOrder(q, order)
    requires forall j, k :: 0 <= j < k < |order| ==> order[j] != order[k]
    ensures Serial(q, Blocks(q, order))
  {
    if order != [] {
      var n := |order| - 1;
      BlocksAreSerial(q, order[..n]);
      BlockCallers(q, order[..n]);
      BlockIsSerial(q, order[n]);
      SerialAppend(q, Blocks(q, order[..n]), Block(q, order[n]), order[n]);
    }
  }

  lemma SerialAppend(q: Queue, log: seq<Post>, block: seq<Post>, caller: nat)
    requires Serial(q, log)
    requires forall p :: 0 <= p < |log| ==> log[p].caller != caller
    requires forall p :: 0 <= p < |block| ==> block[p].caller == caller
    requires Serial(q, block)
    ensures Serial(q, log + block)
  {
  }

  /** The log is the blocks of the calls that took the gate, in the order they took it: never two
      interleaved, each a run of the supported targets in order with the caller's own content. All
      but the last have left the gate, and a call that never took the gate posted nothing. */
  lemma SerialisedDelivery(states: seq<Queue>, actions: seq<Action>, k: nat)
    requires IsRun(states, actions) && k < |states|
    ensures var q := states[k];
      && Serial(q, q.log)
      && Inv(q) && q.log == Blocks(q, q.order)
      && (forall n :: 0 <= n < |q.order| - 1 ==> !HoldsGate(q.calls[q.order[n]]))
      && (forall p :: 0 <= p < |q.log| ==> q.calls[q.log[p].caller].gated)
  {
    Reachable(states, actions, k);
    var q := states[k];
    BlocksAreSerial(q, q.order);
    BlockCallers(q, q.order);
  }

  /** At most one call is past the gate, so at most one API call is in flight. */
  lemma GateIsExclusive(states: seq<Queue>, actions: seq<Action>, k: nat, i: nat, j: nat)
    requires IsRun(states, actions) && k < |states|
    requires i < |states[k].calls| && j < |states[k].calls|
    requires HoldsGate(states[k].calls[i]) && HoldsGate(states[k].calls[j])
    ensures i == j && HoldsAdmission(states[k].calls[i])
  {
    Reachable(states, actions, k);
    if i < j {
      SumAtLeastTwo(states[k].calls, GateTokens, i, j);
    } else if j < i {
      SumAtLeastTwo(states[k].calls, GateTokens, j, i);
    }
  }

  // ---- results ----

  lemma {:induction false} BlockStands(q: Queue, order: seq<nat>, m: nat) returns (start: nat)
    requires Bounded(q) && IsOrder(q, order) && m < |order|
    ensures start + |Block(q, order[m])| <= |Blocks(q, order)|
    ensures Blocks(q, order)[start..start + |Block(q, order[m])|] == Block(q, order[m])
  {
    var n := |order| - 1;
    if m == n {
      start := |Blocks(q, order[..n])|;
    } else {
      start := BlockStands(q, order[..n], m);
    }
  }

  ghost predicate DeliveredToAll(q: Queue, i: nat)
    requires i < |q.calls|
  {
    q.calls[i].gated && |q.calls[i].results| == |q.targets| && AllDelivered(q.calls[i].results)
  }

  lemma NilMeansDelivered(q: Queue, i: nat)
    requires Inv(q) && i < |q.calls| && q.calls[i].pc.Done?
    ensures q.calls[i].errs == [] ==> DeliveredToAll(q, i)
    ensures q.targets != [] && DeliveredToAll(q, i) ==> q.calls[i].errs == []
  {
    assert CallInv(q.targets, q.calls[i]);
    ErrorsMeaning(q.calls[i].results);
  }

  lemma DeliveredBlock(q: Queue, i: nat) returns (start: nat)
    requires Inv(q) && i < |q.calls| && DeliveredToAll(q, i)
    ensures start + |q.targets| <= |q.log|
    ensures q.log[start..start + |q.targets|] == FullBlock(i, q.calls[i].content, q.targets)
  {
    assert CallInv(q.targets, q.calls[i]);
    assert i in q.order;
    var m: nat :| m < |q.order| && q.order[m] == i;
    start := BlockStands(q, q.order, m);
    forall n | 0 <= n < |q.targets|
      ensures Supported(q.targets[n])
    {
      assert q.calls[i].results[n].Delivered?;
    }
    PostsOfDelivered(q.targets, i, q.calls[i].content, q.calls[i].results);
    assert q.targets[..|q.targets|] == q.targets;
  }

  /** A full block of accepted posts of call `i` stands in the log. */
  ghost predicate BlockInLog(q: Queue, i: nat, content: string) {
    exists start: nat :: start + |q.targets| <= |q.log| && BlockAt(q, i, content, start)
  }

  predicate BlockAt(q: Queue, i: nat, content: string, start: nat)
    requires start + |q.targets| <= |q.log|
  {
    q.log[start..start + |q.targets|] == FullBlock(i, content, q.targets)
  }

  /** `Send` returns nil only if every target accepted its message: the log holds, in one piece,
      one accepted post per configured target, in order, with this call's content. With at least
      one target the converse holds too. */
  lemma SendReturnsNil(states: seq<Queue>, actions: seq<Action>, k: nat, i: nat) returns (start: nat)
    requires IsRun(states, actions) && k < |states|
    requires i < |states[k].calls| && states[k].calls[i].pc.Done?
    ensures states[k].calls[i].errs == [] ==>
      && start + |states[k].targets| <= |states[k].log|
      && states[k].log[start..start + |states[k].targets|]
           == FullBlock(i, states[k].calls[i].content, states[k].targets)
    ensures states[k].targets != [] ==> (states[k].calls[i].errs == [] <==> DeliveredToAll(states[k], i))
  {
    Reachable(states, actions, k);
    NilMeansDelivered(states[k], i);
    start := 0;
    if states[k].calls[i].errs == [] {
      start := DeliveredBlock(states[k], i);
    }
  }

  /** Every delivery error names a target that was refused, every refused target is named, and the
      context's error can only come last. */
  lemma SendReportsEveryFailure(states: seq<Queue>, actions: seq<Action>, k: nat, i: nat)
    requires IsRun(states, actions) && k < |states|
    requires i < |states[k].calls| && states[k].calls[i].pc.Done? && states[k].calls[i].gated
    ensures var call := states[k].calls[i];
      && (forall n: nat, cause :: Delivery(n, cause) in call.errs <==> n < |call.results| && call.results[n] == Refused(cause))
      && (forall p :: 0 <= p < |call.errs| && !call.errs[p].Delivery? ==>
            p == |call.errs| - 1 && call.ctx.Some? && call.errs[p] == Context(call.ctx.value))
      && (|call.results| < |states[k].targets| ==> call.ctx.Some? && Context(call.ctx.value) in call.errs)
  {
    Reachable(states, actions, k);
    assert CallInv(states[k].targets, states[k].calls[i]);
    ErrorsMeaning(states[k].calls[i].results);
  }

  /** A target is refused without a cause exactly when its type is none of the three the API has a
      call for. */
  lemma UnknownTypesAreRefused(states: seq<Queue>, actions: seq<Action>, k: nat, i: nat, n: nat)
    requires IsRun(states, actions) && k < |states|
    requires i < |states[k].calls| && n < |states[k].calls[i].results|
    ensures n < |states[k].targets|
    ensures states[k].calls[i].results[n] == Refused(None)
      <==> states[k].targets[n].kind !in {"channel", "group", "user"}
  {
    Reachable(states, actions, k);
    assert CallInv(states[k].targets, states[k].calls[i]);
  }

  /** A call that never took the gate reports a full queue or the end of its context, and nothing
      else. */
  lemma UngatedOutcome(states: seq<Queue>, actions: seq<Action>, k: nat, i: nat)
    requires IsRun(states, actions) && k < |states|
    requires i < |states[k].calls| && states[k].calls[i].pc.Done? && !states[k].calls[i].gated
    ensures var call := states[k].calls[i];
      call.errs == [QueueFull] || (call.ctx.Some? && call.errs == [Context(call.ctx.value)])
  {
    Reachable(states, actions, k);
    assert CallInv(states[k].targets, states[k].calls[i]);
  }

  // ---- cancellation ----

  /** The targets a call has dealt with or is posting to. */
  function Attempted(call: Call): nat {
    |call.results| + if call.pc.Posting? then 1 else 0
  }

  /** Once its context ended a call starts no further delivery. */
  lemma {:induction false} EndedContextStops(states: seq<Queue>, actions: seq<Action>, k: nat, j: nat, i: nat)
    requires IsRun(states, actions) && k <= j < |states|
    requires i < |states[k].calls| && states[k].calls[i].ctx.Some?
    ensures i < |states[j].calls| && states[j].calls[i].ctx == states[k].calls[i].ctx
    ensures Attempted(states[j].calls[i]) <= Attempted(states[k].calls[i])
  {
    if k < j {
      EndedContextStops(states, actions, k, j - 1, i);
      StopInRun(states, actions, j - 1, i);
    }
  }

  lemma StopInRun(states: seq<Queue>, actions: seq<Action>, m: nat, i: nat)
    requires IsRun(states, actions) && m < |actions|
    requires i < |states[m].calls| && states[m].calls[i].ctx.Some?
    ensures i < |states[m + 1].calls| && states[m + 1].calls[i].ctx == states[m].calls[i].ctx
    ensures Attempted(states[m + 1].calls[i]) <= Attempted(states[m].calls[i])
    ensures GivesUp(states[m].calls[i]) ==> GivesUp(states[m + 1].calls[i])
    ensures StaysOutside(states[m].calls[i]) ==> StaysOutside(states[m + 1].calls[i])
    ensures ReportsEnd(states[m].calls[i]) ==> ReportsEnd(states[m + 1].calls[i])
  {
    Reachable(states, actions, m);
    assert Moves(states, actions, m);
    StopStep(states[m], actions[m], i);
  }

  lemma StopStep(q: Queue, a: Action, i: nat)
    requires Enabled(q, a) && CallsInv(q) && i < |q.calls| && q.calls[i].ctx.Some?
    ensures var t := Step(q, a);
      && i < |t.calls| && t.calls[i].ctx == q.calls[i].ctx
      && Attempted(t.calls[i]) <= Attempted(q.calls[i])
      && (GivesUp(q.calls[i]) ==> GivesUp(t.calls[i]))
      && (StaysOutside(q.calls[i]) ==> StaysOutside(t.calls[i]))
      && (ReportsEnd(q.calls[i]) ==> ReportsEnd(t.calls[i]))
  {
    assert CallInv(q.targets, q.calls[i]);
    assert Step(q, a).calls == q.calls[a.i := CallStep(q.targets, q.calls[a.i], a)];
  }

  /** The context ended before the look at it behind the gate. */
  predicate GivesUp(call: Call) {
    && call.ctx.Some?
    && match call.pc
       case Looping => false
       case Posting => false
       case Failing => false
       case ReleasingGate => call.errs == [Context(call.ctx.value)] && call.results == []
       case ReleasingAdmission => call.errs == [Context(call.ctx.value)] && call.results == []
       case Done => call.errs == [Context(call.ctx.value)] && call.results == []
       case _ => true
  }

  /** The context ended before the first look at it. */
  predicate StaysOutside(call: Call) {
    && call.ctx.Some?
    && (call.pc.NotStarted? || call.pc.Entering? || call.pc.Done?)
  }

  /** A delivery failed after the context ended: its error comes last. */
  predicate ReportsEnd(call: Call) {
    && call.ctx.Some?
    && match call.pc
       case Failing => true
       case ReleasingGate => call.errs != [] && call.errs[|call.errs| - 1] == Context(call.ctx.value)
       case ReleasingAdmission => call.errs != [] && call.errs[|call.errs| - 1] == Context(call.ctx.value)
       case Done => call.errs != [] && call.errs[|call.errs| - 1] == Context(call.ctx.value)
       case _ => false
  }

  /** A call whose context ended before the first look at it never takes a token. */
  lemma {:induction false} EndedContextTakesNothing(states: seq<Queue>, actions: seq<Action>, k: nat, j: nat, i: nat)
    requires IsRun(states, actions) && k <= j < |states|
    requires i < |states[k].calls| && StaysOutside(states[k].calls[i])
    ensures i < |states[j].calls| && StaysOutside(states[j].calls[i]) && !HoldsAdmission(states[j].calls[i])
  {
    if k < j {
      EndedContextTakesNothing(states, actions, k, j - 1, i);
      StopInRun(states, actions, j - 1, i);
    }
  }

  /** A call whose delivery failed once its context had ended reports that end last, the delivery to
      its last target included. */
  lemma {:induction false} EndIsReportedLast(states: seq<Queue>, actions: seq<Action>, k: nat, j: nat, i: nat)
    requires IsRun(states, actions) && k <= j < |states|
    requires i < |states[k].calls| && states[k].calls[i].ctx.Some? && states[k].calls[i].pc.Failing?
    ensures i < |states[j].calls| && ReportsEnd(states[j].calls[i])
  {
    if k < j {
      EndIsReportedLast(states, actions, k, j - 1, i);
      StopInRun(states, actions, j - 1, i);
    }
  }

  /** A call whose context ends before it looked at it behind the gate returns just that error and
      posts nothing, wherever it is by then. */
  lemma {:induction false} EndedContextPostsNothing(states: seq<Queue>, actions: seq<Action>, k: nat, j: nat, i: nat)
    requires IsRun(states, actions) && k <= j < |states|
    requires i < |states[k].calls| && states[k].calls[i].ctx.Some?
    requires var pc := states[k].calls[i].pc;
      pc.NotStarted? || pc.Entering? || pc.Admitting? || pc.Queueing? || pc.Gated?
    ensures i < |states[j].calls| && GivesUp(states[j].calls[i])
    ensures states[j].calls[i].pc.Done? ==>
      states[k].calls[i].ctx == states[j].calls[i].ctx
      && states[j].calls[i].errs == [Context(states[j].calls[i].ctx.value)] && states[j].calls[i].results == []
  {
    EndedContextStops(states, actions, k, j, i);
    if k < j {
      EndedContextPostsNothing(states, actions, k, j - 1, i);
      StopInRun(states, actions, j - 1, i);
    }
  }

  // ---- admission ----

  /** The admission channel holds one token per call between its acquisition and its deferred
      release, never more than its capacity. */
  lemma AdmissionAccounting(states: seq<Queue>, actions: seq<Action>, k: nat)
    requires IsRun(states, actions) && k < |states|
    ensures states[k].admission == Sum(states[k].calls, AdmissionTokens)
    ensures states[k].admission <= if states[0].maxPending >= 0 then states[0].maxPending + 1 else 1
    ensures states[k].gate == Sum(states[k].calls, GateTokens) <= 1
    ensures (forall i :: 0 <= i < |states[k].calls| ==>
               states[k].calls[i].pc.Done? || states[k].calls[i].pc.NotStarted?)
      ==> states[k].admission == 0 && states[k].gate == 0
  {
    Reachable(states, actions, k);
    var calls := states[k].calls;
    if forall i :: 0 <= i < |calls| ==> calls[i].pc.Done? || calls[i].pc.NotStarted? {
      SumZero(calls, AdmissionTokens);
      SumZero(calls, GateTokens);
    }
  }

  /** A call is turned away only at a moment when the queue is exactly full... */
  lemma RejectedOnlyWhenFull(states: seq<Queue>, actions: seq<Action>, k: nat)
    requires IsRun(states, actions) && k < |actions| && actions[k].Reject?
    ensures Sum(states[k].calls, AdmissionTokens) == if states[0].maxPending >= 0 then states[0].maxPending + 1 else 1
    ensures actions[k].i < |states[k].calls| && states[k].calls[actions[k].i].ctx.None?
  {
    Reachable(states, actions, k);
    assert Moves(states, actions, k);
  }

  /** ... with fewer calls it is admitted and cannot be turned away... */
  lemma AdmittedWhenNotFull(states: seq<Queue>, actions: seq<Action>, k: nat, i: nat)
    requires IsRun(states, actions) && k < |states|
    requires i < |states[k].calls| && states[k].calls[i].pc.Admitting?
    ensures Sum(states[k].calls, AdmissionTokens) < (if states[0].maxPending >= 0 then states[0].maxPending + 1 else 1)
      <==> Enabled(states[k], Acquire(i))
    ensures Enabled(states[k], Acquire(i)) ==> !Enabled(states[k], Reject(i))
  {
    Reachable(states, actions, k);
  }

  /** ... every call that reports a full queue was turned away at such a moment... */
  lemma {:induction false} QueueFullWasFull(states: seq<Queue>, actions: seq<Action>, k: nat, i: nat) returns (m: nat)
    requires IsRun(states, actions) && k < |states|
    requires i < |states[k].calls| && QueueFull in states[k].calls[i].errs
    ensures m < k && actions[m] == Reject(i)
    ensures Sum(states[m].calls, AdmissionTokens) == if states[0].maxPending >= 0 then states[0].maxPending + 1 else 1
    ensures i < |states[m].calls| && states[m].calls[i].ctx.None?
  {
    NothingReportedFirst(states[0], i);
    m := k - 1;
    ReportsFull(states, actions, m, i);
    if actions[m] == Reject(i) {
      RejectedOnlyWhenFull(states, actions, m);
    } else {
      m := QueueFullWasFull(states, actions, m, i);
    }
  }

  lemma NothingReportedFirst(q: Queue, i: nat)
    requires Init(q)
    ensures i < |q.calls| ==> QueueFull !in q.calls[i].errs
  {
  }

  lemma ReportsFull(states: seq<Queue>, actions: seq<Action>, m: nat, i: nat)
    requires IsRun(states, actions) && m < |actions|
    requires i < |states[m + 1].calls| && QueueFull in states[m + 1].calls[i].errs
    ensures i < |states[m].calls| && (actions[m] == Reject(i) || QueueFull in states[m].calls[i].errs)
  {
    assert Moves(states, actions, m);
    StepReportsFull(states[m], actions[m], i);
  }

  lemma StepReportsFull(q: Queue, a: Action, i: nat)
    requires Enabled(q, a) && i < |q.calls|
    ensures i < |Step(q, a).calls|
    ensures QueueFull in Step(q, a).calls[i].errs ==> a == Reject(i) || QueueFull in q.calls[i].errs
  {
    assert Step(q, a).calls == q.calls[a.i := CallStep(q.targets, q.calls[a.i], a)];
  }

  /** ... and then it returns just that error, and posts nothing. */
  lemma QueueFullPostsNothing(states: seq<Queue>, actions: seq<Action>, k: nat, i: nat)
    requires IsRun(states, actions) && k < |states|
    requires i < |states[k].calls| && states[k].calls[i].pc.Done? && QueueFull in states[k].calls[i].errs
    ensures states[k].calls[i].errs == [QueueFull]
    ensures forall p :: 0 <= p < |states[k].log| ==> states[k].log[p].caller != i
  {
    Reachable(states, actions, k);
    var q := states[k];
    assert CallInv(q.targets, q.calls[i]);
    ErrorsMeaning(q.calls[i].results);
    BlockCallers(q, q.order);
  }

  // ---- progress ----

  predicate Started(call: Call) {
    !call.pc.NotStarted?
  }

  /** A started call that does not wait for the gate always has a step of its own. */
  lemma CallCanMove(q: Queue, i: nat) returns (a: Action)
    requires Inv(q) && i < |q.calls| && Started(q.calls[i]) && !q.calls[i].pc.Done?
    requires q.calls[i].pc.Queueing? ==> q.gate == 0
    ensures a.i == i && Enabled(q, a) && !a.Cancel? && !a.Begin?
  {
    SumAtLeast(q.calls, AdmissionTokens, i);
    SumAtLeast(q.calls, GateTokens, i);
    match q.calls[i].pc
    case Entering => a := Enter(i);
    case Admitting =>
      a := if q.admission < q.Capacity() then Acquire(i)
           else if q.calls[i].ctx.Some? then GiveUpAdmission(i) else Reject(i);
    case Queueing => a := TakeGate(i);
    case Gated => a := CheckGated(i);
    case Looping => a := Turn(i);
    case Posting => a := Respond(i, None);
    case Failing => a := CheckFailing(i);
    case ReleasingGate => a := ReleaseGate(i);
    case ReleasingAdmission => a := ReleaseAdmission(i);
  }

  /** If API calls return, no state with an unfinished `Send` is stuck: a started call can move
      without anybody's cancellation. */
  lemma NeverStuck(states: seq<Queue>, actions: seq<Action>, k: nat, i: nat) returns (a: Action)
    requires IsRun(states, actions) && k < |states|
    requires i < |states[k].calls| && Started(states[k].calls[i]) && !states[k].calls[i].pc.Done?
    ensures Enabled(states[k], a) && !a.Cancel? && !a.Begin?
  {
    Reachable(states, actions, k);
    var q := states[k];
    if q.calls[i].pc.Queueing? && q.gate != 0 {
      var j := SumPositive(q.calls, GateTokens);
      a := CallCanMove(q, j);
    } else {
      a := CallCanMove(q, i);
    }
  }

  /** How many steps a call can still take. */
  function Rank(t: nat, call: Call): nat {
    var left := if |call.results| <= t then t - |call.results| else 0;
    (if call.ctx.None? then 1 else 0) +
    match call.pc
    case NotStarted => 3 * t + 8
    case Entering => 3 * t + 7
    case Admitting => 3 * t + 6
    case Queueing => 3 * t + 5
    case Gated => 3 * t + 4
    case Looping => 3 * left + 3
    case Posting => 3 * left + 2
    case Failing => 3 * left + 4
    case ReleasingGate => 2
    case ReleasingAdmission => 1
    case Done => 0
  }

  function RankWith(t: nat): Call -> nat {
    (call: Call) => Rank(t, call)
  }

  function Measure(q: Queue): nat {
    Sum(q.calls, RankWith(|q.targets|))
  }

  lemma RankFalls(q: Queue, a: Action)
    requires CallsInv(q) && Enabled(q, a)
    ensures Rank(|q.targets|, CallStep(q.targets, q.calls[a.i], a)) < Rank(|q.targets|, q.calls[a.i])
  {
    assert CallInv(q.targets, q.calls[a.i]);
  }

  /** Every step of anybody, cancellations included, lowers the measure of the whole system, so a
      run over any finite set of calls has at most `Measure` of its first state many steps, and
      together with `NeverStuck` all calls finish. */
  lemma {:induction false} AllCallsFinish(states: seq<Queue>, actions: seq<Action>, k: nat)
    requires IsRun(states, actions) && k < |states|
    ensures k + Measure(states[k]) <= Measure(states[0])
  {
    if k > 0 {
      AllCallsFinish(states, actions, k - 1);
      Reachable(states, actions, k - 1);
      assert Moves(states, actions, k - 1);
      StepLowersMeasure(states[k - 1], actions[k - 1]);
    }
  }

  lemma StepLowersMeasure(q: Queue, a: Action)
    requires CallsInv(q) && Enabled(q, a)
    ensures Measure(Step(q, a)) < Measure(q)
  {
    RankFalls(q, a);
    SumUpdate(q.calls, RankWith(|q.targets|), a.i, CallStep(q.targets, q.calls[a.i], a));
    TokensMove(q, a);
    assert Step(q, a).targets == q.targets;
  }
}
