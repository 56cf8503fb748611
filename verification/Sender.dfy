/** `Sender.Send` as the sequential program it is (internal/qqbot/sender.go), updating its token
    channels and the API log in place, while any other calls move between its statements and its
    context may end at any time. Who moves when is a schedule given to the methods.

    `Sent` says what a schedule means as steps of the protocol in `DeliveryQueue`, and `Send` is
    proved to do exactly that, so every theorem about the queue is one about `Send`. */
module Sender {
  import opened Options
  import opened DeliveryQueue
  import opened DeliveryTheorems

  /** What precedes a statement of the call: the moves of others, and how the statement goes where
      that is open. `preferDone` resolves a select whose token and context are both ready, and
      `failure` is the answer of the API. */
  datatype Gap = Gap(moves: seq<Action>, preferDone: bool, failure: Option<ApiError>)

  type Schedule = nat -> Gap

  // ---- what a schedule means ----

  /** The others may do whatever the protocol allows, and the context of call `i` may end. */
  predicate Foreign(q: Queue, i: nat, move: Action) {
    (move.i != i || move.Cancel?) && Enabled(q, move)
  }

  function Moved(q: Queue, i: nat, move: Action): Queue {
    if Foreign(q, i, move) then Step(q, move) else q
  }

  function Played(q: Queue, i: nat, moves: seq<Action>): Queue {
    if moves == [] then q else Moved(Played(q, i, moves[..|moves| - 1]), i, moves[|moves| - 1])
  }

  /** The next step of call `i`; none while it waits for the gate and when it is done. */
  function NextStep(q: Queue, i: nat, gap: Gap): Option<Action>
    requires i < |q.calls|
  {
    var ended := q.calls[i].ctx.Some?;
    match q.calls[i].pc
    case NotStarted => Some(Begin(i))
    case Entering => Some(Enter(i))
    case Admitting =>
      if q.admission < q.Capacity() && !(ended && gap.preferDone) then Some(Acquire(i))
      else if ended then Some(GiveUpAdmission(i))
      else Some(Reject(i))
    case Queueing =>
      if q.gate < 1 && !(ended && gap.preferDone) then Some(TakeGate(i))
      else if ended then Some(GiveUpGate(i))
      else None
    case Gated => Some(CheckGated(i))
    case Looping => Some(Turn(i))
    case Posting => Some(Respond(i, gap.failure))
    case Failing => Some(CheckFailing(i))
    case ReleasingGate => Some(ReleaseGate(i))
    case ReleasingAdmission => Some(ReleaseAdmission(i))
    case Done => None
  }

  function Advanced(q: Queue, i: nat, gap: Gap): Queue {
    if i < |q.calls| && NextStep(q, i, gap).Some? && Enabled(q, NextStep(q, i, gap).value)
    then Step(q, NextStep(q, i, gap).value) else q
  }

  /** The queue after `n` gaps and the statements that follow them. */
  function Sent(q: Queue, i: nat, schedule: Schedule, n: nat): Queue {
    if n == 0 then q
    else
      var gap := schedule(n - 1);
      Advanced(Played(Sent(q, i, schedule, n - 1), i, gap.moves), i, gap)
  }

  /** The queue at the moment the call is at the admission channel, if it comes that far. */
  function AtAdmission(q: Queue, i: nat, schedule: Schedule): Queue {
    Played(Sent(q, i, schedule, 2), i, schedule(2).moves)
  }

  /** The call is to be turned away: its context goes on, and all the slots are taken, the one at
      the gate and those of the calls that may wait for it. */
  predicate FindsFull(q: Queue, i: nat) {
    && i < |q.calls| && q.calls[i].pc.Admitting? && q.calls[i].ctx.None?
    && q.admission >= if q.maxPending >= 0 then q.maxPending + 1 else 1
  }

  // ---- every schedule is a run of the protocol ----

  lemma {:induction false} PlayedIsReachable(q: Queue, i: nat, moves: seq<Action>)
    requires IsReachable(q)
    ensures IsReachable(Played(q, i, moves))
  {
    if moves != [] {
      var t := Played(q, i, moves[..|moves| - 1]);
      var move := moves[|moves| - 1];
      PlayedIsReachable(q, i, moves[..|moves| - 1]);
      if Foreign(t, i, move) {
        StepIsReachable(t, move);
      }
    }
  }

  lemma {:induction false} SentIsReachable(q: Queue, i: nat, schedule: Schedule, n: nat)
    requires IsReachable(q)
    ensures IsReachable(Sent(q, i, schedule, n))
  {
    if n > 0 {
      var t := Sent(q, i, schedule, n - 1);
      SentIsReachable(q, i, schedule, n - 1);
      PlayedIsReachable(t, i, schedule(n - 1).moves);
      var p := Played(t, i, schedule(n - 1).moves);
      if i < |p.calls| && NextStep(p, i, schedule(n - 1)).Some? && Enabled(p, NextStep(p, i, schedule(n - 1)).value) {
        StepIsReachable(p, NextStep(p, i, schedule(n - 1)).value);
      }
    }
  }

  /** What the others cannot change: everything of call `i` but its context, which ends once. */
  predicate Undisturbed(q: Queue, t: Queue, i: nat)
    requires i < |q.calls|
  {
    && |t.calls| == |q.calls|
    && t.targets == q.targets && t.maxPending == q.maxPending
    && t.calls[i] == q.calls[i].(ctx := t.calls[i].ctx)
    && (q.calls[i].ctx.Some? ==> t.calls[i].ctx == q.calls[i].ctx)
  }

  lemma MovedIsUndisturbed(q: Queue, i: nat, move: Action)
    requires i < |q.calls|
    ensures Undisturbed(q, Moved(q, i, move), i)
  {
    if Foreign(q, i, move) {
      assert Step(q, move).calls == q.calls[move.i := CallStep(q.targets, q.calls[move.i], move)];
    }
  }

  lemma {:induction false} PlayedIsUndisturbed(q: Queue, i: nat, moves: seq<Action>)
    requires i < |q.calls|
    ensures Undisturbed(q, Played(q, i, moves), i)
  {
    if moves != [] {
      PlayedIsUndisturbed(q, i, moves[..|moves| - 1]);
      MovedIsUndisturbed(Played(q, i, moves[..|moves| - 1]), i, moves[|moves| - 1]);
    }
  }

  // ---- the program ----

  class Sender {
    const targets: seq<Target>
    const maxPending: int
    var admission: nat
    var gate: nat
    var log: seq<Post>
    var order: seq<nat>
    /** Where each call is. A call keeps its own record up to date and looks only at its `ctx`. */
    var calls: seq<Call>

    constructor (targets: seq<Target>, maxPending: int, contents: seq<string>)
      ensures this.targets == targets && this.maxPending == maxPending
      ensures Valid() && Init(Now()) && |calls| == |contents|
      ensures forall i :: 0 <= i < |contents| ==> calls[i].content == contents[i]
    {
      this.targets, this.maxPending := targets, maxPending;
      admission, gate, log, order := 0, 0, [], [];
      calls := seq(|contents|, i requires 0 <= i < |contents| => Call(NotStarted, contents[i], None, [], [], false));
      new;
      InitIsReachable(Now());
    }

    /** The state of the protocol. */
    function Now(): Queue
      reads this
    {
      Queue(targets, maxPending, admission, gate, calls, log, order)
    }

    ghost predicate Valid()
      reads this
    {
      IsReachable(Now())
    }

    function Capacity(): nat {
      (if maxPending < 0 then 0 else maxPending) + 1
    }

    /** Call `i` has come to `pc` with these errors, `n` gaps after `start`. */
    ghost predicate Follows(start: Queue, i: nat, schedule: Schedule, n: nat, pc: Pc, errs: seq<SendError>)
      reads this
    {
      && Now() == Sent(start, i, schedule, n)
      && i < |calls| && calls[i].pc == pc && calls[i].errs == errs
    }

    /** ... and the others made the moves of gap `n`. */
    ghost predicate Awaits(start: Queue, i: nat, schedule: Schedule, n: nat, pc: Pc, errs: seq<SendError>)
      reads this
    {
      && Now() == Played(Sent(start, i, schedule, n), i, schedule(n).moves)
      && i < |calls| && calls[i].pc == pc && calls[i].errs == errs
    }

    /** The others make their moves. */
    method Others(ghost start: Queue, i: nat, schedule: Schedule, n: nat, ghost pc: Pc, ghost errs: seq<SendError>)
      requires Follows(start, i, schedule, n, pc, errs)
      modifies this
      ensures Awaits(start, i, schedule, n, pc, errs)
      ensures Undisturbed(old(Now()), Now(), i)
    {
      var moves := schedule(n).moves;
      var k := 0;
      while k < |moves|
        invariant k <= |moves|
        invariant Now() == Played(old(Now()), i, moves[..k])
      {
        assert moves[..k + 1][..k] == moves[..k];
        Play(i, moves[k]);
        k := k + 1;
      }
      assert moves[..k] == moves;
      PlayedIsUndisturbed(old(Now()), i, moves);
    }

    method Play(i: nat, move: Action)
      modifies this
      ensures Now() == Moved(old(Now()), i, move)
    {
      var q := Moved(Now(), i, move);
      MovedKeepsConfiguration(Now(), i, move);
      admission, gate, calls, log, order := q.admission, q.gate, q.calls, q.log, q.order;
    }

    /** The statement of gap `n` was the step `a` of the protocol. */
    lemma Took(q: Queue, start: Queue, i: nat, schedule: Schedule, n: nat, a: Action)
      requires i < |q.calls| && q == Played(Sent(start, i, schedule, n), i, schedule(n).moves)
      requires NextStep(q, i, schedule(n)) == Some(a) && Enabled(q, a) && Now() == Step(q, a)
      ensures Now() == Sent(start, i, schedule, n + 1)
    {
    }

    /** The record of call `i`. */
    method Record(i: nat, call: Call)
      requires i < |calls|
      modifies this`calls
      ensures calls == old(calls)[i := call]
    {
      calls := calls[i := call];
    }

    /** A call that holds a token finds it when it gives it back. */
    lemma TokensAreThere(start: Queue, i: nat, schedule: Schedule, n: nat)
      requires IsReachable(start) && i < |calls|
      requires Now() == Played(Sent(start, i, schedule, n), i, schedule(n).moves)
      ensures HoldsGate(calls[i]) ==> gate > 0
      ensures HoldsAdmission(calls[i]) ==> admission > 0
    {
      SentIsReachable(start, i, schedule, n);
      PlayedIsReachable(Sent(start, i, schedule, n), i, schedule(n).moves);
      ReachableIsSound(Now());
      SumAtLeast(calls, GateTokens, i);
      SumAtLeast(calls, AdmissionTokens, i);
    }

    /** `Send`, for a call that looks at the gate at most `patience` times before the schedule ends:
        `None` means that it still waits, because it found the gate taken each time.

        On any schedule it gives back every token it took; nil means that a full block of its own
        content stands in the log, and a full queue that nothing of it does. */
    method Send(i: nat, content: string, schedule: Schedule, patience: nat)
      returns (result: Option<seq<SendError>>, ghost n: nat)
      requires Valid() && i < |calls| && calls[i].pc.NotStarted? && calls[i].content == content
      modifies this
      ensures Valid() && Now() == Sent(old(Now()), i, schedule, n) && i < |calls|
      ensures result.Some? ==> calls[i].pc.Done? && calls[i].errs == result.value
      ensures result.None? ==> calls[i].pc.Queueing? && n == 3 + patience
      ensures SameContents(old(Now()), Now())
      ensures admission == Sum(calls, AdmissionTokens) && gate == Sum(calls, GateTokens)
      ensures admission <= if maxPending >= 0 then maxPending + 1 else 1
      ensures result == Some([QueueFull]) <==> FindsFull(AtAdmission(old(Now()), i, schedule), i)
      ensures result == Some([]) ==> BlockInLog(Now(), i, content)
      ensures result.Some? && QueueFull in result.value ==>
        result == Some([QueueFull]) && forall p :: 0 <= p < |log| ==> log[p].caller != i
    {
      ghost var start := Now();
      result, n := Proceed(start, i, schedule, patience);
      SentIsReachable(start, i, schedule, n);
      SentKeepsContents(start, i, schedule, n);
      TokensAreCounted(Now());
      if result.Some? {
        ReturnedWell(Now(), i);
      }
    }

    method Proceed(ghost start: Queue, i: nat, schedule: Schedule, patience: nat)
      returns (result: Option<seq<SendError>>, ghost n: nat)
      requires start == Now() && Valid() && i < |calls| && calls[i].pc.NotStarted?
      modifies this
      ensures result.Some? ==> Follows(start, i, schedule, n, Done, result.value)
      ensures result.None? ==> Follows(start, i, schedule, n, Queueing, []) && n == 3 + patience
      ensures result == Some([QueueFull]) <==> FindsFull(AtAdmission(start, i, schedule), i)
    {
      CallsStartEmpty(Now(), i);
      var at, errs := Admit(start, i, schedule);
      if errs != [] {
        return Some(errs), at;
      }
      var entered;
      entered, at := AwaitGate(start, i, schedule, at, patience);
      match entered {
        case Waiting =>
          return None, at;
        case GaveUp(reason) =>
          errs := [Context(reason)];
        case Entered =>
          at, errs := DeliverAll(start, i, schedule, at);
      }
      SentIsReachable(start, i, schedule, at);
      NeverFull(Now(), i);
      at := ReleaseAdmissionToken(start, i, schedule, at, errs);
      result, n := Some(errs), at;
    }

    /** The first look at the context and the select on the admission channel. */
    method Admit(ghost start: Queue, i: nat, schedule: Schedule) returns (at: nat, errs: seq<SendError>)
      requires Follows(start, i, schedule, 0, NotStarted, [])
      modifies this
      ensures Follows(start, i, schedule, at, if errs == [] then Queueing else Done, errs)
      ensures errs == [] ==> at == 3
      ensures errs == [QueueFull] <==> FindsFull(AtAdmission(start, i, schedule), i)
    {
      errs := [];
      Others(start, i, schedule, 0, NotStarted, []);
      ghost var q := Now();
      Record(i, calls[i].(pc := Entering));
      Took(q, start, i, schedule, 0, Begin(i));
      Others(start, i, schedule, 1, Entering, []);
      q := Now();
      if calls[i].ctx.Some? {
        errs := [Context(calls[i].ctx.value)];
        Record(i, calls[i].(pc := Done, errs := errs));
        Took(q, start, i, schedule, 1, Enter(i));
        PlayedIsUndisturbed(Now(), i, schedule(2).moves);
        at := 2;
        return;
      }
      Record(i, calls[i].(pc := Admitting));
      Took(q, start, i, schedule, 1, Enter(i));
      errs := TakeAdmission(start, i, schedule);
      at := 3;
    }

    method TakeAdmission(ghost start: Queue, i: nat, schedule: Schedule) returns (errs: seq<SendError>)
      requires Follows(start, i, schedule, 2, Admitting, [])
      modifies this
      ensures Follows(start, i, schedule, 3, if errs == [] then Queueing else Done, errs)
      ensures errs == [QueueFull] <==> FindsFull(AtAdmission(start, i, schedule), i)
    {
      errs := [];
      Others(start, i, schedule, 2, Admitting, []);
      ghost var q := Now();
      if admission < Capacity() && !(calls[i].ctx.Some? && schedule(2).preferDone) {
        admission := admission + 1;
        Record(i, calls[i].(pc := Queueing));
        Took(q, start, i, schedule, 2, Acquire(i));
      } else if calls[i].ctx.Some? {
        errs := [Context(calls[i].ctx.value)];
        Record(i, calls[i].(pc := Done, errs := errs));
        Took(q, start, i, schedule, 2, GiveUpAdmission(i));
      } else {
        errs := [QueueFull];
        Record(i, calls[i].(pc := Done, errs := errs));
        Took(q, start, i, schedule, 2, Reject(i));
      }
    }

    /** The select on the gate, and the look at the context behind it. */
    method AwaitGate(ghost start: Queue, i: nat, schedule: Schedule, from: nat, patience: nat)
      returns (entered: Entry, at: nat)
      requires Follows(start, i, schedule, from, Queueing, [])
      modifies this
      ensures Follows(start, i, schedule, at, entered.Pc(), entered.Errors())
      ensures entered.Waiting? ==> at == from + patience
      decreases patience
    {
      if patience == 0 {
        return Waiting, from;
      }
      entered := LookAtGate(start, i, schedule, from);
      at := from + 1;
      if entered.Waiting? {
        entered, at := AwaitGate(start, i, schedule, at, patience - 1);
      }
    }

    /** One look at the gate. */
    method LookAtGate(ghost start: Queue, i: nat, schedule: Schedule, at: nat) returns (entered: Entry)
      requires Follows(start, i, schedule, at, Queueing, [])
      modifies this
      ensures Follows(start, i, schedule, at + 1, entered.Pc(), entered.Errors())
    {
      Others(start, i, schedule, at, Queueing, []);
      ghost var q := Now();
      if gate < 1 && !(calls[i].ctx.Some? && schedule(at).preferDone) {
        gate, order := gate + 1, order + [i];
        Record(i, calls[i].(pc := Gated, gated := true));
        Took(q, start, i, schedule, at, TakeGate(i));
        entered := Entered;
      } else if calls[i].ctx.Some? {
        Record(i, calls[i].(pc := ReleasingAdmission, errs := [Context(calls[i].ctx.value)]));
        Took(q, start, i, schedule, at, GiveUpGate(i));
        entered := GaveUp(calls[i].ctx.value);
      } else {
        entered := Waiting;
      }
    }

    /** The look at the context, the loop over the targets, and the gate's deferred release. */
    method DeliverAll(ghost start: Queue, i: nat, schedule: Schedule, from: nat)
      returns (at: nat, errs: seq<SendError>)
      requires IsReachable(start) && Follows(start, i, schedule, from, Gated, [])
      modifies this
      ensures Follows(start, i, schedule, at, ReleasingAdmission, errs)
    {
      SentIsReachable(start, i, schedule, from);
      CallsStartEmpty(Now(), i);
      var content := calls[i].content;
      var broken;
      at, errs, broken := CheckContext(start, i, content, schedule, from);
      var k := 0;
      while k < |targets| && !broken
        invariant k <= |targets|
        invariant Follows(start, i, schedule, at, if broken then ReleasingGate else Looping, errs)
        invariant calls[i].content == content && (!broken ==> |calls[i].results| == k)
        decreases |targets| - k, !broken
      {
        k, at, errs, broken := DeliverOne(start, i, content, k, schedule, at, errs);
      }
      if !broken {
        at := EndLoop(start, i, schedule, at, errs);
      }
      at := ReleaseGateToken(start, i, schedule, at, errs);
    }

    method EndLoop(ghost start: Queue, i: nat, schedule: Schedule, from: nat, ghost errs: seq<SendError>)
      returns (at: nat)
      requires Follows(start, i, schedule, from, Looping, errs) && |calls[i].results| == |targets|
      modifies this
      ensures Follows(start, i, schedule, at, ReleasingGate, errs)
    {
      Others(start, i, schedule, from, Looping, errs);
      LeaveLoop(start, i, schedule, from, errs);
      at := from + 1;
    }

    method LeaveLoop(ghost start: Queue, i: nat, schedule: Schedule, from: nat, ghost errs: seq<SendError>)
      requires Awaits(start, i, schedule, from, Looping, errs) && |calls[i].results| == |targets|
      modifies this`calls
      ensures Follows(start, i, schedule, from + 1, ReleasingGate, errs)
    {
      ghost var q := Now();
      Record(i, calls[i].(pc := ReleasingGate));
      Took(q, start, i, schedule, from, Turn(i));
    }

    /** The deferred release of the gate. */
    method ReleaseGateToken(ghost start: Queue, i: nat, schedule: Schedule, from: nat, ghost errs: seq<SendError>)
      returns (at: nat)
      requires IsReachable(start) && Follows(start, i, schedule, from, ReleasingGate, errs)
      modifies this
      ensures Follows(start, i, schedule, at, ReleasingAdmission, errs)
    {
      Others(start, i, schedule, from, ReleasingGate, errs);
      GiveGateBack(start, i, schedule, from, errs);
      at := from + 1;
    }

    method GiveGateBack(ghost start: Queue, i: nat, schedule: Schedule, from: nat, ghost errs: seq<SendError>)
      requires IsReachable(start) && Awaits(start, i, schedule, from, ReleasingGate, errs)
      modifies this`calls, this`gate
      ensures Follows(start, i, schedule, from + 1, ReleasingAdmission, errs)
    {
      ghost var q := Now();
      TokensAreThere(start, i, schedule, from);
      gate := gate - 1;
      Record(i, calls[i].(pc := ReleasingAdmission));
      Took(q, start, i, schedule, from, ReleaseGate(i));
    }

    method CheckContext(ghost start: Queue, i: nat, content: string, schedule: Schedule, from: nat)
      returns (at: nat, errs: seq<SendError>, broken: bool)
      requires Follows(start, i, schedule, from, Gated, []) && calls[i].content == content && calls[i].results == []
      modifies this
      ensures Follows(start, i, schedule, at, if broken then ReleasingGate else Looping, errs)
      ensures calls[i].content == content && calls[i].results == []
    {
      at, errs, broken := from + 1, [], false;
      Others(start, i, schedule, from, Gated, []);
      if calls[i].ctx.Some? {
        errs, broken := [Context(calls[i].ctx.value)], true;
        Pass(start, i, schedule, from, ReleasingGate, errs);
      } else {
        Pass(start, i, schedule, from, Looping, []);
      }
    }

    method Pass(ghost start: Queue, i: nat, schedule: Schedule, from: nat, pc: Pc, errs: seq<SendError>)
      requires Awaits(start, i, schedule, from, Gated, []) && (calls[i].ctx.Some? <==> pc == ReleasingGate)
      requires if calls[i].ctx.Some? then errs == [Context(calls[i].ctx.value)] else pc == Looping && errs == []
      modifies this`calls
      ensures Follows(start, i, schedule, from + 1, pc, errs)
      ensures |calls| == |old(calls)| && calls[i].content == old(calls)[i].content && calls[i].results == old(calls)[i].results
    {
      ghost var q := Now();
      Record(i, calls[i].(pc := pc, errs := errs));
      Took(q, start, i, schedule, from, CheckGated(i));
    }

    /** One turn of the loop: nothing more happens after a `break`. */
    method DeliverOne(ghost start: Queue, i: nat, content: string, k: nat, schedule: Schedule, from: nat, before: seq<SendError>)
      returns (next: nat, at: nat, errs: seq<SendError>, broken: bool)
      requires Follows(start, i, schedule, from, Looping, before)
      requires k < |targets| && |calls[i].results| == k && calls[i].content == content
      modifies this
      ensures Follows(start, i, schedule, at, if broken then ReleasingGate else Looping, errs)
      ensures k <= next <= |targets| && calls[i].content == content
      ensures !broken ==> next == k + 1 && |calls[i].results| == next
    {
      next, at, errs, broken := k + 1, from, before, false;
      Others(start, i, schedule, at, Looping, before);
      ghost var q := Now();
      if calls[i].ctx.Some? {
        errs, broken := errs + [Context(calls[i].ctx.value)], true;
        BreakLoop(start, i, schedule, at, before);
        at := at + 1;
        return;
      }
      var failed;
      at, errs, failed := Dispatch(q, start, i, content, k, schedule, at, before);
      if failed {
        at, errs, broken := AfterFailure(start, i, content, k, schedule, at, errs);
      }
    }

    method BreakLoop(ghost start: Queue, i: nat, schedule: Schedule, from: nat, before: seq<SendError>)
      requires Awaits(start, i, schedule, from, Looping, before) && calls[i].ctx.Some? && |calls[i].results| < |targets|
      modifies this`calls
      ensures i < |old(calls)| && old(calls)[i].ctx.Some?
      ensures Follows(start, i, schedule, from + 1, ReleasingGate, before + [Context(old(calls)[i].ctx.value)])
      ensures calls[i].content == old(calls)[i].content
    {
      ghost var q := Now();
      Record(i, calls[i].(pc := ReleasingGate, errs := before + [Context(calls[i].ctx.value)]));
      Took(q, start, i, schedule, from, Turn(i));
    }

    /** The switch on the target type: the post, or the error for a type it does not know. */
    method Dispatch(ghost q: Queue, ghost start: Queue, i: nat, content: string, k: nat, schedule: Schedule,
                    from: nat, before: seq<SendError>)
      returns (at: nat, errs: seq<SendError>, failed: bool)
      requires Awaits(start, i, schedule, from, Looping, before) && q == Now() && calls[i].ctx.None?
      requires k < |targets| && |calls[i].results| == k && calls[i].content == content
      modifies this
      ensures Follows(start, i, schedule, at, if failed then Failing else Looping, errs)
      ensures calls[i].content == content && |calls[i].results| == k + 1
    {
      errs := before;
      if targets[k].kind == "channel" {
        StartPost(q, start, i, k, schedule, from, before);
        at, errs, failed := Post(start, i, content, k, ChannelMessage, schedule, from + 1, before);
      } else if targets[k].kind == "group" {
        StartPost(q, start, i, k, schedule, from, before);
        at, errs, failed := Post(start, i, content, k, GroupMessage, schedule, from + 1, before);
      } else if targets[k].kind == "user" {
        StartPost(q, start, i, k, schedule, from, before);
        at, errs, failed := Post(start, i, content, k, UserMessage, schedule, from + 1, before);
      } else {
        errs, failed := errs + [Delivery(k, None)], true;
        Refuse(q, start, i, k, schedule, from, before);
        at := from + 1;
      }
    }

    method StartPost(ghost q: Queue, ghost start: Queue, i: nat, k: nat, schedule: Schedule, from: nat,
                     ghost before: seq<SendError>)
      requires Awaits(start, i, schedule, from, Looping, before) && q == Now() && calls[i].ctx.None?
      requires k < |targets| && |calls[i].results| == k && Supported(targets[k])
      modifies this`calls
      ensures Follows(start, i, schedule, from + 1, Posting, before)
      ensures calls[i].content == q.calls[i].content && |calls[i].results| == k
    {
      Record(i, calls[i].(pc := Posting));
      Took(q, start, i, schedule, from, Turn(i));
    }

    method Refuse(ghost q: Queue, ghost start: Queue, i: nat, k: nat, schedule: Schedule, from: nat, before: seq<SendError>)
      requires Awaits(start, i, schedule, from, Looping, before) && q == Now() && calls[i].ctx.None?
      requires k < |targets| && |calls[i].results| == k && !Supported(targets[k])
      modifies this`calls
      ensures Follows(start, i, schedule, from + 1, Failing, before + [Delivery(k, None)])
      ensures calls[i].content == q.calls[i].content && |calls[i].results| == k + 1
    {
      Record(i, calls[i].(pc := Failing, errs := before + [Delivery(k, None)], results := calls[i].results + [Refused(None)]));
      Took(q, start, i, schedule, from, Turn(i));
    }

    /** The API call, which the log shows once it answered. */
    method Post(ghost start: Queue, i: nat, content: string, k: nat, api: Api, schedule: Schedule, from: nat, before: seq<SendError>)
      returns (at: nat, errs: seq<SendError>, failed: bool)
      requires Follows(start, i, schedule, from, Posting, before)
      requires k < |targets| && |calls[i].results| == k && calls[i].content == content && api == ApiFor(targets[k].kind)
      modifies this
      ensures at == from + 1 && failed == schedule(from).failure.Some?
      ensures Follows(start, i, schedule, at, if failed then Failing else Looping, errs)
      ensures calls[i].content == content && |calls[i].results| == k + 1
    {
      Others(start, i, schedule, from, Posting, before);
      at, errs, failed := from + 1, before, schedule(from).failure.Some?;
      if failed {
        errs := errs + [Delivery(k, schedule(from).failure)];
        LogRefusal(start, i, content, k, api, schedule, from, before);
      } else {
        LogAcceptance(start, i, content, k, api, schedule, from, before);
      }
    }

    method LogAcceptance(ghost start: Queue, i: nat, content: string, k: nat, api: Api, schedule: Schedule, from: nat,
                         ghost before: seq<SendError>)
      requires Awaits(start, i, schedule, from, Posting, before) && schedule(from).failure.None?
      requires k < |targets| && |calls[i].results| == k && calls[i].content == content && api == ApiFor(targets[k].kind)
      modifies this`calls, this`log
      ensures Follows(start, i, schedule, from + 1, Looping, before)
      ensures calls[i].content == content && |calls[i].results| == k + 1
    {
      ghost var q := Now();
      log := log + [DeliveryQueue.Post(i, content, k, true, api, targets[k].id)];
      Record(i, calls[i].(pc := Looping, results := calls[i].results + [Delivered]));
      Took(q, start, i, schedule, from, Respond(i, None));
    }

    method LogRefusal(ghost start: Queue, i: nat, content: string, k: nat, api: Api, schedule: Schedule, from: nat,
                      before: seq<SendError>)
      requires Awaits(start, i, schedule, from, Posting, before) && schedule(from).failure.Some?
      requires k < |targets| && |calls[i].results| == k && calls[i].content == content && api == ApiFor(targets[k].kind)
      modifies this`calls, this`log
      ensures Follows(start, i, schedule, from + 1, Failing, before + [Delivery(k, schedule(from).failure)])
      ensures calls[i].content == content && |calls[i].results| == k + 1
    {
      ghost var q := Now();
      var failure := schedule(from).failure;
      log := log + [DeliveryQueue.Post(i, content, k, false, api, targets[k].id)];
      Record(i, calls[i].(pc := Failing, errs := before + [Delivery(k, failure)],
                          results := calls[i].results + [Refused(failure)]));
      Took(q, start, i, schedule, from, Respond(i, failure));
    }

    /** The look at the context after a failed delivery. */
    method AfterFailure(ghost start: Queue, i: nat, content: string, k: nat, schedule: Schedule, from: nat, before: seq<SendError>)
      returns (at: nat, errs: seq<SendError>, broken: bool)
      requires Follows(start, i, schedule, from, Failing, before)
      requires k < |targets| && |calls[i].results| == k + 1 && calls[i].content == content
      modifies this
      ensures Follows(start, i, schedule, at, if broken then ReleasingGate else Looping, errs)
      ensures calls[i].content == content && |calls[i].results| == k + 1
    {
      at, errs, broken := from + 1, before, false;
      Others(start, i, schedule, from, Failing, before);
      if calls[i].ctx.Some? {
        errs, broken := errs + [Context(calls[i].ctx.value)], true;
      }
      PassFailure(start, i, schedule, from, before, errs);
    }

    method PassFailure(ghost start: Queue, i: nat, schedule: Schedule, from: nat, ghost before: seq<SendError>, errs: seq<SendError>)
      requires Awaits(start, i, schedule, from, Failing, before)
      requires errs == if calls[i].ctx.Some? then before + [Context(calls[i].ctx.value)] else before
      modifies this`calls
      ensures i < |old(calls)|
      ensures Follows(start, i, schedule, from + 1, if old(calls)[i].ctx.Some? then ReleasingGate else Looping, errs)
      ensures calls[i].content == old(calls)[i].content && calls[i].results == old(calls)[i].results
    {
      ghost var q := Now();
      if calls[i].ctx.Some? {
        Record(i, calls[i].(pc := ReleasingGate, errs := errs));
      } else {
        Record(i, calls[i].(pc := Looping));
      }
      Took(q, start, i, schedule, from, CheckFailing(i));
    }

    /** The deferred release of the admission token. */
    method ReleaseAdmissionToken(ghost start: Queue, i: nat, schedule: Schedule, from: nat, ghost errs: seq<SendError>)
      returns (at: nat)
      requires IsReachable(start) && Follows(start, i, schedule, from, ReleasingAdmission, errs)
      modifies this
      ensures Follows(start, i, schedule, at, Done, errs)
    {
      Others(start, i, schedule, from, ReleasingAdmission, errs);
      GiveAdmissionBack(start, i, schedule, from, errs);
      at := from + 1;
    }

    method GiveAdmissionBack(ghost start: Queue, i: nat, schedule: Schedule, from: nat, ghost errs: seq<SendError>)
      requires IsReachable(start) && Awaits(start, i, schedule, from, ReleasingAdmission, errs)
      modifies this`calls, this`admission
      ensures Follows(start, i, schedule, from + 1, Done, errs)
    {
      ghost var q := Now();
      TokensAreThere(start, i, schedule, from);
      admission := admission - 1;
      Record(i, calls[i].(pc := Done));
      Took(q, start, i, schedule, from, ReleaseAdmission(i));
    }
  }

  /** A call that was admitted never reports a full queue. */
  lemma NeverFull(q: Queue, i: nat)
    requires IsReachable(q) && i < |q.calls| && q.calls[i].pc.ReleasingAdmission?
    ensures q.calls[i].errs != [QueueFull]
  {
    ReachableIsSound(q);
    assert CallInv(q.targets, q.calls[i]);
    ErrorsMeaning(q.calls[i].results);
    assert q.calls[i].errs != [] ==> q.calls[i].errs[0] != QueueFull;
  }

  lemma TokensAreCounted(q: Queue)
    requires IsReachable(q)
    ensures q.admission <= if q.maxPending >= 0 then q.maxPending + 1 else 1
    ensures q.admission == Sum(q.calls, AdmissionTokens) && q.gate == Sum(q.calls, GateTokens)
  {
    ReachableIsSound(q);
  }

  /** How the wait for the gate ended. */
  datatype Entry = Waiting | GaveUp(reason: ContextError) | Entered {
    function Pc(): Pc {
      match this
      case Waiting => Queueing
      case GaveUp(_) => ReleasingAdmission
      case Entered => Gated
    }

    function Errors(): seq<SendError> {
      if GaveUp? then [Context(reason)] else []
    }
  }

  lemma MovedKeepsConfiguration(q: Queue, i: nat, move: Action)
    ensures Moved(q, i, move).targets == q.targets && Moved(q, i, move).maxPending == q.maxPending
  {
  }

  lemma CallsStartEmpty(q: Queue, i: nat)
    requires IsReachable(q) && i < |q.calls|
    ensures q.calls[i].pc.NotStarted? || q.calls[i].pc.Gated? ==> q.calls[i].errs == [] && q.calls[i].results == []
  {
    ReachableIsSound(q);
    assert CallInv(q.targets, q.calls[i]);
  }

  lemma MovesKeepContents(q: Queue, i: nat, moves: seq<Action>)
    ensures SameContents(q, Played(q, i, moves))
  {
    if moves != [] {
      var t := Played(q, i, moves[..|moves| - 1]);
      MovesKeepContents(q, i, moves[..|moves| - 1]);
      if Foreign(t, i, moves[|moves| - 1]) {
        StepKeepsContents(t, moves[|moves| - 1]);
      }
    }
  }

  lemma {:induction false} SentKeepsContents(q: Queue, i: nat, schedule: Schedule, n: nat)
    ensures SameContents(q, Sent(q, i, schedule, n))
  {
    if n > 0 {
      var t := Sent(q, i, schedule, n - 1);
      var gap := schedule(n - 1);
      SentKeepsContents(q, i, schedule, n - 1);
      GapKeepsContents(q, t, i, gap);
    }
  }

  lemma GapKeepsContents(q: Queue, t: Queue, i: nat, gap: Gap)
    requires SameContents(q, t)
    ensures SameContents(q, Advanced(Played(t, i, gap.moves), i, gap))
  {
    MovesKeepContents(t, i, gap.moves);
    AdvanceKeepsContents(Played(t, i, gap.moves), i, gap);
  }

  lemma AdvanceKeepsContents(q: Queue, i: nat, gap: Gap)
    ensures SameContents(q, Advanced(q, i, gap))
  {
    if i < |q.calls| && NextStep(q, i, gap).Some? && Enabled(q, NextStep(q, i, gap).value) {
      StepKeepsContents(q, NextStep(q, i, gap).value);
    }
  }

  /** What the errors of a finished call say about the log. */
  lemma ReturnedWell(q: Queue, i: nat)
    requires IsReachable(q) && i < |q.calls| && q.calls[i].pc.Done?
    ensures q.calls[i].errs == [] ==> BlockInLog(q, i, q.calls[i].content)
    ensures QueueFull in q.calls[i].errs ==>
      q.calls[i].errs == [QueueFull] && forall p :: 0 <= p < |q.log| ==> q.log[p].caller != i
  {
    var states, actions :| IsRun(states, actions) && states[|actions|] == q;
    var start := SendReturnsNil(states, actions, |actions|, i);
    if q.calls[i].errs == [] {
      assert BlockAt(q, i, q.calls[i].content, start);
    }
    if QueueFull in q.calls[i].errs {
      QueueFullPostsNothing(states, actions, |actions|, i);
    }
  }
}
