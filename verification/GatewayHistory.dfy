/** What the connection state means, told by the history of calls alone.

    The predicates below never look at the state: they say which calls of a history open a
    session, fail it, or are events of a live session. The lemmas show that every field of the
    state `Replay` computes is what these predicates say it should be, for every history of calls
    in any order by any callers, stale and duplicated calls included. */
module GatewayHistory {
  import opened Options
  import opened GatewayState

  /** Session `x` was opened among the first `n` calls and nothing has replaced or failed it. */
  ghost predicate Live(h: seq<Call>, n: nat, x: Identity)
    requires n <= |h|
    decreases n, 0
  {
    exists i: nat :: i < n && Opens(h, i) && h[i].identity == x
      && forall j: nat :: i < j < n ==> !Opens(h, j) && !(h[j].Failed? && h[j].identity == x)
  }

  /** Call `i` reports the failure of the session that was live at that moment. */
  ghost predicate Fails(h: seq<Call>, i: nat)
    requires i < |h|
    decreases i, 1
  {
    h[i].Failed? && Live(h, i, h[i].identity)
  }

  ghost predicate Dooms(h: seq<Call>, i: nat)
    requires i < |h|
    decreases i, 2
  {
    Fails(h, i) && h[i].cannotIdentify
  }

  /** Call `i` starts a session before anything fatal happened. */
  ghost predicate Opens(h: seq<Call>, i: nat)
    requires i < |h|
    decreases i, 3
  {
    h[i].Started? && forall j: nat :: j < i ==> !Dooms(h, j)
  }

  ghost predicate Accepted(h: seq<Call>, i: nat)
    requires i < |h|
  {
    h[i].IsEvent() && h[i].payload.Some? && h[i].payload.value.session.Some?
    && Live(h, i, h[i].payload.value.session.value)
  }

  ghost predicate Doomed(h: seq<Call>, n: nat)
    requires n <= |h|
  {
    exists i: nat :: i < n && Dooms(h, i)
  }

  /** An outage is open after `n` calls: something failed and no event was accepted since. */
  ghost predicate InOutage(h: seq<Call>, n: nat)
    requires n <= |h|
  {
    exists i: nat :: i < n && Fails(h, i) && forall j: nat :: i < j < n ==> !Accepted(h, j)
  }

  /** Call `i` is the first failure of its outage. */
  ghost predicate StartsOutage(h: seq<Call>, i: nat)
    requires i < |h|
  {
    Fails(h, i) && !InOutage(h, i)
  }

  ghost function OutageStarts(h: seq<Call>, n: nat): set<nat>
    requires n <= |h|
  {
    Below((i: nat) => i < |h| && StartsOutage(h, i), n)
  }

  ghost function Below(p: nat -> bool, n: nat): set<nat> {
    set i: nat | i < n && p(i)
  }

  lemma BelowStep(p: nat -> bool, n: nat)
    ensures |Below(p, n + 1)| == |Below(p, n)| + if p(n) then 1 else 0
  {
    if p(n) {
      assert Below(p, n + 1) == Below(p, n) + {n};
    } else {
      assert Below(p, n + 1) == Below(p, n);
    }
  }

  // ---- one more call ----

  lemma LiveStep(h: seq<Call>, n: nat, x: Identity)
    requires n < |h|
    ensures Live(h, n + 1, x) <==>
      if Opens(h, n) then h[n].identity == x
      else Live(h, n, x) && !(h[n].Failed? && h[n].identity == x)
  {
    if Opens(h, n) {
      if h[n].identity == x {
        assert Live(h, n + 1, x);
      }
    } else if Live(h, n, x) && !(h[n].Failed? && h[n].identity == x) {
      var i: nat :| i < n && Opens(h, i) && h[i].identity == x
        && forall j: nat :: i < j < n ==> !Opens(h, j) && !(h[j].Failed? && h[j].identity == x);
      assert forall j: nat :: i < j < n + 1 ==> !Opens(h, j) && !(h[j].Failed? && h[j].identity == x);
    }
  }

  lemma DoomedStep(h: seq<Call>, n: nat)
    requires n < |h|
    ensures Doomed(h, n + 1) <==> Doomed(h, n) || Dooms(h, n)
    ensures Opens(h, n) <==> h[n].Started? && !Doomed(h, n)
  {
    if Doomed(h, n) {
      var i: nat :| i < n && Dooms(h, i);
      assert i < n + 1;
    }
    if Dooms(h, n) {
      assert n < n + 1;
    }
  }

  lemma InOutageStep(h: seq<Call>, n: nat)
    requires n < |h|
    ensures InOutage(h, n + 1) <==> Fails(h, n) || (InOutage(h, n) && !Accepted(h, n))
  {
    if InOutage(h, n) && !Accepted(h, n) {
      var i: nat :| i < n && Fails(h, i) && forall j: nat :: i < j < n ==> !Accepted(h, j);
      assert forall j: nat :: i < j < n + 1 ==> !Accepted(h, j);
    }
  }

  // ---- sessions and fatal errors ----

  /** The open session of the state is exactly the live session of the history, and a fatal error
      is recorded exactly when some call was fatal. */
  lemma {:induction false} SessionMeaning(h: seq<Call>, n: nat)
    requires n <= |h|
    ensures forall x :: !Stale(Replay(h, n), x) <==> Live(h, n, x)
    ensures Replay(h, n).fatalError.Some? <==> Doomed(h, n)
  {
    ReplayIsCoherent(h, n);
    if n > 0 {
      SessionMeaning(h, n - 1);
      ReplayIsCoherent(h, n - 1);
      DoomedStep(h, n - 1);
      forall x
        ensures !Stale(Replay(h, n), x) <==> Live(h, n, x)
      {
        LiveStep(h, n - 1, x);
      }
    }
  }

  lemma AcceptanceMeaning(h: seq<Call>, i: nat)
    requires i < |h|
    ensures Accepted(h, i) <==> h[i].IsEvent() && Accepts(Replay(h, i), h[i].payload)
    ensures Fails(h, i) <==> h[i].Failed? && !Stale(Replay(h, i), h[i].identity)
  {
    SessionMeaning(h, i);
    ReplayIsCoherent(h, i);
  }

  /** The fatal error is the error of the one fatal failure. */
  lemma {:induction false} FatalMeaning(h: seq<Call>, n: nat, i: nat)
    requires i < n <= |h| && Dooms(h, i)
    ensures h[i].Failed? && Replay(h, n).fatalError == Some(h[i].err)
  {
    AcceptanceMeaning(h, i);
    SessionMeaning(h, i);
    ReplayIsCoherent(h, i);
    FatalIsAbsorbing(h, i + 1, n);
  }

  // ---- outages ----

  /** `recovering` is an open outage. */
  lemma {:induction false} OutageMeaning(h: seq<Call>, n: nat)
    requires n <= |h|
    ensures Replay(h, n).recovering <==> InOutage(h, n)
  {
    if n > 0 {
      OutageMeaning(h, n - 1);
      AcceptanceMeaning(h, n - 1);
      InOutageStep(h, n - 1);
    }
  }

  lemma OutageStartsStep(h: seq<Call>, n: nat)
    requires n < |h|
    ensures |OutageStarts(h, n + 1)| == |OutageStarts(h, n)| + if StartsOutage(h, n) then 1 else 0
  {
    BelowStep((i: nat) => i < |h| && StartsOutage(h, i), n);
  }

  /** The generation counts the outages so far. */
  lemma {:induction false} GenerationMeaning(h: seq<Call>, n: nat)
    requires n <= |h|
    ensures Replay(h, n).recoveryGeneration == |OutageStarts(h, n)|
  {
    if n == 0 {
      assert OutageStarts(h, 0) == {};
    } else {
      GenerationMeaning(h, n - 1);
      OutageStartsStep(h, n - 1);
      GenerationStep(h, n - 1);
    }
  }

  lemma GenerationStep(h: seq<Call>, n: nat)
    requires n < |h|
    ensures Replay(h, n + 1).recoveryGeneration
         == Replay(h, n).recoveryGeneration + if StartsOutage(h, n) then 1 else 0
  {
    OutageMeaning(h, n);
    AcceptanceMeaning(h, n);
  }

  /** The outage clock shows the first failure of the latest outage, however many retries failed
      inside it, and the last error is the latest failure. */
  lemma {:induction false} OutageClock(h: seq<Call>, n: nat, i: nat)
    requires i < n <= |h| && StartsOutage(h, i)
    requires forall j: nat :: i < j < n ==> !StartsOutage(h, j)
    ensures Replay(h, n).disconnectedAt == h[i].at
  {
    AcceptanceMeaning(h, n - 1);
    OutageMeaning(h, n - 1);
    if i < n - 1 {
      OutageClock(h, n - 1, i);
      assert !StartsOutage(h, n - 1);
    }
  }

  lemma {:induction false} LastErrorMeaning(h: seq<Call>, n: nat, i: nat)
    requires i < n <= |h| && Fails(h, i)
    requires forall j: nat :: i < j < n ==> !Fails(h, j) && !Accepted(h, j)
    ensures Replay(h, n).lastError == Some(h[i].err)
  {
    AcceptanceMeaning(h, n - 1);
    if i < n - 1 {
      LastErrorMeaning(h, n - 1, i);
    }
  }

  /** An outage ends only through an event of a session that was opened after it began. */
  lemma OutageEndsByNewerSession(h: seq<Call>, i: nat, k: nat)
    requires i < k < |h| && Fails(h, i) && Accepted(h, k)
    ensures exists j: nat :: i < j < k && Opens(h, j) && Some(h[j].identity) == h[k].payload.value.session
  {
    var x := h[k].payload.value.session.value;
    var j: nat :| j < k && Opens(h, j) && h[j].identity == x
      && forall m: nat :: j < m < k ==> !Opens(h, m) && !(h[m].Failed? && h[m].identity == x);
    assert j >= i;
    assert j != i;
  }

  // ---- the resumable session ----

  datatype Field = IdField | SequenceField | ShardsField

  /** Call `i` writes field `f` of the resumable session. */
  ghost predicate Writes(h: seq<Call>, i: nat, f: Field)
    requires i < |h|
  {
    || Opens(h, i)
    || (Fails(h, i) && h[i].cannotResume && !f.ShardsField?)
    || (Accepted(h, i) && WritesAsEvent(h[i], f))
  }

  predicate WritesAsEvent(call: Call, f: Field)
    requires call.IsEvent() && call.payload.Some?
  {
    match f
    case IdField => call.Ready? && call.data.Some?
    case SequenceField => call.payload.value.sequence > 0
    case ShardsField => call.Ready? && call.data.Some? && |call.data.value.shard| >= 2
  }

  /** Field `f` of `r` shows what `call` wrote. */
  predicate Shows(r: Resumable, f: Field, call: Call) {
    match call
    case Started(_, resume) => Agree(r, resume, f)
    case Failed(_, _, _, _, _) => Agree(r, NO_SESSION, f)
    case Observed(payload) => payload.Some? && r.lastSeq == payload.value.sequence
    case Ready(payload, data) =>
      match f
      case SequenceField => payload.Some? && r.lastSeq == payload.value.sequence
      case IdField => data.Some? && r.id == data.value.sessionId
      case ShardsField =>
        data.Some? && |data.value.shard| >= 2 && r.shards == Shards(data.value.shard[0], data.value.shard[1])
  }

  predicate Agree(r: Resumable, q: Resumable, f: Field) {
    match f
    case IdField => r.id == q.id
    case SequenceField => r.lastSeq == q.lastSeq
    case ShardsField => r.shards == q.shards
  }

  lemma ResumeStep(h: seq<Call>, n: nat, f: Field)
    requires n < |h|
    ensures if Writes(h, n, f) then Shows(Replay(h, n + 1).resume, f, h[n])
            else Agree(Replay(h, n + 1).resume, Replay(h, n).resume, f)
  {
    AcceptanceMeaning(h, n);
    SessionMeaning(h, n);
    DoomedStep(h, n);
  }

  /** The last writer of a field decides it. */
  lemma {:induction false} ResumeMeaning(h: seq<Call>, n: nat, f: Field, i: nat)
    requires i < n <= |h| && Writes(h, i, f)
    requires forall j: nat :: i < j < n ==> !Writes(h, j, f)
    ensures Shows(Replay(h, n).resume, f, h[i])
  {
    ResumeStep(h, n - 1, f);
    if i < n - 1 {
      ResumeMeaning(h, n - 1, f, i);
    }
  }

  /** A field nobody wrote keeps its zero value. */
  lemma {:induction false} ResumeUnwritten(h: seq<Call>, n: nat, f: Field)
    requires n <= |h|
    requires forall j: nat :: j < n ==> !Writes(h, j, f)
    ensures Agree(Replay(h, n).resume, NO_SESSION, f)
  {
    if n > 0 {
      ResumeUnwritten(h, n - 1, f);
      ResumeStep(h, n - 1, f);
    }
  }
}
