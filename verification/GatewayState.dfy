/** The connection state the gateway keeps behind `stateMu` (internal/qqbot/gateway.go).

    `Next` is the effect of one call made under the lock. `Replay` folds it over a history of
    calls. The class `Gateway` performs the same calls by updating its fields in place. What the
    fields mean in terms of the history alone is proved in `GatewayHistory`. */
module GatewayState {
  import opened Options

  /** A `*dto.Session` compared by address: every connection attempt has its own. */
  type Identity = nat

  datatype Error = Error(code: nat)

  datatype Shards = Shards(id: nat, count: nat)

  datatype Resumable = Resumable(id: string, lastSeq: nat, shards: Shards)

  datatype Payload = Payload(session: Option<Identity>, sequence: nat)

  datatype ReadyData = ReadyData(sessionId: string, shard: seq<nat>)

  /** The calls that reach the state. `at` is the clock reading taken inside the call. */
  datatype Call =
    | Started(identity: Identity, resume: Resumable)
    | Failed(identity: Identity, err: Error, cannotResume: bool, cannotIdentify: bool, at: nat)
    | Ready(payload: Option<Payload>, data: Option<ReadyData>)
    | Observed(payload: Option<Payload>)
  {
    predicate IsEvent() {
      Ready? || Observed?
    }
  }

  datatype ConnectionState = ConnectionState(
    currentSession: Option<Identity>,
    currentSessionOpen: bool,
    resume: Resumable,
    recovering: bool,
    recoveryGeneration: nat,
    disconnectedAt: nat,
    lastError: Option<Error>,
    fatalError: Option<Error>)

  const NO_SESSION := Resumable("", 0, Shards(0, 0))

  const INITIAL := ConnectionState(None, false, NO_SESSION, false, 0, 0, None, None)

  predicate Accepts(g: ConnectionState, payload: Option<Payload>) {
    && payload.Some?
    && payload.value.session.Some?
    && payload.value.session == g.currentSession
    && g.currentSessionOpen
    && g.fatalError.None?
  }

  /** The session is the open current one, and no failure was final. */
  predicate IsLive(g: ConnectionState, session: Option<Identity>) {
    session.Some? && g.currentSession == session && g.currentSessionOpen && g.fatalError.None?
  }

  /** `sessionFailed` ignores every session but the open current one. */
  predicate Stale(g: ConnectionState, identity: Identity) {
    g.currentSession != Some(identity) || !g.currentSessionOpen
  }

  function WithSequence(r: Resumable, payload: Payload): Resumable {
    if payload.sequence > 0 then r.(lastSeq := payload.sequence) else r
  }

  function WithReady(r: Resumable, data: Option<ReadyData>): Resumable {
    match data
    case None => r
    case Some(d) =>
      if |d.shard| >= 2
      then r.(id := d.sessionId, shards := Shards(d.shard[0], d.shard[1]))
      else r.(id := d.sessionId)
  }

  function WithoutSession(r: Resumable): Resumable {
    r.(id := "", lastSeq := 0)
  }

  function Next(g: ConnectionState, call: Call): ConnectionState {
    match call
    case Started(identity, resume) =>
      if g.fatalError.Some? then g
      else g.(currentSession := Some(identity), currentSessionOpen := true, resume := resume)
    case Failed(identity, err, cannotResume, cannotIdentify, at) =>
      if Stale(g, identity) then g
      else g.(currentSessionOpen := false,
              resume := if cannotResume then WithoutSession(g.resume) else g.resume,
              recovering := true,
              recoveryGeneration := if g.recovering then g.recoveryGeneration else g.recoveryGeneration + 1,
              disconnectedAt := if g.recovering then g.disconnectedAt else at,
              lastError := Some(err),
              fatalError := if cannotIdentify && g.fatalError.None? then Some(err) else g.fatalError)
    case Ready(payload, data) =>
      if !Accepts(g, payload) then g
      else g.(resume := WithReady(WithSequence(g.resume, payload.value), data),
              recovering := false, lastError := None)
    case Observed(payload) =>
      if !Accepts(g, payload) then g
      else g.(resume := WithSequence(g.resume, payload.value),
              recovering := false, lastError := None)
  }

  /** Does the call go on to `notifyStateChanged` after it released the lock? */
  predicate Wakes(g: ConnectionState, call: Call) {
    match call
    case Started(_, _) => false
    case Failed(identity, _, _, _, _) => !Stale(g, identity)
    case Ready(payload, _) => Accepts(g, payload)
    case Observed(payload) => Accepts(g, payload) && g.recovering
  }

  function Replay(h: seq<Call>, n: nat): ConnectionState
    requires n <= |h|
  {
    if n == 0 then INITIAL else Next(Replay(h, n - 1), h[n - 1])
  }

  lemma {:induction false} ReplayOfPrefix(h: seq<Call>, k: seq<Call>, n: nat)
    requires n <= |h| <= |k| && h == k[..|h|]
    ensures Replay(h, n) == Replay(k, n)
  {
    if n > 0 {
      ReplayOfPrefix(h, k, n - 1);
    }
  }

  lemma ReplayAppend(h: seq<Call>, call: Call)
    ensures Replay(h + [call], |h| + 1) == Next(Replay(h, |h|), call)
  {
    ReplayOfPrefix(h, h + [call], |h|);
  }

  /** The properties of the state that hold after any calls by any callers. */
  ghost predicate Coherent(g: ConnectionState) {
    && (g.recovering <==> g.lastError.Some?)
    && (g.recovering ==> g.recoveryGeneration > 0)
    && (g.currentSession.Some? && !g.currentSessionOpen ==> g.recovering)
    && (g.currentSessionOpen ==> g.currentSession.Some?)
    && (g.fatalError.Some? ==> g.recovering && !g.currentSessionOpen)
  }

  lemma NextIsCoherent(g: ConnectionState, call: Call)
    requires Coherent(g)
    ensures Coherent(Next(g, call))
  {
  }

  lemma {:induction false} ReplayIsCoherent(h: seq<Call>, n: nat)
    requires n <= |h|
    ensures Coherent(Replay(h, n))
  {
    if n > 0 {
      ReplayIsCoherent(h, n - 1);
    }
  }

  /** A fatal error freezes the whole state, whatever is called afterwards. */
  lemma {:induction false} FatalIsAbsorbing(h: seq<Call>, m: nat, n: nat)
    requires m <= n <= |h|
    requires Replay(h, m).fatalError.Some?
    ensures Replay(h, n) == Replay(h, m)
  {
    if m < n {
      FatalIsAbsorbing(h, m, n - 1);
      ReplayIsCoherent(h, n - 1);
    }
  }

  /** The gateway object: `state` is guarded by `stateMu`; `token` is the one slot of the
      `stateChanged` channel; `readyCloses` counts executions of `close(g.ready)`. */
  class Gateway {
    var state: ConnectionState
    var token: bool
    var readyCloses: nat
    ghost var history: seq<Call>

    ghost predicate Valid()
      reads this
    {
      && state == Replay(history, |history|)
      && readyCloses <= 1
      && (readyCloses == 1 <==>
          exists i :: 0 <= i < |history| && history[i].Ready? && Accepts(Replay(history, i), history[i].payload))
    }

    constructor ()
      ensures Valid() && !token && readyCloses == 0 && history == []
      ensures state == ConnectionState(None, false, Resumable("", 0, Shards(0, 0)), false, 0, 0, None, None)
    {
      state, token, readyCloses, history := INITIAL, false, 0, [];
    }

    /** The send never blocks: a full slot drops it. */
    method NotifyStateChanged()
      modifies this`token
      ensures token
    {
      if !token {
        token := true;
      }
    }

    /** What `Valid` needs after `call` was added to the history. */
    lemma HistoryGrew(before: seq<Call>, call: Call)
      requires history == before + [call]
      requires state == Next(Replay(before, |before|), call)
      requires readyCloses <= 1
      requires readyCloses == 1 <==>
          || (exists i :: 0 <= i < |before| && before[i].Ready? && Accepts(Replay(before, i), before[i].payload))
          || (call.Ready? && Accepts(Replay(before, |before|), call.payload))
      ensures Valid()
    {
      ReplayAppend(before, call);
      forall i | 0 <= i <= |before|
        ensures Replay(before, i) == Replay(history, i)
      {
        ReplayOfPrefix(before, history, i);
      }
      forall i | 0 <= i < |before|
        ensures history[i] == before[i]
      {
      }
      assert history[|before|] == call;
    }

    method SessionStarted(identity: Identity, resume: Resumable)
      requires Valid()
      modifies this
      ensures Valid() && history == old(history) + [Started(identity, resume)]
      ensures state == Next(old(state), Started(identity, resume))
      ensures token == old(token) && readyCloses == old(readyCloses)
    {
      if state.fatalError.None? {
        state := state.(currentSession := Some(identity));
        state := state.(currentSessionOpen := true);
        state := state.(resume := resume);
      }
      history := history + [Started(identity, resume)];
      HistoryGrew(old(history), Started(identity, resume));
    }

    method SessionFailed(identity: Identity, err: Error, cannotResume: bool, cannotIdentify: bool, now: nat)
      returns (resume: Resumable)
      requires Valid()
      modifies this
      ensures Valid() && history == old(history) + [Failed(identity, err, cannotResume, cannotIdentify, now)]
      ensures state == Next(old(state), Failed(identity, err, cannotResume, cannotIdentify, now))
      ensures token == (old(token) || (old(state).currentSession == Some(identity) && old(state).currentSessionOpen))
      ensures resume == state.resume && readyCloses == old(readyCloses)
    {
      history := history + [Failed(identity, err, cannotResume, cannotIdentify, now)];
      if state.currentSession != Some(identity) || !state.currentSessionOpen {
        resume := state.resume;
        HistoryGrew(old(history), Failed(identity, err, cannotResume, cannotIdentify, now));
        return;
      }
      state := state.(currentSessionOpen := false);
      if cannotResume {
        state := state.(resume := state.resume.(id := ""));
        state := state.(resume := state.resume.(lastSeq := 0));
      }
      if !state.recovering {
        state := state.(recovering := true);
        state := state.(recoveryGeneration := state.recoveryGeneration + 1);
        state := state.(disconnectedAt := now);
      }
      state := state.(lastError := Some(err));
      if cannotIdentify && state.fatalError.None? {
        state := state.(fatalError := Some(err));
      }
      resume := state.resume;
      NotifyStateChanged();
      HistoryGrew(old(history), Failed(identity, err, cannotResume, cannotIdentify, now));
    }

    /** Only a positive sequence number is recorded, and nothing else changes. */
    method RecordSequenceLocked(payload: Payload)
      modifies this`state
      ensures state == old(state).(resume := WithSequence(old(state).resume, payload))
    {
      if payload.sequence > 0 {
        state := state.(resume := state.resume.(lastSeq := payload.sequence));
      }
    }

    /** `markReady` together with the READY handler that closes `ready` once. */
    method OnReady(payload: Option<Payload>, data: Option<ReadyData>) returns (accepted: bool, recovered: bool)
      requires Valid()
      modifies this
      ensures Valid() && history == old(history) + [Ready(payload, data)]
      ensures state == Next(old(state), Ready(payload, data))
      ensures token == (old(token) || accepted)
      ensures accepted == (payload.Some? && IsLive(old(state), payload.value.session))
      ensures recovered == (accepted && old(state).recovering)
      ensures readyCloses == if accepted then 1 else old(readyCloses)
    {
      history := history + [Ready(payload, data)];
      if !Accepts(state, payload) {
        HistoryGrew(old(history), Ready(payload, data));
        return false, false;
      }
      RecordSequenceLocked(payload.value);
      if data.Some? {
        state := state.(resume := state.resume.(id := data.value.sessionId));
        if |data.value.shard| >= 2 {
          state := state.(resume := state.resume.(shards := Shards(data.value.shard[0], data.value.shard[1])));
        }
      }
      recovered := state.recovering;
      state := state.(recovering := false);
      state := state.(lastError := None);
      NotifyStateChanged();
      accepted := true;
      if readyCloses == 0 {
        readyCloses := 1;
      }
      HistoryGrew(old(history), Ready(payload, data));
    }

    method ObserveEvent(payload: Option<Payload>) returns (accepted: bool)
      requires Valid()
      modifies this
      ensures Valid() && history == old(history) + [Observed(payload)]
      ensures state == Next(old(state), Observed(payload))
      ensures token == (old(token) || (accepted && old(state).recovering))
      ensures accepted == (payload.Some? && IsLive(old(state), payload.value.session))
      ensures readyCloses == old(readyCloses)
    {
      history := history + [Observed(payload)];
      if !Accepts(state, payload) {
        HistoryGrew(old(history), Observed(payload));
        return false;
      }
      RecordSequenceLocked(payload.value);
      var recovered := state.recovering;
      state := state.(recovering := false);
      state := state.(lastError := None);
      if recovered {
        NotifyStateChanged();
      }
      accepted := true;
      HistoryGrew(old(history), Observed(payload));
    }
  }
}
