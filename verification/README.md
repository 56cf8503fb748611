# Gatus-QQBot: a verified model

Gatus-QQBot receives Gatus alerts over HTTP and forwards them to QQ targets, while a gateway
connection keeps the bot online. This project models its concurrent and textual core in Dafny and
proves what the service relies on. `dafny verify dfyconfig.toml` checks everything.

- `GatewayState`, `GatewayHistory`: the connection state behind the gateway's mutex, as the class
  whose methods update it and as a fold over the history of calls; and what every field means in
  terms of that history alone (which session is live, when an outage began, who wrote which part of
  the resumable session).
- `GatewayProtocol`, `GatewayInvariant`, `GatewayTheorems`: the session manager, any number of event
  callbacks, and the supervisor `Run`, interleaved in atomic steps. Updating under the lock and
  notifying are separate steps; so are receiving, checking the context, taking a snapshot, acting on
  it, computing a timer's duration and arming it. Time is a natural number of nanoseconds. One
  inductive invariant yields the theorems, for all runs.
- `GatewayOrigins`: every failure on record and every error returned, traced to the attempt, client or
  check that reported it.
- `GatewaySchedule`, `GatewayRun`, `GatewaySession`: `Run` and `Start` as the imperative programs they are. A schedule
  says which case each select picks and when the others move between two statements; every schedule
  is proved to be a run of the protocol.
- `DeliveryQueue`, `DeliveryTheorems`, `Sender`: `Send` under any number of concurrent callers, with
  cancellation at every point where the program looks at its context, and `Send` as an imperative
  program between whose statements the other calls move, again on any schedule.
- `Services`: `runServeServices` composed with the gateway protocol.
- `GoStrings`, `Alert`, `AlertTruncation`: the string functions alert texts go through, formatting,
  reading the log fields back, and exactly when truncation leaves them readable.
- `Targets`, `Handler`: the target loop of the configuration and the alert endpoint, for what they
  give together with `Send`.

Assumptions. Every connection attempt has a session identity of its own (its number). The error
given to `sessionFailed` is never nil; `Start` forces that (internal/qqbot/gateway_session.go:105-107).
Whether an error allows resuming or identifying again is chosen freely at each failure. Outcomes of
the WebSocket client, the QQ API, the MIME and JSON libraries and the clock are inputs. A select takes
any ready case.

Where `observeEvent` says an accepted event proves the *current* session is live, the model proves the
stronger fact that it comes from a session opened after the outage began.

## Model

| member | source | states |
|---|---|---|
| GatewayState.Gateway.constructor | internal/qqbot/gateway.go:66-88 | a new gateway has no session, no token and has not closed `ready` |
| GatewayState.Gateway.NotifyStateChanged | internal/qqbot/gateway.go:376-381 | the one-slot channel holds a token afterwards; a full slot drops the send |
| GatewayState.Gateway.SessionStarted | internal/qqbot/gateway.go:264-272 | moves the state as the call history says and notifies nobody; nothing after a fatal error |
| GatewayState.Gateway.SessionFailed | internal/qqbot/gateway.go:274-309 | moves the state as the call history says, notifies exactly when the session was the open current one, returns the gateway's resumable session |
| GatewayState.Gateway.OnReady | internal/qqbot/gateway.go:205-225 | a READY is accepted only from the open current session; `ready` is closed exactly once however many READYs are accepted |
| GatewayState.Gateway.ObserveEvent | internal/qqbot/gateway.go:332-354 | an event is accepted only from the open current session, ends a recovery, and notifies only then |
| GatewayState.ReplayIsCoherent | internal/qqbot/gateway.go:264-330 | after any calls: recovering iff an error is held, a closed current session is recovering, a fatal error means closed and recovering |
| GatewayState.FatalIsAbsorbing | internal/qqbot/gateway.go:264-362 | once a fatal error is recorded no later call changes any field |
| GatewayHistory.SessionMeaning | internal/qqbot/gateway.go:264-300 | the open session is the last one started before any fatal failure, not failed since; a fatal error is held iff such a failure happened |
| GatewayHistory.AcceptanceMeaning | internal/qqbot/gateway.go:356-362 | an event is accepted, and a failure taken, iff its session is live by the history |
| GatewayHistory.FatalMeaning | internal/qqbot/gateway.go:297-299 | the fatal error is the error of the fatal failure |
| GatewayHistory.OutageMeaning | internal/qqbot/gateway.go:291-296 | `recovering` iff some failure was followed by no accepted event |
| GatewayHistory.GenerationMeaning | internal/qqbot/gateway.go:291-295 | the generation is the number of distinct outages so far |
| GatewayHistory.OutageClock | internal/qqbot/gateway.go:291-295 | `disconnectedAt` is the time of the first failure of the latest outage, however many retries fail inside it |
| GatewayHistory.LastErrorMeaning | internal/qqbot/gateway.go:296 | `lastError` is the error of the latest failure of the outage |
| GatewayHistory.OutageEndsByNewerSession | internal/qqbot/gateway.go:332-337 | an event accepted after a failure belongs to a session opened after that failure |
| GatewayHistory.ResumeMeaning | internal/qqbot/gateway.go:287-368 | each field of the resumable session shows what its last writer wrote; for the last sequence number only events with a positive one are writers |
| GatewayHistory.ResumeUnwritten | internal/qqbot/gateway.go:45-54 | a field of the resumable session nobody wrote keeps its zero value |
| GatewayInvariant.Reachable | internal/qqbot/gateway.go:94-184 | the inductive invariant of the composed system holds in every state of every run |
| GatewayTheorems.NoLostWakeup | internal/qqbot/gateway.go:121-183 | idle with nothing on its way, `Run` holds no unseen fatal error, and an outage has a timer of its generation that runs out when the configured timeout does, 30 s after the outage began when none is configured, or after one nanosecond if that is past |
| GatewayTheorems.FatalIsReported | internal/qqbot/gateway.go:142-146 | after a fatal error the state is frozen and only boundedly many supervisor and notification steps precede the return |
| GatewayTheorems.FatalIsCarried | internal/qqbot/gateway.go:376-381 | until `Run` returns, a step that carries the fatal error on is enabled |
| GatewayTheorems.NoAttemptAfterFatal | internal/qqbot/gateway_session.go:109-112 | after a fatal error `Start` creates no further session and the error stays |
| GatewayTheorems.FatalExit | internal/qqbot/gateway.go:126-146 | an exit decided on a snapshot taken after a fatal error reports exactly that error |
| GatewayTheorems.NoFalseTimeout | internal/qqbot/gateway.go:159-181 | "did not recover" only after one unbroken outage of at least the configured timeout, or 30 s when none is configured, with the error of its latest failure |
| GatewayTheorems.QuietMeansWatched | internal/qqbot/gateway.go:142-158 | a quiet supervisor at its select has the timer of the outage that goes on |
| GatewayTheorems.OutageIsWatched | internal/qqbot/gateway.go:142-181 | while an outage goes on its timer is never disarmed, armed anew or ignored in any interleaving: it keeps its deadline and its tick until the supervisor takes the tick or returns, and a rung timer can be taken at every select |
| GatewayTheorems.TickIsReported | internal/qqbot/gateway.go:159-181 | once the tick is taken, the next three supervisor steps return the timeout of that outage, whatever the others do in between |
| GatewayTheorems.OutageIsReported | internal/qqbot/gateway.go:142-181 | in any interleaving, from a watched outage that goes on, a taken tick and three more supervisor steps return the timeout of that outage |
| GatewayTheorems.ExitClassification | internal/qqbot/gateway.go:94-136 | `Run` returns nil only when cancelled, otherwise a setup error, a client-creation or argument error, the fatal error or a genuine timeout; never "stopped unexpectedly" |
| GatewayTheorems.HandOverAgrees | internal/qqbot/gateway_session.go:76-112 | the manager's local copy is the gateway's at every hand-over, and the stale branch of `sessionFailed` is never taken |
| GatewayTheorems.FirstSession | internal/qqbot/gateway_session.go:74 | the first session has no ID, no sequence number and shard 0 of 1 |
| GatewayTheorems.ResumeRefinement | internal/qqbot/gateway_session.go:87-99 | every session after the first is created from the last accepted READY, the last positive sequence and the last cannot-resume failure |
| GatewayTheorems.LateEventsAreIgnored | internal/qqbot/gateway.go:356-362 | an event of a failed session is never accepted and changes nothing, however late |
| GatewayTheorems.Pacing | internal/qqbot/gateway_session.go:76-86 | n + 1 attempts span at least n retry intervals |
| GatewayTheorems.WaitIsBounded | internal/qqbot/gateway_session.go:77-86 | a wait never lasts longer than one retry interval, and there is none before the first attempt |
| GatewayTheorems.ReadyIsGenuine | internal/qqbot/gateway.go:205-215 | `ready` is closed at most once, and is closed or about to be iff a READY of a live session was accepted |
| GatewayTheorems.CancelRankFalls | internal/qqbot/gateway.go:123-165 | after cancellation every supervisor step brings the return nearer |
| GatewayTheorems.NextRunAction | internal/qqbot/gateway.go:123-165 | after cancellation the supervisor can always step until it returned |
| GatewayTheorems.CancelledRunIsClean | internal/qqbot/gateway.go:123-165 | once cancelled at its select, `Run` returns nil and nothing else |
| GatewayTheorems.ReturnCleansUp | internal/qqbot/gateway.go:109-119 | whichever way `Run` returns, the manager's context has ended and no timer is left |
| GatewayTheorems.ManagerRankFalls | internal/qqbot/gateway_session.go:76-113 | after cancellation every step of the manager brings its result nearer, so it makes at most one more attempt and reports no failure of it |
| GatewayTheorems.NextManagerAction | internal/qqbot/gateway_session.go:76-113 | after cancellation the manager can always step until it delivered its result |
| GatewayOrigins.FailureHasOwnError | internal/qqbot/gateway_session.go:101-109 | the error of every failure on record is that of the attempt that failed, or the stopped listener's if it ended without one |
| GatewayOrigins.OutcomeIsGenuine | internal/qqbot/gateway_session.go:101 | what is on record about an attempt is what it ended with |
| GatewayOrigins.FailureIsReported | internal/qqbot/gateway_session.go:204-212 | every failure on record carries the verdicts on resuming and identifying, the time and the session of the report that made it |
| GatewayOrigins.ResultHasOwnError | internal/qqbot/gateway_session.go:54-112 | the manager's result carries the refused argument's or the client's error, and a failure for good that of the last attempt |
| GatewayOrigins.ExitHasOwnError | internal/qqbot/gateway.go:94-136 | `Run` returns the setup error it met, or the manager's own result |
| GatewaySchedule.SupervisedIsReachable | internal/qqbot/gateway.go:94-184 | every schedule is a run of the protocol, and between two turns the supervisor is at its select or has returned |
| GatewaySchedule.IgnoresSupervisor | internal/qqbot/gateway.go:116-119 | what the others do depends neither on where the supervisor is in `Run` nor on `recoveryGeneration` |
| GatewaySchedule.OnlyRings | internal/qqbot/gateway.go:116-119 | all the others do to `recoveryTimer` is to let it expire |
| GatewayRun.Supervisor.StopTimer | internal/qqbot/gateway.go:391-399 | after a stop no timer and no tick is left, and nothing the others do brings one |
| GatewayRun.Supervisor.Arm | internal/qqbot/gateway.go:153-158 | the timer gets what is left of the configured timeout (30 s if none) since the snapshot's disconnection, or one nanosecond, and the snapshot's generation |
| GatewayRun.Supervisor.OnManagerExit | internal/qqbot/gateway.go:126-136 | after the manager's result `Run` returns on every path, as the protocol decides |
| GatewayRun.Supervisor.OnStateChange | internal/qqbot/gateway.go:137-158 | the case for a token refines the protocol, whoever moves in between, timer and generation included |
| GatewayRun.Supervisor.OnTimer | internal/qqbot/gateway.go:159-181 | the case for a tick refines the protocol, whoever moves in between, timer and generation included |
| GatewayRun.Supervisor.Select | internal/qqbot/gateway.go:121-182 | one select takes the picked case if it is ready and waits otherwise |
| GatewayRun.Supervisor.Run | internal/qqbot/gateway.go:94-184 | on any schedule: nil only when cancelled, and at once without launching the manager if cancelled before; never "stopped unexpectedly"; the setup error, the manager's result or the error of a fatal failure; and "did not recover" only in an outage that lasted at least the configured timeout, or 30 s |
| GatewaySession.AttemptMeaning | internal/qqbot/gateway_session.go:138-179 | Connect, then exactly one handshake by the stored ID, then the listener and Close, each at most once; Close exactly on handshake failure, panic or cancellation after Connect, followed at most by a late listener; a failed Connect, handshake or listener returns its own error |
| GatewaySession.RunWebSocketAttempt | internal/qqbot/gateway_session.go:138-179 | the client calls and the error of an attempt are those `AttemptMeaning` describes, the listener before or after Close included |
| GatewaySession.CloseSessionAttempt | internal/qqbot/gateway_session.go:204-212 | hands over the gateway's resumable session and reports fatal iff it cannot identify; the open session is closed and recovering, a stale one changes nothing |
| GatewaySession.ManagedIsReachable | internal/qqbot/gateway_session.go:47-114 | every schedule of the manager is a run of the protocol |
| GatewaySession.SessionManager.WaitForAttempt | internal/qqbot/gateway_session.go:214-225 | the wait ends by the timer or the context, and only when one of them is ready |
| GatewaySession.SessionManager.RunAttempt | internal/qqbot/gateway_session.go:101 | an attempt resumes exactly when the manager's copy has an ID, and its error goes on record |
| GatewaySession.SessionManager.Start | internal/qqbot/gateway_session.go:47-114 | on any schedule: each session is created from what the gateway held, a retry interval after the one before, and is resumed exactly when it has an ID; every failure has its attempt's own error; nil only when the context ended; the result is fatal iff the gateway recorded that error, and it is the last attempt's |
| DeliveryQueue.Reachable | internal/qqbot/sender.go:43-95 | the invariant of the delivery queue holds in every state of every run |
| DeliveryQueue.ContentsStay | internal/qqbot/sender.go:43 | a call delivers the content it was made with |
| DeliveryTheorems.SerialisedDelivery | internal/qqbot/sender.go:55-93 | the log is one contiguous block per call that took the gate, each with its own content, in target order, every post to its target's ID through the API for its type |
| DeliveryTheorems.GateIsExclusive | internal/qqbot/sender.go:55-60 | at most one call is past the gate, and it also holds admission |
| DeliveryTheorems.SendReturnsNil | internal/qqbot/sender.go:64-94 | nil only if one block of accepted posts to all targets stands in the log; with a target configured, also if |
| DeliveryTheorems.SendReportsEveryFailure | internal/qqbot/sender.go:64-94 | the errors name exactly the refused targets, a context error can only come last, and every target was tried unless there is one |
| DeliveryTheorems.UnknownTypesAreRefused | internal/qqbot/sender.go:70-79 | a target is refused without a call exactly when its type is not channel, group or user |
| DeliveryTheorems.UngatedOutcome | internal/qqbot/sender.go:44-60 | a call that never took the gate reports a full queue or its context's error, and nothing else |
| DeliveryTheorems.EndedContextStops | internal/qqbot/sender.go:64-90 | once its context ended a call starts no further delivery |
| DeliveryTheorems.EndedContextTakesNothing | internal/qqbot/sender.go:44-46 | a call whose context ended before the first look at it never takes a token |
| DeliveryTheorems.EndIsReportedLast | internal/qqbot/sender.go:80-88 | a call whose delivery failed once its context had ended reports that end last, the last target included |
| DeliveryTheorems.EndedContextPostsNothing | internal/qqbot/sender.go:44-63 | a call whose context ends before the look behind the gate returns just that error and posts nothing |
| DeliveryTheorems.AdmissionAccounting | internal/qqbot/sender.go:29-60 | the tokens are those of calls between acquire and release, at most maxPending + 1, or one if maxPending is negative; finished calls hold none |
| DeliveryTheorems.QueueFullWasFull | internal/qqbot/sender.go:29-54 | every call that reports a full queue was turned away at a step where exactly maxPending + 1 calls (one if it is negative) held admission and its context had not ended |
| DeliveryTheorems.AdmittedWhenNotFull | internal/qqbot/sender.go:29-54 | with fewer calls holding admission a call can be admitted and not be turned away |
| DeliveryTheorems.QueueFullPostsNothing | internal/qqbot/sender.go:47-54 | a call that reports a full queue reports nothing else and posted nothing |
| DeliveryTheorems.NeverStuck | internal/qqbot/sender.go:43-95 | if API calls return, a started call can always be moved on without cancellation |
| DeliveryTheorems.AllCallsFinish | internal/qqbot/sender.go:43-95 | every step lowers a measure of the whole system, so runs over finitely many calls are bounded |
| Sender.SentIsReachable | internal/qqbot/sender.go:43-95 | every schedule of a call is a run of the queue |
| Sender.Sender.constructor | internal/qqbot/sender.go:29-40 | a new sender has empty channels and log |
| Sender.Sender.Admit | internal/qqbot/sender.go:44-54 | a full queue is reported exactly when the call finds maxPending + 1 tokens (one if it is negative) and its context goes on |
| Sender.Sender.AwaitGate | internal/qqbot/sender.go:55-60 | waits while the gate is taken and the context goes on; then takes the gate or leaves with the context's error |
| Sender.Sender.DeliverAll | internal/qqbot/sender.go:56-94 | the look behind the gate, the loop and the deferred release follow the queue step by step |
| Sender.Sender.DeliverOne | internal/qqbot/sender.go:65-93 | one target at a time; a break ends the loop |
| Sender.Sender.Dispatch | internal/qqbot/sender.go:70-81 | one post for a known target type, an error without a post for an unknown one |
| Sender.Sender.Send | internal/qqbot/sender.go:42-95 | on any schedule of the other calls: nil only after a full block of its own content, a full queue exactly when it found maxPending + 1 tokens and then with nothing posted, and every token given back when it returns |
| Services.ServicesAreJoined | internal/cli/services.go:36-79 | on every return path each started service has delivered its result |
| Services.SendersNeverBlock | internal/cli/services.go:29-32 | two result slots suffice: a service that wants to send always can |
| Services.HttpStartsAfterReady | internal/cli/services.go:36-63 | HTTP starts only after the gateway accepted a READY of its live session; `ready` is closed at most once |
| Services.ShutdownVerdict | internal/cli/services.go:44-94 | nil only after the parent was cancelled; otherwise the error carries the readiness timeout or the failure of the first service to stop; the timeout only if it ran out before HTTP started |
| Services.VerdictIsComplete | internal/cli/services.go:44-94 | on every return path each service's error but a cancellation is in the result, and every error in it is a service's |
| Services.ShutdownIsForgiven | internal/cli/services.go:46-77 | once the parent stopped before a result is judged, nil comes back exactly when every service ended with nil or a cancellation |
| Services.FirstFailureIsBlamed | internal/cli/services.go:72-79 | a service that stopped while the parent went on is blamed, whatever happens to the parent meanwhile |
| Services.GatewayIsNeverBlamed | internal/cli/services.go:44-87 | "stopped unexpectedly" is never said of the real gateway, on any return path |
| Services.ShutdownProgress | internal/cli/services.go:49-79 | main and service steps lower a measure once cancelled and no other step raises it |
| Services.ShutdownIsNeverStuck | internal/cli/services.go:49-79 | after cancellation no select waits for ever if services stop on cancellation |
| GoStrings.TwoPassesAreOne | internal/gatus/alert.go:111-112 | the two replacements are one left-to-right line-ending normaliser |
| GoStrings.SplitMeaning | internal/gatus/alert.go:77 | splitting takes a text apart at every separator, and joining puts it together again |
| Alert.Validate | internal/gatus/alert.go:22-36 | names a blank state, a blank endpoint name and a malformed encoding, each exactly when it is so and once, and nothing exactly for valid alerts |
| Alert.Format | internal/gatus/alert.go:45-60 | builds the message of `Lines` |
| Alert.LinesShowFields | internal/gatus/alert.go:38-58 | state first, then the endpoint behind its group, then exactly the further fields that are not blank |
| Alert.FormatWithPrefix | internal/gatus/alert.go:45-126 | a prefix that is not blank comes first, on its own line, and survives every limit it fits in; a blank one changes nothing |
| Alert.TextMetadata | internal/gatus/alert.go:76-96 | state of the first line, endpoint of the first line that names one |
| Alert.ReadsLiterally | internal/gatus/alert.go:76-96 | TRIGGERED and RESOLVED in any case, bare or in brackets, above an endpoint line give that state and endpoint |
| Alert.ReadStateMeaning | internal/gatus/alert.go:81-87 | a first line gives a state exactly when it is one of the two in any case, with or without brackets |
| Alert.EndpointMeaning | internal/gatus/alert.go:88-93 | a line names an endpoint exactly when "Endpoint" in any case stands before its first colon |
| Alert.FirstEndpointMeaning | internal/gatus/alert.go:88-95 | the first line that names an endpoint decides |
| Alert.MetadataOfNormalised | internal/gatus/alert.go:77 | line endings and blank ends of a body do not matter |
| Alert.OneLineIsOnePass | internal/gatus/alert.go:106-108 | `oneLine` keeps every word in order with one space between two |
| Alert.OneLineIsIdempotent | internal/gatus/alert.go:106-108 | `oneLine` is idempotent |
| Alert.MultiLineIsOnePass | internal/gatus/alert.go:110-114 | `multiLine` is the one-pass normaliser and trimming |
| Alert.MultiLineIsIdempotent | internal/gatus/alert.go:110-114 | `multiLine` is idempotent |
| Alert.FormatTextIsStable | internal/gatus/alert.go:62-72 | at most maxLength runes, limits of three and less included; preparing again with a blank prefix changes nothing |
| Alert.FormatTextWithPrefix | internal/gatus/alert.go:62-72 | the message is the normalised body under its prefix, cut to the limit with dots |
| Alert.FormatTextRefuses | internal/gatus/alert.go:63-70 | refuses exactly malformed and blank bodies |
| Alert.RoundTrip | internal/gatus/alert.go:45-96 | reading a formatted alert back gives the one-line endpoint and the canonical state, truncated or not, as long as the first two lines survive |
| AlertTruncation.WordsCut | internal/gatus/alert.go:106-126 | a one-line text cut anywhere and ended with dots is one line again |
| AlertTruncation.ReadCutLine | internal/gatus/alert.go:88-93 | the endpoint a cut endpoint line names: none before the colon, otherwise what is left and the dots |
| AlertTruncation.ReadsBackExactly | internal/gatus/alert.go:45-126 | for any limit, endpoint and state read back if and only if both lines are kept, or the dots of the cut replace dots of the endpoint |
| AlertTruncation.UnreadStateStaysUnread | internal/gatus/alert.go:45-126 | a state that does not read as one reads back as no metadata under every limit |
| Targets.KeyIsInjective | internal/config/config.go:141 | the NUL-joined key tells accepted targets apart by type and ID |
| Targets.ValidateTarget | internal/config/config.go:214-230 | names an unknown type, a blank ID, a padded ID and a padded name, each exactly when it is so, and nothing exactly for valid targets |
| Targets.ValidateTargets | internal/config/config.go:132-146 | every error is justified and names its target and what is wrong, every invalid or repeated target has one, in order |
| Targets.SilentMeansAccepted | internal/config/config.go:132-146 | silent iff there is a target, all are valid and all destinations differ |
| Targets.NoDoubleDelivery | internal/qqbot/sender.go:65-78 | with accepted targets no two posts of one `Send` use the same API with the same ID |
| Handler.RefusalMeaning | internal/server/handler.go:62-112 | which requests are answered 405, 401, 415, 413, 400 or 422, and which message the others deliver |
| Handler.ReadAlert | internal/server/handler.go:62-112 | a refused request is answered with a 4xx status and yields no message |
| Handler.StatusMeaning | internal/server/handler.go:116-136 | 202 for no error, 503 for a full queue, 504 for a deadline without one, 502 for anything else |
| Handler.WriteOutcome | internal/server/handler.go:116-136 | status by the errors of `Send`; 503 carries Retry-After |
| Handler.HandleAlert | internal/server/handler.go:62-137 | while other requests go on: a refused request is answered 4xx and does not touch the sender; 202 means a full block of the formatted message was accepted |
| Handler.RefusedPostsNothing | internal/server/handler.go:62-112 | a refused request's call is never begun and nothing of it is posted |
| Handler.AcknowledgementIsTrue | internal/server/handler.go:62-136 | among any concurrent requests: 202 iff all targets accepted the formatted message of this request, 4xx iff it was refused, and 503 only for a full queue with nothing posted |

## Left out

- The 64-bit generation counter and the 32-bit sequence number are natural numbers: wrap-around is not modelled.
- BotGo's WebSocket protocol, the token source, gateway discovery, the parsing of group IDs and all logging.
- The QR binding of `auth`, the HTTP server's own lifecycle, TOML loading, durations, paths and addresses in the configuration.
- The bounded waits of `stopSessionManager` and of the listener shutdown: the model returns from them at any time.
- The texts of errors and `targetLabel`: an error names its target by its place in the list.
- Strings are runes: invalid UTF-8 appears only as a flag or a malformed body. Case mapping is any map on runes.
- The goroutines of `runServeServices` are a state machine only.
- GatewayRun.Supervisor.Run: a case that is not ready when it is picked leaves the select waiting until the next turn; that `Run` does return is in `GatewayTheorems`.
- GatewaySession.SessionManager.Start: gives up with no result when its bounds on attempts and waits are used up; whether an attempt found its context ended is part of its script and may be said without the context having ended.
- Sender.Sender.Send: gives up with no result when it found the gate taken as often as its bound allows; that it finishes is in `DeliveryTheorems`.
- AlertTruncation.UnreadStateStaysUnread: assumes that upper case leaves a dot alone, as Unicode does.
