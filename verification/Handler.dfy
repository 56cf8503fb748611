/** The alert endpoint (internal/server/handler.go). What the HTTP, MIME and JSON libraries make of
    a request is its input; the delivery goes through a `Sender`. */
module Handler {
  import opened Options
  import A = Alert
  import G = GoStrings
  import opened DeliveryQueue
  import opened DeliveryTheorems
  import S = Sender

  datatype ContentType = Unparsable | Media(mediaType: string, charset: string)

  /** Reading the body: too large, unreadable, a decoded alert, or raw text. */
  datatype Content = TooLarge | Unreadable | Json(alert: A.Alert, validEncoding: bool) | Raw(body: A.Body)

  datatype Request = Request(verb: string, authorization: string, contentType: ContentType, content: Content)

  datatype Settings = Settings(authToken: string, prefix: string, maxRunes: int)

  const RETRY_AFTER := "5"

  predicate Authorized(h: Settings, r: Request) {
    h.authToken == "" || r.authorization == "Bearer " + h.authToken
  }

  predicate Acceptable(t: ContentType) {
    && t.Media?
    && (t.charset == "" || t.charset == "utf-8")
    && (t.mediaType == "application/json" || t.mediaType == "text/plain")
  }

  /** The content of a request is what its media type makes the handler read. */
  predicate WellTyped(r: Request) {
    Acceptable(r.contentType) ==>
      if r.contentType.mediaType == "application/json" then !r.content.Raw? else !r.content.Json?
  }

  /** The message a request asks to deliver, or the status it is refused with. */
  datatype Decision = Refuse(status: nat) | Forward(message: string)

  function Decide(h: Settings, r: Request): Decision {
    if r.verb != "POST" then Refuse(405)
    else if !Authorized(h, r) then Refuse(401)
    else if !Acceptable(r.contentType) then Refuse(415)
    else match r.content
      case TooLarge => Refuse(413)
      case Unreadable => Refuse(400)
      case Json(alert, validEncoding) =>
        if A.Problems(alert, validEncoding) != [] then Refuse(422)
        else Forward(A.Formatted(alert, h.prefix, h.maxRunes))
      case Raw(body) =>
        var text := A.FormatText(body, h.prefix, h.maxRunes);
        if text.None? then Refuse(422) else Forward(text.value)
  }

  /** `errors.Is(err, delivery.ErrQueueFull)` on a joined error. */
  predicate IsQueueFull(errs: seq<SendError>) {
    exists p :: 0 <= p < |errs| &&
      (errs[p].QueueFull? || (errs[p].Delivery? && errs[p].cause.Some? && errs[p].cause.value.isQueueFull))
  }

  /** `errors.Is(err, context.DeadlineExceeded)`. */
  predicate IsDeadline(errs: seq<SendError>) {
    exists p :: 0 <= p < |errs| &&
      (errs[p] == Context(DeadlineExceeded) || (errs[p].Delivery? && errs[p].cause.Some? && errs[p].cause.value.isDeadline))
  }

  function StatusOf(errs: seq<SendError>): nat {
    if errs == [] then 202
    else if IsQueueFull(errs) then 503
    else if IsDeadline(errs) then 504
    else 502
  }

  /** Which requests are refused, and how: the first reason in this order decides; and what the
      others ask to deliver. */
  lemma RefusalMeaning(h: Settings, r: Request)
    ensures var decision := Decide(h, r); var t := r.contentType;
      var authorized := h.authToken == "" || r.authorization == "Bearer " + h.authToken;
      var readable := r.verb == "POST" && authorized && t.Media?
        && t.charset in {"", "utf-8"} && t.mediaType in {"application/json", "text/plain"};
      && (decision == Refuse(405) <==> r.verb != "POST")
      && (decision == Refuse(401) <==> r.verb == "POST" && !authorized)
      && (decision == Refuse(415) <==> r.verb == "POST" && authorized && !readable)
      && (decision == Refuse(413) <==> readable && r.content.TooLarge?)
      && (decision == Refuse(400) <==> readable && r.content.Unreadable?)
      && (decision == Refuse(422) <==> readable && !IsDeliverable(r.content))
      && (decision.Forward? <==> readable && IsDeliverable(r.content) && (r.content.Json? || r.content.Raw?))
      && (decision.Forward? && r.content.Json? ==> decision.message == A.Formatted(r.content.alert, h.prefix, h.maxRunes))
      && (decision.Forward? && r.content.Raw? ==> A.FormatText(r.content.body, h.prefix, h.maxRunes) == Some(decision.message))
  {
    match r.content {
      case Json(alert, validEncoding) =>
        A.ProblemsMeaning(alert, validEncoding);
      case Raw(body) =>
        A.FormatTextRefuses(body, h.prefix, h.maxRunes);
      case _ =>
    }
  }

  /** No alert without a state or an endpoint name, no text that is blank or not UTF-8. */
  predicate IsDeliverable(content: Content) {
    match content
    case Json(alert, validEncoding) => !G.Blank(alert.state) && !G.Blank(alert.endpointName) && validEncoding
    case Raw(body) => body.Text? && !G.Blank(body.runes)
    case _ => true
  }

  predicate SaysFull(e: SendError) {
    e == QueueFull || (e.Delivery? && e.cause.Some? && e.cause.value.isQueueFull)
  }

  predicate SaysDeadline(e: SendError) {
    e == Context(DeadlineExceeded) || (e.Delivery? && e.cause.Some? && e.cause.value.isDeadline)
  }

  /** The answer to a delivery: a full queue outranks a deadline, and a deadline any other failure. */
  lemma StatusMeaning(errs: seq<SendError>)
    ensures var full := exists e :: e in errs && SaysFull(e); var deadline := exists e :: e in errs && SaysDeadline(e);
      && (StatusOf(errs) == 202 <==> errs == [])
      && (StatusOf(errs) == 503 <==> full)
      && (StatusOf(errs) == 504 <==> deadline && !full)
      && (StatusOf(errs) == 502 <==> errs != [] && !deadline && !full)
  {
    forall e | e in errs
      ensures SaysFull(e) ==> IsQueueFull(errs)
      ensures SaysDeadline(e) ==> IsDeadline(errs)
    {
      var p :| 0 <= p < |errs| && errs[p] == e;
    }
    if IsQueueFull(errs) {
      var p :| 0 <= p < |errs| &&
        (errs[p].QueueFull? || (errs[p].Delivery? && errs[p].cause.Some? && errs[p].cause.value.isQueueFull));
      assert SaysFull(errs[p]);
    }
    if IsDeadline(errs) {
      var p :| 0 <= p < |errs| && (errs[p] == Context(DeadlineExceeded)
        || (errs[p].Delivery? && errs[p].cause.Some? && errs[p].cause.value.isDeadline));
      assert SaysDeadline(errs[p]);
    }
  }

  class ResponseWriter {
    var headers: map<string, string>
    var status: nat

    constructor ()
      ensures headers == map[] && status == 0
    {
      headers, status := map[], 0;
    }

    method SetHeader(name: string, value: string)
      modifies this`headers
      ensures headers == old(headers)[name := value]
    {
      headers := headers[name := value];
    }

    method WriteJSON(status: nat)
      modifies this
      ensures this.status == status && headers == old(headers)["Content-Type" := "application/json"]
    {
      SetHeader("Content-Type", "application/json");
      this.status := status;
    }
  }

  /** The handler up to the delivery: the message, or a refusal written to the response. */
  method ReadAlert(h: Settings, r: Request, w: ResponseWriter) returns (message: Option<string>)
    requires WellTyped(r)
    modifies w
    ensures message == match Decide(h, r) { case Refuse(_) => None case Forward(m) => Some(m) }
    ensures message.None? ==> w.status == Decide(h, r).status && 400 <= w.status < 500
    ensures message.Some? ==> w.headers == old(w.headers) && w.status == old(w.status)
    ensures w.status == 405 && message.None? ==> "Allow" in w.headers && w.headers["Allow"] == "POST"
    ensures w.status == 401 && message.None? ==> "WWW-Authenticate" in w.headers
  {
    if r.verb != "POST" {
      w.SetHeader("Allow", "POST");
      w.WriteJSON(405);
      return None;
    }
    if !Authorized(h, r) {
      w.SetHeader("WWW-Authenticate", "Bearer");
      w.WriteJSON(401);
      return None;
    }
    if !Acceptable(r.contentType) {
      w.WriteJSON(415);
      return None;
    }
    match r.content {
      case TooLarge =>
        w.WriteJSON(413);
        message := None;
      case Unreadable =>
        w.WriteJSON(400);
        message := None;
      case Json(alert, validEncoding) =>
        var errs := A.Validate(alert, validEncoding);
        if errs != [] {
          w.WriteJSON(422);
          return None;
        }
        var formatted := A.Format(alert, h.prefix, h.maxRunes);
        message := Some(formatted);
      case Raw(body) =>
        message := A.FormatText(body, h.prefix, h.maxRunes);
        if message.None? {
          w.WriteJSON(422);
        }
    }
  }

  method WriteOutcome(errs: seq<SendError>, w: ResponseWriter)
    modifies w
    ensures w.status == StatusOf(errs)
    ensures w.status == 503 ==> "Retry-After" in w.headers && w.headers["Retry-After"] == "5"
  {
    if errs != [] {
      if IsQueueFull(errs) {
        w.SetHeader("Retry-After", RETRY_AFTER);
        w.WriteJSON(503);
        return;
      }
      if IsDeadline(errs) {
        w.WriteJSON(504);
        return;
      }
      w.WriteJSON(502);
      return;
    }
    w.WriteJSON(202);
  }

  /** `alert`: request `i` goes through the sender while other requests do, and its delivery may end
      at any time. A refused request is answered at once and does not touch the sender; 202 is
      answered only after a full block of the formatted message was accepted. A request is not
      answered when the schedule ends while it waits for the gate. */
  method HandleAlert(h: Settings, r: Request, w: ResponseWriter, sender: S.Sender, i: nat, schedule: S.Schedule, patience: nat)
    returns (answered: bool)
    requires WellTyped(r)
    requires sender.Valid() && i < |sender.calls| && sender.calls[i].pc.NotStarted?
    requires Decide(h, r).Forward? ==> sender.calls[i].content == Decide(h, r).message
    requires (w as object) != sender
    modifies w, sender
    ensures sender.Valid() && i < |sender.calls|
    ensures Decide(h, r).Refuse? ==> answered && sender.Now() == old(sender.Now())
    ensures Decide(h, r).Forward? ==> (answered <==> sender.calls[i].pc.Done?)
    ensures answered ==> w.status == Answer(h, r, sender.calls[i])
    ensures !answered ==> w.status == old(w.status) && w.headers == old(w.headers)
    ensures answered && w.status == 202 ==> Decide(h, r).Forward? && BlockInLog(sender.Now(), i, Decide(h, r).message)
  {
    var message := ReadAlert(h, r, w);
    if message.None? {
      return true;
    }
    var errs, n := sender.Send(i, message.value, schedule, patience);
    answered := errs.Some?;
    if answered {
      WriteOutcome(errs.value, w);
    }
  }

  // ---- concurrent requests ----

  /** The status a request is answered with, once its call of `Send` is done if it has one. */
  function Answer(h: Settings, r: Request, call: Call): nat {
    match Decide(h, r)
    case Refuse(status) => status
    case Forward(_) => StatusOf(call.errs)
  }

  /** The calls of a run are those of the requests: each is made with the message of its request,
      and none is begun for a request that is refused. */
  ghost predicate Serves(h: Settings, requests: seq<Request>, states: seq<Queue>, actions: seq<Action>)
    requires states != []
  {
    && |requests| == |states[0].calls|
    && (forall i :: 0 <= i < |requests| && Decide(h, requests[i]).Forward? ==>
          states[0].calls[i].content == Decide(h, requests[i]).message)
    && (forall m :: 0 <= m < |actions| && actions[m].Begin? && actions[m].i < |requests| ==>
          Decide(h, requests[actions[m].i]).Forward?)
  }

  lemma {:induction false} RefusedIsNeverBegun(h: Settings, requests: seq<Request>, states: seq<Queue>, actions: seq<Action>,
                                               k: nat, i: nat)
    requires IsRun(states, actions) && k < |states| && Serves(h, requests, states, actions)
    requires i < |requests| && Decide(h, requests[i]).Refuse?
    ensures i < |states[k].calls| && states[k].calls[i].pc.NotStarted?
  {
    if k > 0 {
      RefusedIsNeverBegun(h, requests, states, actions, k - 1, i);
      assert Moves(states, actions, k - 1);
      OnlyBeginStarts(states[k - 1], actions[k - 1], i);
    }
  }

  lemma OnlyBeginStarts(q: Queue, a: Action, i: nat)
    requires Enabled(q, a) && i < |q.calls| && q.calls[i].pc.NotStarted? && a != Begin(i)
    ensures i < |Step(q, a).calls| && Step(q, a).calls[i].pc.NotStarted?
  {
    assert Step(q, a).calls == q.calls[a.i := CallStep(q.targets, q.calls[a.i], a)];
  }

  ghost predicate PostedNothing(q: Queue, i: nat) {
    forall p :: 0 <= p < |q.log| ==> q.log[p].caller != i
  }

  lemma RefusedPostsNothing(h: Settings, requests: seq<Request>, states: seq<Queue>, actions: seq<Action>, k: nat, i: nat)
    requires IsRun(states, actions) && k < |states| && Serves(h, requests, states, actions)
    requires i < |requests| && Decide(h, requests[i]).Refuse?
    ensures PostedNothing(states[k], i)
  {
    RefusedIsNeverBegun(h, requests, states, actions, k, i);
    Reachable(states, actions, k);
    SerialisedDelivery(states, actions, k);
    assert CallInv(states[k].targets, states[k].calls[i]);
  }

  /** An API error is never `ErrQueueFull` itself. */
  ghost predicate HonestApi(call: Call) {
    forall k :: 0 <= k < |call.results| ==>
      call.results[k].Refused? && call.results[k].cause.Some? ==> !call.results[k].cause.value.isQueueFull
  }

  /** The answers to any number of concurrent requests. 202: every target accepted the formatted
      message of this request, in one piece of the log, and the other way round. 4xx: exactly the
      refused requests, and nothing of them was posted. 503: the queue was full and nothing was
      posted, if API errors are not `ErrQueueFull`; every full queue is answered 503. */
  lemma AcknowledgementIsTrue(h: Settings, requests: seq<Request>, states: seq<Queue>, actions: seq<Action>, k: nat, i: nat)
    requires IsRun(states, actions) && k < |states| && Serves(h, requests, states, actions)
    requires i < |requests| && i < |states[k].calls|
    requires Decide(h, requests[i]).Forward? ==> states[k].calls[i].pc.Done?
    ensures var q := states[k]; var call := q.calls[i];
      var decision := Decide(h, requests[i]); var answer := Answer(h, requests[i], call);
      && (answer == 202 ==> decision.Forward? && BlockInLog(q, i, decision.message))
      && (decision.Forward? && q.targets != [] && DeliveredToAll(q, i) ==> answer == 202)
      && (400 <= answer < 500 <==> decision.Refuse?)
      && (decision.Refuse? ==> call.pc.NotStarted? && PostedNothing(q, i))
      && (decision.Forward? && call.errs == [QueueFull] ==> answer == 503)
      && (answer == 503 && HonestApi(call) ==> call.errs == [QueueFull] && PostedNothing(q, i))
  {
    if Decide(h, requests[i]).Refuse? {
      RefusedIsNeverBegun(h, requests, states, actions, k, i);
      RefusedPostsNothing(h, requests, states, actions, k, i);
    } else {
      ContentsStay(states, actions, k);
      SentIsAnswered(states, actions, k, i);
    }
  }

  /** The status of a call of `Send` among any number of others. */
  lemma SentIsAnswered(states: seq<Queue>, actions: seq<Action>, k: nat, i: nat)
    requires IsRun(states, actions) && k < |states|
    requires i < |states[k].calls| && states[k].calls[i].pc.Done?
    ensures var q := states[k]; var call := q.calls[i];
      && (StatusOf(call.errs) == 202 ==> BlockInLog(q, i, call.content))
      && (q.targets != [] && DeliveredToAll(q, i) ==> StatusOf(call.errs) == 202)
      && (call.errs == [QueueFull] ==> StatusOf(call.errs) == 503)
      && (StatusOf(call.errs) == 503 && HonestApi(call) ==> call.errs == [QueueFull] && PostedNothing(q, i))
  {
    var start := SendReturnsNil(states, actions, k, i);
    Reachable(states, actions, k);
    var q := states[k];
    var call := q.calls[i];
    assert CallInv(q.targets, call);
    if StatusOf(call.errs) == 202 {
      assert BlockAt(q, i, call.content, start);
    }
    if call.errs == [QueueFull] {
      assert call.errs[0].QueueFull?;
    }
    if StatusOf(call.errs) == 503 && HonestApi(call) {
      var p :| 0 <= p < |call.errs| &&
        (call.errs[p].QueueFull? || (call.errs[p].Delivery? && call.errs[p].cause.Some? && call.errs[p].cause.value.isQueueFull));
      if call.gated {
        SendReportsEveryFailure(states, actions, k, i);
        assert false;
      }
      QueueFullPostsNothing(states, actions, k, i);
    }
  }
}
