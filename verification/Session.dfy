// One provisioner session: a reader goroutine feeds requests over an unbuffered channel to a loop that serves them one
// at a time, watching the same channel for a cancel while the server's call runs.

/** The session as a state machine: one event per stream or channel operation and per completed server call. */
module SessionProtocol {
  import opened Wrappers

  /** The request types; the stream may also carry a request of none of the served types. */
  datatype Kind = CancelRequest | ParseRequest | PlanRequest | ApplyRequest | OtherRequest

  /** Requests are numbered as they come off the stream. */
  datatype Request = Request(id: nat, kind: Kind)

  /** What the reader goroutine is doing. It closes the channel when it exits, and may have dropped a request then. */
  datatype Reader = Receiving | Offering(req: Request) | Exited(dropped: Option<Request>)

  /** A server call. `clean` is whether it completed with an empty error; `closes` counts the closings of its
      cancel channel. */
  datatype Progress = Running | Completed(clean: bool) | Delivered(clean: bool)
  datatype Call = Call(req: Request, progress: Progress, closes: nat)

  /** How a session fails, with the requests it leaves unanswered. */
  datatype Failure =
    | ApplyBeforePlan(req: Request)
    | NilRequest(req: Request)
    | NewRequest(req: Request, newer: Request)
    | SendFailed(req: Request)

  /** Where the request loop is. */
  datatype Main =
    | Ready                                    // at the top of the range loop
    | Selecting                                // in do: cancel or result
    | Draining(got: Option<Request>)           // cancel channel closed, waiting for the result
    | Responding(req: Request)                 // about to send the response
    | Ended(failure: Option<Failure>)

  datatype State = State(
    reader: Reader,
    main: Main,
    planned: bool,
    calls: seq<Call>,                // every server call of the session
    responses: seq<Request>,         // responses sent, by the request they answer
    // History, read by no step.
    received: seq<Request>,          // requests that came off the stream
    consumed: seq<Request>)          // requests the loop has taken from the channel

  datatype Event =
    | StreamRecv(kind: Kind)         // reader: the stream delivers
    | StreamErr                      // reader: the stream ends
    | ReaderStops                    // reader: sees done closed instead of a taker
    | TakeRequest                    // loop: takes the reader's request
    | RequestsClosed                 // loop: the channel is closed
    | ServerReturns(i: nat, clean: bool)
    | TakeResult                     // do: the result comes first
    | TakeCancel                     // do: a request comes first
    | CancelsClosed                  // do: the closed channel comes first
    | DrainResult                    // do: the result after that
    | SendResponse(ok: bool)

  function Init(): State {
    State(Receiving, Ready, false, [], [], [], [])
  }

  predicate LastCallCompleted(s: State) {
    s.calls != [] && s.calls[|s.calls| - 1].progress.Completed?
  }

  predicate Enabled(s: State, e: Event) {
    match e
    case StreamRecv(_) => s.reader == Receiving
    case StreamErr => s.reader == Receiving
    case ReaderStops => s.reader.Offering? && s.main.Ended?
    case TakeRequest => s.main == Ready && s.reader.Offering?
    case RequestsClosed => s.main == Ready && s.reader.Exited?
    case ServerReturns(i, _) => i < |s.calls| && s.calls[i].progress == Running
    case TakeResult => s.main == Selecting && LastCallCompleted(s)
    case TakeCancel => s.main == Selecting && s.calls != [] && s.reader.Offering?
    case CancelsClosed => s.main == Selecting && s.calls != [] && s.reader.Exited?
    case DrainResult => s.main.Draining? && LastCallCompleted(s)
    case SendResponse(_) => s.main.Responding?
  }

  function Apply(s: State, e: Event): State
    requires Enabled(s, e)
  {
    match e
    case StreamRecv(kind) =>
      var req := Request(|s.received|, kind);
      s.(reader := Offering(req), received := s.received + [req])
    case StreamErr => s.(reader := Exited(None))
    case ReaderStops => s.(reader := Exited(Some(s.reader.req)))
    case TakeRequest => Dispatch(Taken(s), s.reader.req)
    case RequestsClosed => s.(main := Ended(None))
    case ServerReturns(i, clean) => s.(calls := s.calls[i := s.calls[i].(progress := Completed(clean))])
    case TakeResult => Deliver(CloseCancel(s))
    case TakeCancel => CloseCancel(Taken(s)).(main := Draining(Some(s.reader.req)))
    case CancelsClosed => CloseCancel(s).(main := Draining(None))
    case DrainResult =>
      if s.main.got.Some? && s.main.got.value.kind == CancelRequest then Deliver(s)
      else
        var req := s.calls[|s.calls| - 1].req;
        Finish(s).(main := Ended(Some(if s.main.got.None? then NilRequest(req) else NewRequest(req, s.main.got.value))))
    case SendResponse(ok) =>
      if ok then s.(responses := s.responses + [s.main.req], main := Ready)
      else s.(main := Ended(Some(SendFailed(s.main.req))))
  }

  /** The rendezvous on the channel. */
  function Taken(s: State): State
    requires s.reader.Offering?
  {
    s.(reader := Receiving, consumed := s.consumed + [s.reader.req])
  }

  /** The body of the request loop up to the server call. */
  function Dispatch(s: State, req: Request): State {
    match req.kind
    case CancelRequest => s
    case OtherRequest => s.(main := Responding(req))
    case ApplyRequest => if s.planned then StartCall(s, req) else s.(main := Ended(Some(ApplyBeforePlan(req))))
    case _ => StartCall(s, req)
  }

  function StartCall(s: State, req: Request): State {
    s.(main := Selecting, calls := s.calls + [Call(req, Running, 0)])
  }

  /** close(canceledOrComplete) */
  function CloseCancel(s: State): State
    requires s.calls != []
  {
    var c := s.calls[|s.calls| - 1];
    s.(calls := s.calls[|s.calls| - 1 := c.(closes := c.closes + 1)])
  }

  /** The receive from the result channel. */
  function Finish(s: State): State
    requires LastCallCompleted(s)
  {
    var c := s.calls[|s.calls| - 1];
    s.(calls := s.calls[|s.calls| - 1 := c.(progress := Delivered(c.progress.clean))])
  }

  /** do returns the result and the loop goes on to answer. */
  function Deliver(s: State): State
    requires LastCallCompleted(s)
  {
    var c := s.calls[|s.calls| - 1];
    Finish(s).(main := Responding(c.req), planned := s.planned || (c.req.kind == PlanRequest && c.progress.clean))
  }

  /** The state after the given events, if each of them was possible when it happened. */
  function Run(s: State, es: seq<Event>): Option<State>
    decreases |es|
  {
    if es == [] then Some(s)
    else if Enabled(s, es[0]) then Run(Apply(s, es[0]), es[1..])
    else None
  }

  // ----- The invariant

  ghost predicate InFlight(c: Call) { !c.progress.Delivered? }

  ghost predicate Busy(s: State) { s.main == Selecting || s.main.Draining? }

  /** Only the last call can be in flight, and only while the loop is inside do; its cancel channel is closed once,
      when do leaves its select. */
  ghost predicate Calls(s: State) {
    && (forall i :: 0 <= i < |s.calls| - 1 ==> !InFlight(s.calls[i]) && s.calls[i].closes == 1)
    && (Busy(s) ==> s.calls != [] && InFlight(s.calls[|s.calls| - 1]))
    && (!Busy(s) && s.calls != [] ==> !InFlight(s.calls[|s.calls| - 1]))
    && (s.calls != [] ==> s.calls[|s.calls| - 1].closes == if s.main == Selecting then 0 else 1)
  }

  ghost predicate CleanPlan(c: Call) { c.req.kind == PlanRequest && c.progress == Delivered(true) }

  ghost predicate Planned(s: State) {
    && (s.planned ==> exists j :: 0 <= j < |s.calls| && CleanPlan(s.calls[j]))
    && (forall i :: 0 <= i < |s.calls| && s.calls[i].req.kind == ApplyRequest ==>
          exists j :: 0 <= j < i && CleanPlan(s.calls[j]))
  }

  function NonCancels(rs: seq<Request>): seq<Request> {
    if rs == [] then []
    else NonCancels(rs[..|rs| - 1]) + (if rs[|rs| - 1].kind == CancelRequest then [] else [rs[|rs| - 1]])
  }

  /** The request of the last call. */
  function Current(calls: seq<Call>): seq<Request> { if calls == [] then [] else [calls[|calls| - 1].req] }

  /** The requests taken and not answered: the one being served, one that interrupted it, or those a failure leaves. */
  function Unanswered(main: Main, calls: seq<Call>): seq<Request> {
    match main
    case Ready => []
    case Selecting => Current(calls)
    case Draining(got) => Current(calls) + if got.None? || got.value.kind == CancelRequest then [] else [got.value]
    case Responding(req) => [req]
    case Ended(None) => []
    case Ended(Some(NewRequest(req, newer))) => [req, newer]
    case Ended(Some(f)) => [f.req]
  }

  /** The request between the stream and the loop. */
  function InHand(reader: Reader): seq<Request> {
    match reader
    case Receiving => []
    case Offering(req) => [req]
    case Exited(dropped) => if dropped.Some? then [dropped.value] else []
  }

  ghost predicate Relay(s: State) {
    && s.received == s.consumed + InHand(s.reader)
    && (forall i :: 0 <= i < |s.received| ==> s.received[i].id == i)
    && (s.reader.Exited? && s.reader.dropped.Some? ==> s.main.Ended? && s.main.failure.Some?)
    && (s.main == Ended(None) ==> s.reader == Exited(None))
  }

  ghost predicate Stream(s: State) { NonCancels(s.consumed) == s.responses + Unanswered(s.main, s.calls) }

  predicate Served(kind: Kind) { kind == ParseRequest || kind == PlanRequest || kind == ApplyRequest }

  ghost predicate Kinds(s: State) {
    && (forall i :: 0 <= i < |s.calls| ==> Served(s.calls[i].req.kind))
    && (s.main.Responding? ==> s.main.req.kind != CancelRequest)
  }

  ghost predicate Inv(s: State) { Calls(s) && Planned(s) && Relay(s) && Stream(s) && Kinds(s) }

  lemma StepKeepsCalls(s: State, e: Event)
    requires Calls(s) && Enabled(s, e)
    ensures Calls(Apply(s, e))
  {
  }

  /** A delivered call is never touched again, and a call keeps its request. */
  lemma CallsArePermanent(s: State, e: Event)
    requires Calls(s) && Enabled(s, e)
    ensures var s' := Apply(s, e);
            && |s.calls| <= |s'.calls| <= |s.calls| + 1
            && (forall j :: 0 <= j < |s.calls| ==> s'.calls[j].req == s.calls[j].req)
            && (forall j :: 0 <= j < |s.calls| && s.calls[j].progress.Delivered? ==> s'.calls[j] == s.calls[j])
            && (|s'.calls| > |s.calls| ==> Served(s'.calls[|s.calls|].req.kind))
            && (|s'.calls| > |s.calls| && s'.calls[|s.calls|].req.kind == ApplyRequest ==> s.planned)
            && (s'.planned && !s.planned ==> s.calls != [] && CleanPlan(s'.calls[|s.calls| - 1]))
  {
  }

  lemma StepKeepsPlanned(s: State, e: Event)
    requires Inv(s) && Enabled(s, e)
    ensures Planned(Apply(s, e))
  {
    var s' := Apply(s, e);
    CallsArePermanent(s, e);
    forall j | 0 <= j < |s.calls| && CleanPlan(s.calls[j]) ensures CleanPlan(s'.calls[j]) {}
  }

  lemma NonCancelsAppend(rs: seq<Request>, r: Request)
    ensures NonCancels(rs + [r]) == NonCancels(rs) + if r.kind == CancelRequest then [] else [r]
  {
    assert (rs + [r])[..|rs|] == rs;
  }

  lemma StepKeepsRelay(s: State, e: Event)
    requires Relay(s) && Enabled(s, e)
    ensures Relay(Apply(s, e))
  {
    var s' := Apply(s, e);
    assert e.TakeRequest? || e.TakeCancel? ==> s'.consumed + InHand(s'.reader) == s.consumed + [s.reader.req];
    assert s'.received == if e.StreamRecv? then s.received + [Request(|s.received|, e.kind)] else s.received;
  }

  lemma StepKeepsKinds(s: State, e: Event)
    requires Calls(s) && Kinds(s) && Enabled(s, e)
    ensures Kinds(Apply(s, e))
  {
    CallsArePermanent(s, e);
  }

  lemma DispatchTakesOn(s: State, req: Request)
    requires s.main == Ready
    ensures var t := Dispatch(s, req);
            && t.responses == s.responses && t.consumed == s.consumed
            && Unanswered(t.main, t.calls) == if req.kind == CancelRequest then [] else [req]
  {
  }

  lemma TakeRequestKeepsStream(s: State)
    requires Stream(s) && Enabled(s, TakeRequest)
    ensures Stream(Apply(s, TakeRequest))
  {
    DispatchTakesOn(Taken(s), s.reader.req);
    NonCancelsAppend(s.consumed, s.reader.req);
    assert s.responses + [] == s.responses;
  }

  lemma Associate(a: seq<Request>, b: seq<Request>, c: seq<Request>)
    ensures (a + b) + c == a + (b + c)
  {
  }

  lemma TakeCancelKeepsStream(s: State)
    requires Stream(s) && Enabled(s, TakeCancel)
    ensures Stream(Apply(s, TakeCancel))
  {
    var s', req := Apply(s, TakeCancel), s.reader.req;
    var more := if req.kind == CancelRequest then [] else [req];
    NonCancelsAppend(s.consumed, req);
    assert Unanswered(s'.main, s'.calls) == Unanswered(s.main, s.calls) + more;
    Associate(s.responses, Unanswered(s.main, s.calls), more);
  }

  /** Between taking a request and answering it, it stays the one unanswered. */
  lemma UnansweredStays(s: State, e: Event)
    requires Calls(s) && Enabled(s, e) && !e.TakeRequest? && !e.TakeCancel? && e != SendResponse(true)
    ensures var s' := Apply(s, e);
            && s'.responses == s.responses && s'.consumed == s.consumed
            && Unanswered(s'.main, s'.calls) == Unanswered(s.main, s.calls)
  {
    assert Current(Apply(s, e).calls) == Current(s.calls);
  }

  lemma RespondKeepsStream(s: State)
    requires Stream(s) && Enabled(s, SendResponse(true))
    ensures Stream(Apply(s, SendResponse(true)))
  {
    assert s.responses + [s.main.req] + [] == s.responses + [s.main.req];
  }

  lemma StepKeepsStream(s: State, e: Event)
    requires Calls(s) && Stream(s) && Enabled(s, e)
    ensures Stream(Apply(s, e))
  {
    if e.TakeRequest? {
      TakeRequestKeepsStream(s);
    } else if e.TakeCancel? {
      TakeCancelKeepsStream(s);
    } else if e == SendResponse(true) {
      RespondKeepsStream(s);
    } else {
      UnansweredStays(s, e);
    }
  }

  lemma StepKeepsInv(s: State, e: Event)
    requires Inv(s) && Enabled(s, e)
    ensures Inv(Apply(s, e))
  {
    StepKeepsCalls(s, e);
    StepKeepsPlanned(s, e);
    StepKeepsRelay(s, e);
    StepKeepsStream(s, e);
    StepKeepsKinds(s, e);
  }

  lemma {:induction false} RunKeepsInv(s: State, es: seq<Event>)
    requires Inv(s) && Run(s, es).Some?
    ensures Inv(Run(s, es).value)
    decreases |es|
  {
    if es != [] {
      StepKeepsInv(s, es[0]);
      RunKeepsInv(Apply(s, es[0]), es[1..]);
    }
  }

  // ----- What every run promises

  ghost predicate OneInFlight(calls: seq<Call>) {
    forall i, j :: 0 <= i < |calls| && 0 <= j < |calls| && InFlight(calls[i]) && InFlight(calls[j]) ==> i == j
  }

  ghost predicate CancelsClosedOnce(calls: seq<Call>) {
    forall i :: 0 <= i < |calls| ==> calls[i].closes <= 1 && (!InFlight(calls[i]) ==> calls[i].closes == 1)
  }

  lemma OnlyLastInFlight(s: State)
    requires Calls(s)
    ensures OneInFlight(s.calls) && CancelsClosedOnce(s.calls)
    ensures s.main.Ended? ==> forall i :: 0 <= i < |s.calls| ==> !InFlight(s.calls[i])
  {
  }

  /** One call at a time; no apply before a successful plan; every cancel channel closed at most once, and exactly
      once by the time its result is delivered; and the session never ends while a call is in flight. */
  lemma OneCallAtATime(es: seq<Event>)
    requires Run(Init(), es).Some?
    ensures var s := Run(Init(), es).value;
            && OneInFlight(s.calls) && CancelsClosedOnce(s.calls)
            && (forall i :: 0 <= i < |s.calls| && s.calls[i].req.kind == ApplyRequest ==>
               exists j :: 0 <= j < i && CleanPlan(s.calls[j]))
            && (s.main.Ended? ==> forall i :: 0 <= i < |s.calls| ==> !InFlight(s.calls[i]))
  {
    RunKeepsInv(Init(), es);
    OnlyLastInFlight(Run(Init(), es).value);
  }

  ghost predicate Ascending(rs: seq<Request>) { forall i, j :: 0 <= i < j < |rs| ==> rs[i].id < rs[j].id }

  lemma {:induction false} NonCancelsAscend(rs: seq<Request>)
    requires Ascending(rs)
    ensures Ascending(NonCancels(rs))
    ensures forall r :: r in NonCancels(rs) <==> r in rs && r.kind != CancelRequest
    decreases |rs|
  {
    if rs != [] {
      var rest, r := rs[..|rs| - 1], rs[|rs| - 1];
      NonCancelsAscend(rest);
      assert rs == rest + [r];
    }
  }

  lemma AscendingIds(rs: seq<Request>)
    requires forall i :: 0 <= i < |rs| ==> rs[i].id == i
    ensures Ascending(rs)
  {
  }

  lemma AscendingPrefix(a: seq<Request>, b: seq<Request>, c: seq<Request>)
    requires Ascending(a + b + c)
    ensures Ascending(a)
  {
    assert forall i :: 0 <= i < |a| ==> (a + b + c)[i] == a[i];
  }

  lemma NonCancelsInHand(consumed: seq<Request>, hand: seq<Request>)
    requires |hand| <= 1
    ensures NonCancels(consumed + hand) == NonCancels(consumed) + NonCancels(hand)
  {
    if hand == [] {
      assert consumed + hand == consumed;
    } else {
      assert hand == [] + [hand[0]];
      NonCancelsAppend(consumed, hand[0]);
      NonCancelsAppend([], hand[0]);
    }
  }

  /** Every non-cancel request of the stream, by its number, is answered, being served, left by a failure, or in the
      reader's hand, in this order: responses answer them one to one, all of them when the session ends without an
      error. */
  lemma ResponsesAnswerRequests(es: seq<Event>)
    requires Run(Init(), es).Some?
    ensures var s := Run(Init(), es).value;
            && NonCancels(s.received) == s.responses + Unanswered(s.main, s.calls) + NonCancels(InHand(s.reader))
            && Ascending(s.received) && Ascending(s.responses)
            && (s.main == Ended(None) ==> s.responses == NonCancels(s.received))
  {
    RunKeepsInv(Init(), es);
    var s := Run(Init(), es).value;
    NonCancelsInHand(s.consumed, InHand(s.reader));
    AscendingIds(s.received);
    NonCancelsAscend(s.received);
    AscendingPrefix(s.responses, Unanswered(s.main, s.calls), NonCancels(InHand(s.reader)));
  }

  /** Nothing is lost between the stream and the loop, but for at most one request, the last, that the reader holds
      when the loop ends with an error. */
  lemma AtMostOneDropped(es: seq<Event>)
    requires Run(Init(), es).Some?
    ensures var s := Run(Init(), es).value;
            && s.received == s.consumed + InHand(s.reader)
            && (s.reader.Exited? && s.reader.dropped.Some? ==> s.main.Ended? && s.main.failure.Some?)
  {
    RunKeepsInv(Init(), es);
  }

  /** And that happens: an apply without a plan ends the loop while the next request is on its way. */
  lemma DropExample()
    ensures var r := Run(Init(), [StreamRecv(ApplyRequest), TakeRequest, StreamRecv(PlanRequest), ReaderStops]);
            && r.Some? && r.value.reader == Exited(Some(Request(1, PlanRequest)))
            && r.value.consumed == [Request(0, ApplyRequest)] && r.value.responses == []
  {
    var s1 := Apply(Init(), StreamRecv(ApplyRequest));
    var s2 := Apply(s1, TakeRequest);
    var s3 := Apply(s2, StreamRecv(PlanRequest));
    var s4 := Apply(s3, ReaderStops);
    assert Run(s3, [ReaderStops]) == Some(s4);
    assert Run(s2, [StreamRecv(PlanRequest), ReaderStops]) == Some(s4);
    assert Run(s1, [TakeRequest, StreamRecv(PlanRequest), ReaderStops]) == Some(s4);
  }

  // ----- When the session goes on and when it ends

  ghost predicate HasCleanPlan(calls: seq<Call>) { exists j :: 0 <= j < |calls| && CleanPlan(calls[j]) }

  /** do was interrupted by something other than a cancel. */
  predicate Interrupted(main: Main) {
    main.Ended? && main.failure.Some? && (main.failure.value.NilRequest? || main.failure.value.NewRequest?)
  }

  /** A clean plan is remembered, unless its delivery ended the session. */
  ghost predicate Remembered(s: State) { HasCleanPlan(s.calls) ==> s.planned || Interrupted(s.main) }

  lemma NewCleanPlan(s: State, e: Event, j: nat)
    requires Calls(s) && Enabled(s, e) && j < |Apply(s, e).calls| && CleanPlan(Apply(s, e).calls[j])
    ensures (j < |s.calls| && CleanPlan(s.calls[j])) || Apply(s, e).planned || Interrupted(Apply(s, e).main)
  {
  }

  lemma StepKeepsRemembered(s: State, e: Event)
    requires Calls(s) && Remembered(s) && Enabled(s, e)
    ensures Remembered(Apply(s, e))
  {
    var t := Apply(s, e);
    PlannedStays(s, e);
    if HasCleanPlan(t.calls) {
      var j :| 0 <= j < |t.calls| && CleanPlan(t.calls[j]);
      NewCleanPlan(s, e, j);
    }
  }

  lemma PlannedStays(s: State, e: Event)
    requires Enabled(s, e)
    ensures (s.planned ==> Apply(s, e).planned) && (s.main.Ended? ==> Apply(s, e).main == s.main)
  {
  }

  lemma {:induction false} RunKeepsRemembered(s: State, es: seq<Event>)
    requires Inv(s) && Remembered(s) && Run(s, es).Some?
    ensures Remembered(Run(s, es).value)
    decreases |es|
  {
    if es != [] {
      StepKeepsInv(s, es[0]);
      StepKeepsRemembered(s, es[0]);
      RunKeepsRemembered(Apply(s, es[0]), es[1..]);
    }
  }

  /** In every run, a request that the loop takes between calls: a cancel is ignored, a parse or plan starts its
      call, an apply starts its call exactly when an earlier plan was delivered with an empty error and otherwise
      ends the session, and any other request is answered at once. */
  lemma TakenIsServed(es: seq<Event>)
    requires Run(Init(), es).Some? && Enabled(Run(Init(), es).value, TakeRequest)
    ensures var s := Run(Init(), es).value;
            var t, req := Apply(s, TakeRequest), s.reader.req;
            match req.kind
            case CancelRequest => t.main == Ready && t.calls == s.calls
            case OtherRequest => t.main == Responding(req) && t.calls == s.calls
            case ApplyRequest =>
              if HasCleanPlan(s.calls) then t.main == Selecting && t.calls == s.calls + [Call(req, Running, 0)]
              else t.main == Ended(Some(ApplyBeforePlan(req))) && t.calls == s.calls
            case _ => t.main == Selecting && t.calls == s.calls + [Call(req, Running, 0)]
  {
    RunKeepsInv(Init(), es);
    RunKeepsRemembered(Init(), es);
  }

  /** What has to be among the events for the session to have ended as it did. */
  ghost predicate Caused(main: Main, calls: seq<Call>, es: seq<Event>) {
    match main
    case Ended(None) => StreamErr in es
    case Ended(Some(ApplyBeforePlan(req))) => req.kind == ApplyRequest && !HasCleanPlan(calls)
    case Ended(Some(NilRequest(_))) => StreamErr in es
    case Ended(Some(NewRequest(_, newer))) => newer.kind != CancelRequest
    case Ended(Some(SendFailed(_))) => SendResponse(false) in es
    case Draining(None) => StreamErr in es
    case _ => true
  }

  ghost predicate Exits(s: State, es: seq<Event>) {
    Caused(s.main, s.calls, es) && (s.reader == Exited(None) ==> StreamErr in es)
    && (s.reader.Exited? && s.reader.dropped.Some? ==> s.main.Ended?)
  }

  lemma EndedStays(s: State, e: Event)
    requires Inv(s) && s.main.Ended? && Enabled(s, e)
    ensures Apply(s, e).main == s.main && Apply(s, e).calls == s.calls
  {
  }

  lemma StepHasCause(s: State, e: Event, es: seq<Event>)
    requires Inv(s) && Remembered(s) && Exits(s, es) && Enabled(s, e)
    ensures Exits(Apply(s, e), es + [e])
  {
    assert forall x :: x in es ==> x in es + [e];
    assert e in es + [e];
    if s.main.Ended? {
      EndedStays(s, e);
    }
  }

  lemma {:induction false} RunHasCause(s: State, before: seq<Event>, es: seq<Event>)
    requires Inv(s) && Remembered(s) && Exits(s, before) && Run(s, es).Some?
    ensures Exits(Run(s, es).value, before + es)
    decreases |es|
  {
    if es == [] {
      assert before + es == before;
    } else {
      StepKeepsInv(s, es[0]);
      StepKeepsRemembered(s, es[0]);
      StepHasCause(s, es[0], before);
      RunHasCause(Apply(s, es[0]), before + [es[0]], es[1..]);
      assert before + [es[0]] + es[1..] == before + es;
    }
  }

  /** A session ends only for cause: the stream has ended, a request other than a cancel came during a call, an
      apply came without a clean plan before it, or a response could not be sent. */
  lemma EndsForCause(es: seq<Event>)
    requires Run(Init(), es).Some?
    ensures var s := Run(Init(), es).value; Caused(s.main, s.calls, es)
  {
    RunHasCause(Init(), [], es);
    assert [] + es == es;
  }

  // ----- Calls and the requests they are for

  /** The requests of rs that get a server call. */
  function ServedOf(rs: seq<Request>): seq<Request> {
    if rs == [] then [] else ServedOf(rs[..|rs| - 1]) + (if Served(rs[|rs| - 1].kind) then [rs[|rs| - 1]] else [])
  }

  function Requests(calls: seq<Call>): seq<Request> {
    if calls == [] then [] else Requests(calls[..|calls| - 1]) + [calls[|calls| - 1].req]
  }

  /** The request the loop has called the server for, or would have, and not answered. */
  function InService(main: Main, calls: seq<Call>): seq<Request> {
    match main
    case Selecting => Current(calls)
    case Draining(_) => Current(calls)
    case Responding(req) => [req]
    case Ended(Some(ApplyBeforePlan(_))) => []
    case Ended(Some(f)) => [f.req]
    case _ => []
  }

  /** The server is called once, in order, for each served request that is answered or was in service. */
  ghost predicate CallsServe(s: State) { Requests(s.calls) == ServedOf(s.responses + InService(s.main, s.calls)) }

  lemma ServedAppend(rs: seq<Request>, r: Request)
    ensures ServedOf(rs + [r]) == ServedOf(rs) + if Served(r.kind) then [r] else []
    ensures ServedOf(rs + []) == ServedOf(rs)
  {
    assert (rs + [r])[..|rs|] == rs;
    assert rs + [] == rs;
  }

  lemma {:induction false} SameRequests(a: seq<Call>, b: seq<Call>)
    requires |a| == |b| && forall i :: 0 <= i < |a| ==> a[i].req == b[i].req
    ensures Requests(a) == Requests(b) && Current(a) == Current(b)
    decreases |a|
  {
    if a != [] {
      SameRequests(a[..|a| - 1], b[..|b| - 1]);
    }
  }

  lemma StartKeepsServe(s: State, req: Request)
    requires s.main == Ready && CallsServe(s) && Served(req.kind)
    ensures CallsServe(StartCall(s, req))
  {
    var calls := s.calls + [Call(req, Running, 0)];
    assert calls[..|s.calls|] == s.calls;
    ServedAppend(s.responses, req);
  }

  predicate Starts(s: State, req: Request) { Served(req.kind) && (req.kind == ApplyRequest ==> s.planned) }

  lemma DispatchServes(s: State, req: Request)
    requires s.main == Ready
    ensures var t := Dispatch(s, req);
            if Starts(s, req) then t == StartCall(s, req)
            else t.responses == s.responses && t.calls == s.calls
                 && InService(t.main, t.calls) == if req.kind == OtherRequest then [req] else []
  {
  }

  lemma OtherKeepsServe(s: State, t: State, req: Request)
    requires s.main == Ready && CallsServe(s) && t.responses == s.responses && t.calls == s.calls
    requires InService(t.main, t.calls) == if req.kind == OtherRequest then [req] else []
    ensures CallsServe(t)
  {
    ServedAppend(s.responses, req);
  }

  lemma TakeKeepsServe(s: State)
    requires CallsServe(s) && Enabled(s, TakeRequest)
    ensures CallsServe(Apply(s, TakeRequest))
  {
    var t, req := Taken(s), s.reader.req;
    DispatchServes(t, req);
    if Starts(t, req) {
      StartKeepsServe(t, req);
    } else {
      OtherKeepsServe(s, Dispatch(t, req), req);
    }
  }

  lemma InServiceStays(s: State, e: Event)
    requires Calls(s) && Enabled(s, e) && !e.TakeRequest? && e != SendResponse(true)
    ensures var s' := Apply(s, e);
            && s'.responses == s.responses
            && InService(s'.main, s'.calls) == InService(s.main, s.calls)
  {
    assert Current(Apply(s, e).calls) == Current(s.calls);
  }

  lemma StepKeepsServe(s: State, e: Event)
    requires Calls(s) && CallsServe(s) && Enabled(s, e)
    ensures CallsServe(Apply(s, e))
  {
    if e.TakeRequest? {
      TakeKeepsServe(s);
    } else if e == SendResponse(true) {
      assert s.responses + [s.main.req] + [] == s.responses + [s.main.req];
    } else {
      InServiceStays(s, e);
      CallsStay(s, e);
    }
  }

  lemma CallsStay(s: State, e: Event)
    requires Calls(s) && Enabled(s, e) && !e.TakeRequest?
    ensures Requests(Apply(s, e).calls) == Requests(s.calls)
  {
    CallsArePermanent(s, e);
    assert |Apply(s, e).calls| == |s.calls|;
    SameRequests(s.calls, Apply(s, e).calls);
  }

  lemma {:induction false} RunKeepsServe(s: State, es: seq<Event>)
    requires Inv(s) && CallsServe(s) && Run(s, es).Some?
    ensures CallsServe(Run(s, es).value)
    decreases |es|
  {
    if es != [] {
      StepKeepsInv(s, es[0]);
      StepKeepsServe(s, es[0]);
      RunKeepsServe(Apply(s, es[0]), es[1..]);
    }
  }

  /** In every run the server calls are those for the parse, plan and apply requests answered or in service, one
      each, in order. A request of no served type is answered without a call. */
  lemma CallsServeRequests(es: seq<Event>)
    requires Run(Init(), es).Some?
    ensures var s := Run(Init(), es).value;
            && Requests(s.calls) == ServedOf(s.responses + InService(s.main, s.calls))
            && (forall i :: 0 <= i < |s.calls| ==> Served(s.calls[i].req.kind))
  {
    RunKeepsInv(Init(), es);
    RunKeepsServe(Init(), es);
  }
}

/** The request loop's own variables, changed in place as the loop runs. */
module SessionLoop {
  import opened Wrappers
  import P = SessionProtocol

  class Session {
    var planned: bool
    var main: P.Main
    var responses: seq<P.Request>
    ghost var rest: P.State

    ghost function View(): P.State
      reads this
    {
      rest.(planned := planned, main := main, responses := responses)
    }

    constructor ()
      ensures View() == P.Init()
    {
      planned, main, responses, rest := false, P.Ready, [], P.Init();
    }

    /** The top of the loop, with the request it has just received. */
    method Take(req: P.Request)
      requires P.Enabled(View(), P.TakeRequest) && View().reader.req == req
      modifies this
      ensures View() == P.Apply(old(View()), P.TakeRequest)
    {
      rest := P.Taken(rest);
      if req.kind == P.CancelRequest {
        return;
      }
      if req.kind == P.OtherRequest {
        main := P.Responding(req);
      } else if req.kind == P.ApplyRequest && !planned {
        main := P.Ended(Some(P.ApplyBeforePlan(req)));
      } else {
        rest := P.StartCall(rest, req);
        main := P.Selecting;
      }
    }

    /** do returns: the result of the call for req, after its cancel channel was closed. */
    method Complete(req: P.Request, clean: bool)
      requires P.Enabled(View(), P.TakeResult)
      requires var c := View().calls[|View().calls| - 1]; c.req == req && c.progress == P.Completed(clean)
      modifies this
      ensures View() == P.Apply(old(View()), P.TakeResult)
    {
      rest := P.Finish(P.CloseCancel(rest));
      if req.kind == P.PlanRequest && clean {
        planned := true;
      }
      main := P.Responding(req);
    }

    /** do is interrupted: a request comes off the channel before the result, or the channel is closed (None). */
    method Interrupt(req: Option<P.Request>)
      requires req.Some? ==> P.Enabled(View(), P.TakeCancel) && View().reader.req == req.value
      requires req.None? ==> P.Enabled(View(), P.CancelsClosed)
      modifies this
      ensures View() == P.Apply(old(View()), if req.Some? then P.TakeCancel else P.CancelsClosed)
    {
      if req.Some? {
        rest := P.Taken(rest);
      }
      rest := P.CloseCancel(rest);
      main := P.Draining(req);
    }

    /** The interrupted do has waited for its result: a cancel is answered like any result, anything else ends the
        session. */
    method Drain(req: P.Request, clean: bool)
      requires P.Enabled(View(), P.DrainResult)
      requires var c := View().calls[|View().calls| - 1]; c.req == req && c.progress == P.Completed(clean)
      modifies this
      ensures View() == P.Apply(old(View()), P.DrainResult)
    {
      var got := main.got;
      rest := P.Finish(rest);
      if got.Some? && got.value.kind == P.CancelRequest {
        if req.kind == P.PlanRequest && clean {
          planned := true;
        }
        main := P.Responding(req);
      } else if got == None {
        main := P.Ended(Some(P.NilRequest(req)));
      } else {
        main := P.Ended(Some(P.NewRequest(req, got.value)));
      }
    }

    /** The send at the end of the loop's body. */
    method Respond(ok: bool)
      requires P.Enabled(View(), P.SendResponse(ok))
      modifies this
      ensures View() == P.Apply(old(View()), P.SendResponse(ok))
    {
      if ok {
        responses := responses + [main.req];
        main := P.Ready;
      } else {
        main := P.Ended(Some(P.SendFailed(main.req)));
      }
    }
  }
}
