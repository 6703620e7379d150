/**
 * The protocol engine of lib/Commander.js as a state machine on values.
 *
 * `State` holds the fields the Commander object mutates, plus modelling
 * devices (the port flags, request ids, the armed deadline, the timer flags
 * and the `sent`/`settled` logs); every
 * function below is one method or event handler of it, returning the state
 * after the handler and the promise continuations it triggers have run.
 * The class in Engine.dfy is proved to follow these functions step for step,
 * and the lemmas in ProtocolProperties.dfy state what the engine promises.
 *
 * Abstractions: timers are flags (armed or not) and fire as events; a
 * promise's settlement is a record appended to `settled`; a write to the
 * serial port is a frame appended to `sent`.
 */
module Protocol {
  import opened Frames
  import opened Responses
  import opened Commands
  import Gfx

  datatype ReadyState = NotReady | Checking | Ready | Destroyed

  /** Response deadlines, in milliseconds. */
  const RESPONSE_TIMEOUT: nat := 100
  const CHECKING_RESPONSE_TIMEOUT: nat := 1000

  /** The readiness probe (a cursor move to 0, 0) and the reset frame. */
  const PROBE_FRAME: seq<byte> := [0xFF, 0xE4, 0, 0, 0, 0]
  const RESET_FRAME: seq<byte> := [0x00]

  datatype ErrorKind =
    | DestroyedError            // 'Destroyed.'
    | NoConnection              // 'No connection.'
    | PortDetached              // the TypeError of reading isOpen once destroy dropped the port
    | ResponseTimeout           // 'Response timeout.'
    | InvalidResponse(message: string)

  /** A rejection: the error and, when bytes had arrived, the accumulated frame. */
  datatype Failure = Failure(kind: ErrorKind, responseFrame: Option<seq<byte>>)

  /** How a request's promise settled. */
  datatype Outcome = Resolved(value: Value) | Rejected(failure: Failure)

  /** The `(err, res)` pair handleResponse receives. */
  datatype Completion = Succeed(value: Value) | Fail(kind: ErrorKind)

  /** Who awaits the request: an outside caller, or the engine's own continuations. */
  datatype Purpose = Caller | ReadinessProbe | ResetProbe | KeepAlive

  datatype Request = Request(id: nat, frame: seq<byte>, matcher: Matcher, purpose: Purpose)

  /** The completion record of one request. */
  datatype Settlement = Settlement(request: Request, outcome: Outcome)

  datatype State = State(
    readyState: ReadyState,
    portOpen: bool,                      // serialPort.isOpen
    attached: bool,                      // serialPort !== null and the listeners registered
    readyQueue: seq<Request>,
    requestQueue: seq<Request>,
    currentRequest: Option<Request>,
    responseTimeout: nat,                // deadline armed for currentRequest
    responseFrame: Option<seq<byte>>,
    keepAliveArmed: bool,                // timers.keepAlive
    retryArmed: bool,                    // timers.checkReadiness
    nextId: nat,
    sent: seq<seq<byte>>,
    settled: seq<Settlement>)

  /** The request in flight, as a sequence of zero or one. */
  function InFlight(s: State): seq<Request> {
    if s.currentRequest.Some? then [s.currentRequest.value] else []
  }

  /** The requests bound for the port, in the order they will be written. */
  function Active(s: State): seq<Request> {
    InFlight(s) + s.requestQueue
  }

  /** The bytes received for the request in flight. */
  function Accumulated(s: State): seq<byte> {
    if s.responseFrame.Some? then s.responseFrame.value else []
  }

  predicate AllNak(frame: seq<byte>) {
    forall i :: 0 <= i < |frame| ==> frame[i] == NAK
  }

  /** The keep-alive request: getPixel at 0, 0. */
  function KeepAliveCommand(): (c: Command)
    ensures c.matcher == PixelMatcher && |c.frame| % 2 == 0
    ensures DecodeWords(c.frame) == [0xFFCA, 0, 0]
  {
    var r := Gfx.GetPixel(0, 0);
    assert AllUint16([0, 0]);
    r.value
  }

  /** The deadline sendNextRequest arms: long while the readiness check runs. */
  function TimeoutFor(readyState: ReadyState): nat {
    if readyState == Checking then CHECKING_RESPONSE_TIMEOUT else RESPONSE_TIMEOUT
  }

  /** The constructor: registers the listeners and runs onOpen if the port is already open. */
  function Initial(portOpen: bool): State {
    var s := State(NotReady, portOpen, true, [], [], None, 0, None, false, false, 0, [], []);
    if portOpen then OnOpen(s) else s
  }

  /**
   * sendNextRequest: with nothing in flight, moves the head of the active
   * queue into flight, arms its deadline and writes its frame.
   */
  function SendNext(s: State): (r: State)
    ensures Active(r) == Active(s)
    ensures r.currentRequest.Some? || r.requestQueue == []
    ensures s.currentRequest.Some? || s.requestQueue == [] ==> r == s
    ensures r != s ==> && r.currentRequest == Some(s.requestQueue[0])
                       && r.responseTimeout == TimeoutFor(s.readyState)
                       && r.sent == s.sent + [s.requestQueue[0].frame]
    ensures r.readyState == s.readyState && r.readyQueue == s.readyQueue
    ensures r.settled == s.settled && r.responseFrame == s.responseFrame
    ensures r.attached == s.attached && r.portOpen == s.portOpen && r.nextId == s.nextId
    ensures r.keepAliveArmed == s.keepAliveArmed && r.retryArmed == s.retryArmed
  {
    if s.currentRequest.Some? || s.requestQueue == [] then s
    else
      var req := s.requestQueue[0];
      s.(currentRequest := Some(req), requestQueue := s.requestQueue[1..],
         responseTimeout := TimeoutFor(s.readyState), sent := s.sent + [req.frame])
  }

  /** Why request() refuses at once, checked in the source's order. */
  function Rejection(s: State): Option<ErrorKind> {
    if s.readyState == Destroyed then Some(DestroyedError)
    else if !s.attached then Some(PortDetached)
    else if !s.portOpen then Some(NoConnection)
    else None
  }

  /** The request that the next submission creates. */
  function NextRequest(s: State, frame: seq<byte>, matcher: Matcher, purpose: Purpose): Request {
    Request(s.nextId, frame, matcher, purpose)
  }

  /**
   * request(frame, handler, checkingReadiness): refused at once when the
   * engine is destroyed or the port is closed; otherwise queued on the active
   * queue if it is a readiness request or the engine is ready, on the
   * pre-readiness queue otherwise, and the dispatcher is run.
   */
  function Submit(s: State, frame: seq<byte>, matcher: Matcher, checkingReadiness: bool, purpose: Purpose): (r: State)
    ensures var req := NextRequest(s, frame, matcher, purpose);
      && r.nextId == s.nextId + 1
      && r.readyState == s.readyState && r.attached == s.attached && r.portOpen == s.portOpen
      && r.retryArmed == s.retryArmed && r.responseFrame == s.responseFrame
      && (Rejection(s).Some? ==>
            && r.readyQueue == s.readyQueue && r.requestQueue == s.requestQueue
            && r.currentRequest == s.currentRequest && r.sent == s.sent
            && r.keepAliveArmed == s.keepAliveArmed
            && r.settled == s.settled + [Settlement(req, Rejected(Failure(Rejection(s).value, None)))])
      && (Rejection(s).None? ==>
            && r.settled == s.settled && !r.keepAliveArmed
            && (checkingReadiness || s.readyState == Ready ==>
                  Active(r) == Active(s) + [req] && r.readyQueue == s.readyQueue)
            && (!checkingReadiness && s.readyState != Ready ==>
                  Active(r) == Active(s) && r.readyQueue == s.readyQueue + [req]))
  {
    var req := NextRequest(s, frame, matcher, purpose);
    var s0 := s.(nextId := s.nextId + 1);
    match Rejection(s)
    case Some(kind) =>
      s0.(settled := s.settled + [Settlement(req, Rejected(Failure(kind, None)))])
    case None =>
      var s1 := s0.(keepAliveArmed := false);
      if checkingReadiness || s.readyState == Ready then
        SendNext(s1.(requestQueue := s.requestQueue + [req]))
      else
        SendNext(s1.(readyQueue := s.readyQueue + [req]))
  }

  /**
   * markAsReady: READY, the pre-readiness queue REPLACES the active queue
   * (whatever still waited there is dropped), then dispatch.
   */
  function MarkAsReady(s: State): (r: State)
    ensures r.readyState == Ready && r.readyQueue == []
    ensures Active(r) == InFlight(s) + s.readyQueue
    ensures r.settled == s.settled && r.responseFrame == s.responseFrame
    ensures r.attached == s.attached && r.portOpen == s.portOpen && r.nextId == s.nextId
    ensures r.keepAliveArmed == s.keepAliveArmed && r.retryArmed == s.retryArmed
  {
    SendNext(s.(readyState := Ready, requestQueue := s.readyQueue, readyQueue := []))
  }

  /**
   * The catch block of reset: an accumulated frame made only of NAKs means
   * the module is reset; anything else arms the one-second retry.
   */
  function ResetFailed(s: State, f: Failure): State {
    if f.responseFrame.Some? && AllNak(f.responseFrame.value) then MarkAsReady(s)
    else s.(retryArmed := true)
  }

  /** reset: submits the reset frame with a matcher that never decides. */
  function Reset(s: State): State {
    var s1 := Submit(s, RESET_FRAME, ResetMatcher, true, ResetProbe);
    match Rejection(s)
    case Some(kind) => ResetFailed(s1, Failure(kind, None))
    case None => s1
  }

  /** checkReadiness: CHECKING, then the probe; a refused probe arms the retry. */
  function CheckReadiness(s: State): State {
    var s0 := s.(readyState := Checking);
    var s1 := Submit(s0, PROBE_FRAME, ProbeMatcher, true, ReadinessProbe);
    if Rejection(s0).Some? then s1.(retryArmed := true) else s1
  }

  /** What runs after `await` once request `req` settled with `o`. */
  function Continue(s: State, req: Request, o: Outcome): State {
    match req.purpose
    case ReadinessProbe =>
      if o == Resolved(Number(1)) then MarkAsReady(s)
      else if o.Resolved? then Reset(s)
      else s.(retryArmed := true)
    case ResetProbe =>
      if o.Rejected? then ResetFailed(s, o.failure) else s
    case Caller => s
    case KeepAlive => s
  }

  /** The outcome of a completion; an error carries the accumulated frame if any. */
  function OutcomeOf(s: State, c: Completion): Outcome {
    match c
    case Succeed(v) => Resolved(v)
    case Fail(kind) => Rejected(Failure(kind, s.responseFrame))
  }

  /**
   * The bookkeeping half of handleResponse: clears the in-flight slot and
   * the frame, settles the request, then dispatches the next request or,
   * with none left, arms the keep-alive.
   */
  function Complete(s: State, c: Completion): (r: State)
    requires s.currentRequest.Some?
    ensures r.settled == s.settled + [Settlement(s.currentRequest.value, OutcomeOf(s, c))]
    ensures r.responseFrame.None? && Active(r) == s.requestQueue
    ensures r.currentRequest.Some? <==> s.requestQueue != []
    ensures s.requestQueue != [] ==>
      && r.sent == s.sent + [s.requestQueue[0].frame]
      && r.keepAliveArmed == s.keepAliveArmed
      && r.responseTimeout == TimeoutFor(s.readyState)
    ensures s.requestQueue == [] ==> r.sent == s.sent && r.keepAliveArmed
    ensures r.readyState == s.readyState && r.readyQueue == s.readyQueue
    ensures r.attached == s.attached && r.portOpen == s.portOpen && r.nextId == s.nextId
    ensures r.retryArmed == s.retryArmed
  {
    var req := s.currentRequest.value;
    var s1 := s.(currentRequest := None, responseFrame := None,
                 settled := s.settled + [Settlement(req, OutcomeOf(s, c))]);
    if |s1.requestQueue| > 0 then SendNext(s1) else s1.(keepAliveArmed := true)
  }

  /** handleResponse: the bookkeeping, then the settled request's continuation. */
  function HandleResponse(s: State, c: Completion): State
    requires s.currentRequest.Some?
  {
    Continue(Complete(s, c), s.currentRequest.value, OutcomeOf(s, c))
  }

  /**
   * handleResponseFrame: with a request in flight, runs its matcher on the
   * accumulated frame; an undecided match changes nothing.
   */
  function HandleResponseFrame(s: State): State
    requires s.currentRequest.Some? ==> s.responseFrame.Some?
  {
    if s.currentRequest.None? then s
    else
      match Match(s.currentRequest.value.matcher, s.responseFrame.value)
      case Incomplete => s
      case Invalid(message) => HandleResponse(s, Fail(InvalidResponse(message)))
      case Matched(v) => HandleResponse(s, Succeed(v))
  }

  /**
   * The tail of onReadable once the frame of the request in flight has grown
   * to `total`: nothing happens while it is empty, otherwise the matcher runs.
   */
  function Deliver(s: State, total: seq<byte>): State
    requires s.currentRequest.Some?
  {
    if |total| == 0 then s else HandleResponseFrame(s.(responseFrame := Some(total)))
  }

  /** onReadable: drains the chunks the port holds, appends them and asks the matcher. */
  function OnReadable(s: State, chunks: seq<seq<byte>>): State {
    if !s.attached || s.currentRequest.None? then s
    else Deliver(s, Accumulated(s) + Concat(chunks))
  }

  /** While the matcher waits, the frame is the old frame followed by the new chunks. */
  lemma ReadableAccumulates(s: State, chunks: seq<seq<byte>>)
    requires s.attached && s.currentRequest.Some?
    requires var total := Accumulated(s) + Concat(chunks);
      |total| > 0 && Match(s.currentRequest.value.matcher, total).Incomplete?
    ensures OnReadable(s, chunks) == s.(responseFrame := Some(Accumulated(s) + Concat(chunks)))
  {
  }

  /** onReadable with a request in flight is delivery of the grown frame. */
  lemma ReadableDelivers(s: State, chunks: seq<seq<byte>>)
    requires s.attached && s.currentRequest.Some?
    ensures OnReadable(s, chunks) == Deliver(s, Accumulated(s) + Concat(chunks))
  {
  }

  /** Delivery of a non-empty frame overwrites the frame held before. */
  lemma DeliverIgnoresOldFrame(s: State, total: seq<byte>)
    requires s.currentRequest.Some? && |total| > 0
    ensures forall f :: Deliver(s.(responseFrame := f), total) == Deliver(s, total)
  {
  }

  /** The deadline of the request in flight elapsed. */
  function OnTimeout(s: State): State
    requires s.currentRequest.Some?
  {
    HandleResponse(s, Fail(ResponseTimeout))
  }

  /** keepAlive: a getPixel whose result nobody awaits. */
  function OnKeepAliveTimer(s: State): State
    requires s.keepAliveArmed
  {
    var c := KeepAliveCommand();
    Submit(s.(keepAliveArmed := false), c.frame, c.matcher, false, KeepAlive)
  }

  /** The one-second retry of the readiness check. */
  function OnRetryTimer(s: State): State
    requires s.retryArmed
  {
    CheckReadiness(s.(retryArmed := false))
  }

  /** onOpen: cancels a pending retry and starts the readiness check. */
  function OnOpen(s: State): State {
    if !s.attached then s
    else CheckReadiness(s.(portOpen := true, retryArmed := false))
  }

  /** onClose: NOT_READY; queues, in-flight request and timers are left alone. */
  function OnClose(s: State): State {
    if !s.attached then s
    else s.(portOpen := false, readyState := NotReady)
  }

  /** The records of requests rejected by destroy, in rejection order. */
  function RejectAll(reqs: seq<Request>): (r: seq<Settlement>)
    ensures |r| == |reqs|
    ensures forall i :: 0 <= i < |reqs| ==> r[i] == Settlement(reqs[i], Rejected(Failure(DestroyedError, None)))
  {
    seq(|reqs|, i requires 0 <= i < |reqs| => Settlement(reqs[i], Rejected(Failure(DestroyedError, None))))
  }

  /** The continuations of the requests destroy rejected, run in rejection order. */
  function ContinueAll(s: State, reqs: seq<Request>): State {
    if reqs == [] then s
    else
      var last := reqs[|reqs| - 1];
      Continue(ContinueAll(s, reqs[..|reqs| - 1]), last, Rejected(Failure(DestroyedError, None)))
  }

  /**
   * destroy: DESTROYED; the in-flight request is dropped unsettled; every
   * queued request is rejected, pre-readiness queue first; the port and the
   * timers are released; afterwards the rejected requests' continuations run.
   */
  function Destroy(s: State): State
    requires s.attached
  {
    ContinueAll(Release(s), s.readyQueue + s.requestQueue)
  }

  /** The synchronous part of destroy, before any continuation runs. */
  function Release(s: State): State {
    s.(readyState := Destroyed, currentRequest := None,
       readyQueue := [], requestQueue := [], attached := false,
       keepAliveArmed := false, retryArmed := false,
       settled := s.settled + RejectAll(s.readyQueue + s.requestQueue))
  }
}
