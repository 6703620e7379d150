/**
 * What the Commander engine promises, proved about the state machine in
 * Protocol.dfy: the invariants every handler keeps, queue routing and
 * order, settlement, the readiness handshake and
 * teardown.
 */
module ProtocolProperties {
  import opened Frames
  import opened Responses
  import opened Protocol

  /**
   * Queue discipline: a destroyed engine has released its port; a detached
   * engine holds no request and no keep-alive; and the dispatcher never
   * idles while the active queue has work.
   */
  predicate QueuesValid(s: State) {
    && (s.readyState == Destroyed ==> !s.attached)
    && (!s.attached ==> s.readyQueue == [] && s.requestQueue == [] && s.currentRequest.None? && !s.keepAliveArmed)
    && (s.currentRequest.None? ==> s.requestQueue == [])
  }

  /**
   * Reassembly: a response frame exists only for the request in flight, is
   * never empty, and is one its matcher is still waiting on.
   */
  predicate FrameValid(s: State) {
    s.attached && s.responseFrame.Some? ==>
      && s.currentRequest.Some?
      && |s.responseFrame.value| > 0
      && Match(s.currentRequest.value.matcher, s.responseFrame.value).Incomplete?
  }

  predicate Valid(s: State) {
    QueuesValid(s) && FrameValid(s)
  }

  predicate IsHandshake(req: Request) {
    req.purpose == ReadinessProbe || req.purpose == ResetProbe
  }

  predicate HasHandshake(reqs: seq<Request>) {
    exists i :: 0 <= i < |reqs| && IsHandshake(reqs[i])
  }

  // ---------------------------------------------------------------------
  // Invariant preservation, handler by handler
  // ---------------------------------------------------------------------

  lemma SubmitValid(s: State, frame: seq<byte>, matcher: Matcher, checkingReadiness: bool, purpose: Purpose)
    requires Valid(s)
    ensures Valid(Submit(s, frame, matcher, checkingReadiness, purpose))
  {
  }

  lemma MarkAsReadyValid(s: State)
    requires Valid(s)
    ensures Valid(MarkAsReady(s))
  {
  }

  lemma ContinueValid(s: State, req: Request, o: Outcome)
    requires Valid(s)
    ensures Valid(Continue(s, req, o))
  {
    match req.purpose
    case ReadinessProbe =>
      if o == Resolved(Number(1)) {
        MarkAsReadyValid(s);
      } else if o.Resolved? {
        SubmitValid(s, RESET_FRAME, ResetMatcher, true, ResetProbe);
        var s1 := Submit(s, RESET_FRAME, ResetMatcher, true, ResetProbe);
        if Rejection(s).Some? {
          MarkAsReadyValid(s1);
        }
      }
    case ResetProbe =>
      if o.Rejected? {
        MarkAsReadyValid(s);
      }
    case Caller =>
    case KeepAlive =>
  }

  lemma HandleResponseValid(s: State, c: Completion)
    requires QueuesValid(s) && s.currentRequest.Some?
    ensures Valid(HandleResponse(s, c))
  {
    var s2 := Complete(s, c);
    assert Valid(s2);
    ContinueValid(s2, s.currentRequest.value, OutcomeOf(s, c));
  }

  lemma CheckReadinessValid(s: State)
    requires Valid(s)
    ensures Valid(CheckReadiness(s))
  {
    SubmitValid(s.(readyState := Checking), PROBE_FRAME, ProbeMatcher, true, ReadinessProbe);
  }

  lemma OnReadableValid(s: State, chunks: seq<seq<byte>>)
    requires Valid(s)
    ensures Valid(OnReadable(s, chunks))
  {
    if s.attached && s.currentRequest.Some? {
      var total := Accumulated(s) + Concat(chunks);
      if |total| > 0 {
        var s1 := s.(responseFrame := Some(total));
        match Match(s.currentRequest.value.matcher, total)
        case Incomplete =>
        case Invalid(message) => HandleResponseValid(s1, Fail(InvalidResponse(message)));
        case Matched(v) => HandleResponseValid(s1, Succeed(v));
      }
    }
  }

  /** Continuations of destroy-rejected requests only (re)arm the retry timer. */
  lemma {:induction false} ContinueAllRejected(s: State, reqs: seq<Request>)
    ensures ContinueAll(s, reqs) == s.(retryArmed := s.retryArmed || HasHandshake(reqs))
    decreases |reqs|
  {
    if reqs != [] {
      var init := reqs[..|reqs| - 1];
      ContinueAllRejected(s, init);
      assert HasHandshake(reqs) <==> HasHandshake(init) || IsHandshake(reqs[|reqs| - 1]) by {
        if HasHandshake(init) {
          var i :| 0 <= i < |init| && IsHandshake(init[i]);
          assert reqs[i] == init[i];
        }
        if HasHandshake(reqs) {
          var i :| 0 <= i < |reqs| && IsHandshake(reqs[i]);
          if i < |init| {
            assert init[i] == reqs[i];
          }
        }
      }
    }
  }

  lemma DestroyValid(s: State)
    requires Valid(s) && s.attached
    ensures Valid(Destroy(s))
  {
    ContinueAllRejected(Release(s), s.readyQueue + s.requestQueue);
  }

  // ---------------------------------------------------------------------
  // Runs of events
  // ---------------------------------------------------------------------

  /** The events the engine reacts to. */
  datatype Event =
    | Open
    | Close
    | Readable(chunks: seq<seq<byte>>)
    | DeadlineElapsed
    | KeepAliveFires
    | RetryFires
    | Submitted(frame: seq<byte>, matcher: Matcher, checkingReadiness: bool)
    | Teardown

  /** An event can occur: its timer is armed, or the object it needs exists. */
  predicate Enabled(s: State, e: Event) {
    match e
    case DeadlineElapsed => s.currentRequest.Some?
    case KeepAliveFires => s.keepAliveArmed
    case RetryFires => s.retryArmed
    case Teardown => s.attached
    case _ => true
  }

  function Step(s: State, e: Event): State
    requires Enabled(s, e)
  {
    match e
    case Open => OnOpen(s)
    case Close => OnClose(s)
    case Readable(chunks) => OnReadable(s, chunks)
    case DeadlineElapsed => OnTimeout(s)
    case KeepAliveFires => OnKeepAliveTimer(s)
    case RetryFires => OnRetryTimer(s)
    case Submitted(frame, matcher, checkingReadiness) => Submit(s, frame, matcher, checkingReadiness, Caller)
    case Teardown => Destroy(s)
  }

  /** Runs the events in order; an event that cannot occur in its state is skipped. */
  function Run(s: State, events: seq<Event>): State
    decreases |events|
  {
    if events == [] then s
    else
      var s1 := if Enabled(s, events[0]) then Step(s, events[0]) else s;
      Run(s1, events[1..])
  }

  lemma StepValid(s: State, e: Event)
    requires Valid(s) && Enabled(s, e)
    ensures Valid(Step(s, e))
  {
    match e
    case Open =>
      if s.attached {
        CheckReadinessValid(s.(portOpen := true, retryArmed := false));
      }
    case Close =>
    case Readable(chunks) => OnReadableValid(s, chunks);
    case DeadlineElapsed => HandleResponseValid(s, Fail(ResponseTimeout));
    case KeepAliveFires =>
      var c := KeepAliveCommand();
      SubmitValid(s.(keepAliveArmed := false), c.frame, c.matcher, false, KeepAlive);
    case RetryFires => CheckReadinessValid(s.(retryArmed := false));
    case Submitted(frame, matcher, checkingReadiness) =>
      SubmitValid(s, frame, matcher, checkingReadiness, Caller);
    case Teardown => DestroyValid(s);
  }

  lemma InitialValid(portOpen: bool)
    ensures Valid(Initial(portOpen))
  {
    var s := State(NotReady, portOpen, true, [], [], None, 0, None, false, false, 0, [], []);
    if portOpen {
      StepValid(s, Open);
    }
  }

  /**
   * At every point of every run from a fresh engine, the invariants hold:
   * at most one request in flight (an Option), never idle with work queued,
   * a response frame only for the request in flight.
   */
  lemma {:induction false} RunValid(s: State, events: seq<Event>)
    requires Valid(s)
    ensures Valid(Run(s, events))
    decreases |events|
  {
    if events != [] {
      var s1 := if Enabled(s, events[0]) then Step(s, events[0]) else s;
      if Enabled(s, events[0]) {
        StepValid(s, events[0]);
      }
      RunValid(s1, events[1..]);
    }
  }

  lemma EngineAlwaysValid(portOpen: bool, events: seq<Event>)
    ensures Valid(Run(Initial(portOpen), events))
  {
    InitialValid(portOpen);
    RunValid(Initial(portOpen), events);
  }

  // ---------------------------------------------------------------------
  // Submission and dispatch
  // ---------------------------------------------------------------------

  /** request() on a destroyed engine or a closed port rejects at once and queues nothing. */
  lemma RequestRefused(s: State, frame: seq<byte>, matcher: Matcher, checkingReadiness: bool)
    requires s.readyState == Destroyed || (s.attached && !s.portOpen)
    ensures var r := Submit(s, frame, matcher, checkingReadiness, Caller);
      && r.readyQueue == s.readyQueue && r.requestQueue == s.requestQueue
      && r.currentRequest == s.currentRequest && r.sent == s.sent
      && r.settled == s.settled + [Settlement(NextRequest(s, frame, matcher, Caller),
           Rejected(Failure(if s.readyState == Destroyed then DestroyedError else NoConnection, None)))]
  {
  }

  /**
   * With the channel free, dispatch takes exactly the head of the active
   * queue, keeps the rest in order, writes the head's frame and arms the long
   * deadline exactly when the state is CHECKING.
   */
  lemma DispatchTakesHead(s: State)
    requires s.currentRequest.None? && s.requestQueue != []
    ensures var r := SendNext(s);
      && r.currentRequest == Some(s.requestQueue[0])
      && r.requestQueue == s.requestQueue[1..]
      && r.sent == s.sent + [s.requestQueue[0].frame]
      && (r.responseTimeout == 1000 <==> s.readyState == Checking)
      && (r.responseTimeout == 100 <==> s.readyState != Checking)
  {
    var r := SendNext(s);
    assert r.currentRequest != s.currentRequest;
    assert Active(r) == [s.requestQueue[0]] + r.requestQueue;
  }

  /** sendNextRequest does nothing while a request is in flight. */
  lemma NoDispatchWhileInFlight(s: State)
    requires s.currentRequest.Some?
    ensures SendNext(s) == s
  {
  }

  // ---------------------------------------------------------------------
  // Settlement of callers' requests
  // ---------------------------------------------------------------------

  /** The outcome a decided match gives, carrying the frame on error. */
  function DecidedOutcome(m: MatchResult, frame: seq<byte>): Outcome
    requires !m.Incomplete?
  {
    match m
    case Invalid(message) => Rejected(Failure(InvalidResponse(message), Some(frame)))
    case Matched(v) => Resolved(v)
  }

  /**
   * When the matcher decides, a caller's request settles exactly once with
   * the matcher's verdict (an error carrying the accumulated frame), the slot
   * and frame are cleared, and the next request is in flight or, with none,
   * the keep-alive is armed.
   */
  lemma CallerSettles(s: State, chunks: seq<seq<byte>>)
    requires Valid(s) && s.attached && s.currentRequest.Some?
    requires s.currentRequest.value.purpose == Caller
    requires var total := Accumulated(s) + Concat(chunks);
      |total| > 0 && !Match(s.currentRequest.value.matcher, total).Incomplete?
    ensures var total := Accumulated(s) + Concat(chunks);
      var r := OnReadable(s, chunks);
      && r.settled == s.settled + [Settlement(s.currentRequest.value,
                                   DecidedOutcome(Match(s.currentRequest.value.matcher, total), total))]
      && r.responseFrame.None?
      && Active(r) == s.requestQueue && r.readyQueue == s.readyQueue
      && (s.requestQueue == [] ==> r.keepAliveArmed)
  {
    var total := Accumulated(s) + Concat(chunks);
    var s1 := s.(responseFrame := Some(total));
    var m := Match(s.currentRequest.value.matcher, total);
    var c := if m.Invalid? then Fail(InvalidResponse(m.message)) else Succeed(m.value);
    assert OnReadable(s, chunks) == HandleResponse(s1, c);
    assert OutcomeOf(s1, c) == DecidedOutcome(m, total);
  }

  /** Round trip: a caller's ACK request answered by a lone ACK resolves, once. */
  lemma AckRoundTrip(s: State, chunks: seq<seq<byte>>)
    requires Valid(s) && s.attached && s.currentRequest.Some? && s.responseFrame.None?
    requires s.currentRequest.value.purpose == Caller && s.currentRequest.value.matcher == AckMatcher
    requires Concat(chunks) == [ACK]
    ensures OnReadable(s, chunks).settled == s.settled + [Settlement(s.currentRequest.value, Resolved(Acknowledged))]
  {
    CallerSettles(s, chunks);
  }

  /**
   * A caller's request whose deadline elapses is rejected with a timeout
   * carrying any partial frame, and the next request goes out at once.
   */
  lemma CallerTimesOut(s: State)
    requires Valid(s) && s.currentRequest.Some? && s.currentRequest.value.purpose == Caller
    ensures var r := OnTimeout(s);
      && r.settled == s.settled + [Settlement(s.currentRequest.value, Rejected(Failure(ResponseTimeout, s.responseFrame)))]
      && Active(r) == s.requestQueue
      && (s.requestQueue != [] ==> r.sent == s.sent + [s.requestQueue[0].frame])
      && (s.requestQueue == [] ==> r.keepAliveArmed)
  {
  }

  // ---------------------------------------------------------------------
  // The readiness handshake
  // ---------------------------------------------------------------------

  /** The reset request that the handshake submits next. */
  function ResetRequest(s: State): Request {
    NextRequest(s, RESET_FRAME, ResetMatcher, ResetProbe)
  }

  /**
   * A probe answered by a lone ACK marks the engine ready at once: the
   * pre-readiness queue becomes the active queue, behind at most the one
   * request dispatched when the probe settled.
   */
  lemma ProbeAckMakesReady(s: State, chunks: seq<seq<byte>>)
    requires Valid(s) && s.attached && s.currentRequest.Some?
    requires s.currentRequest.value.purpose == ReadinessProbe
    requires s.currentRequest.value.matcher == ProbeMatcher
    requires Accumulated(s) + Concat(chunks) == [ACK]
    ensures var r := OnReadable(s, chunks);
      && r.readyState == Ready && r.readyQueue == []
      && Active(r) == s.requestQueue[..if s.requestQueue == [] then 0 else 1] + s.readyQueue
      && r.settled == s.settled + [Settlement(s.currentRequest.value, Resolved(Number(1)))]
  {
    var s1 := s.(responseFrame := Some([ACK]));
    assert OnReadable(s, chunks) == HandleResponse(s1, Succeed(Number(1)));
    var c := Complete(s1, Succeed(Number(1)));
    assert HandleResponse(s1, Succeed(Number(1))) == MarkAsReady(c);
    assert InFlight(c) == s.requestQueue[..if s.requestQueue == [] then 0 else 1] by {
      if s.requestQueue != [] {
        assert Active(c) == [c.currentRequest.value] + c.requestQueue;
      }
    }
  }

  /** A probe answered by a lone NAK goes straight to the reset step. */
  lemma ProbeNakStartsReset(s: State, chunks: seq<seq<byte>>)
    requires Valid(s) && s.attached && s.portOpen && s.readyState != Destroyed
    requires s.currentRequest.Some?
    requires s.currentRequest.value.purpose == ReadinessProbe
    requires s.currentRequest.value.matcher == ProbeMatcher
    requires Accumulated(s) + Concat(chunks) == [NAK]
    ensures var r := OnReadable(s, chunks);
      && r.readyState == s.readyState && r.readyQueue == s.readyQueue
      && Active(r) == s.requestQueue + [ResetRequest(s)]
      && r.retryArmed == s.retryArmed
  {
  }

  /** A probe that times out arms the one-second retry and stays in its state. */
  lemma ProbeTimeoutRetries(s: State)
    requires Valid(s) && s.currentRequest.Some? && s.currentRequest.value.purpose == ReadinessProbe
    ensures var r := OnTimeout(s);
      r.retryArmed && r.readyState == s.readyState && r.readyQueue == s.readyQueue
  {
  }

  /** The reset matcher never decides: bytes for the reset only accumulate. */
  lemma ResetOnlyAccumulates(s: State, chunks: seq<seq<byte>>)
    requires s.attached && s.currentRequest.Some? && s.currentRequest.value.matcher == ResetMatcher
    requires |Accumulated(s) + Concat(chunks)| > 0
    ensures OnReadable(s, chunks) == s.(responseFrame := Some(Accumulated(s) + Concat(chunks)))
  {
  }

  /**
   * The reset can only end by its deadline. When bytes arrived and all of
   * them are NAK, markAsReady runs: READY, and the active queue becomes the
   * request dispatched meanwhile (if any) followed by the pre-readiness
   * queue, so callers queued behind it are dropped. Otherwise the retry is
   * armed and the state is kept. A reset can be in flight while READY: a
   * second onOpen probes again while the first probe is still in flight.
   */
  lemma ResetTimeoutOutcome(s: State)
    requires Valid(s) && s.currentRequest.Some? && s.currentRequest.value.purpose == ResetProbe
    ensures var r := OnTimeout(s);
      var nak := s.responseFrame.Some? && AllNak(s.responseFrame.value);
      && (nak ==> && r.readyState == Ready && r.readyQueue == [] && r.retryArmed == s.retryArmed
                  && Active(r) == s.requestQueue[..if s.requestQueue == [] then 0 else 1] + s.readyQueue)
      && (!nak ==> r.retryArmed && r.readyState == s.readyState && r.readyQueue == s.readyQueue)
      && (s.readyState != Ready ==> (r.readyState == Ready <==> nak))
  {
    var c := Complete(s, Fail(ResponseTimeout));
    assert InFlight(c) == s.requestQueue[..if s.requestQueue == [] then 0 else 1] by {
      if s.requestQueue != [] {
        assert Active(c) == [c.currentRequest.value] + c.requestQueue;
      }
    }
  }

  // ---------------------------------------------------------------------
  // Teardown
  // ---------------------------------------------------------------------

  /**
   * destroy: DESTROYED with empty queues and slot; the queued requests are
   * rejected in order, pre-readiness queue first; the in-flight request is
   * dropped without a settlement; the retry timer ends up armed exactly when
   * a handshake request was among the rejected (its continuation re-arms it).
   */
  lemma DestroyRejectsQueued(s: State)
    requires Valid(s) && s.attached
    ensures var r := Destroy(s);
      && r.readyState == Destroyed && !r.attached
      && r.readyQueue == [] && r.requestQueue == [] && r.currentRequest.None?
      && !r.keepAliveArmed && r.sent == s.sent
      && r.settled == s.settled + RejectAll(s.readyQueue + s.requestQueue)
      && (r.retryArmed <==> HasHandshake(s.readyQueue + s.requestQueue))
  {
    ContinueAllRejected(Release(s), s.readyQueue + s.requestQueue);
  }

  /**
   * A destroyed engine with no retry pending is inert: every event that can
   * still occur leaves it DESTROYED with nothing queued or in flight, and a
   * submission is rejected with 'Destroyed.'.
   */
  lemma DestroyedIsTerminal(s: State, e: Event)
    requires Valid(s) && s.readyState == Destroyed && !s.retryArmed && Enabled(s, e)
    ensures var r := Step(s, e);
      && r.readyState == Destroyed && r.readyQueue == [] && Active(r) == [] && !r.retryArmed
      && r.sent == s.sent
      && (e.Submitted? ==> r.settled == s.settled + [Settlement(NextRequest(s, e.frame, e.matcher, Caller),
                                                   Rejected(Failure(DestroyedError, None)))])
  {
  }

  /**
   * As written, a handshake request still queued at teardown re-arms the
   * retry; when it fires the engine leaves DESTROYED for CHECKING, its probe
   * fails on the released port, and the retry is armed again.
   */
  lemma DestroyedEngineKeepsRetrying(s: State)
    requires Valid(s) && s.attached && HasHandshake(s.readyQueue + s.requestQueue)
    ensures Destroy(s).retryArmed
    ensures var r := OnRetryTimer(Destroy(s));
      && r.readyState == Checking && r.retryArmed && r.sent == s.sent
      && r.settled[|r.settled| - 1].outcome == Rejected(Failure(PortDetached, None))
  {
    DestroyRejectsQueued(s);
  }
}
