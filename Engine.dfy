/**
 * The Commander object of lib/Commander.js as a class: its fields are the
 * ones the JavaScript object mutates, and every method is proved to take the
 * object from state `old(Model())` to the state the matching function of
 * Protocol.dfy computes, so every property proved about those functions
 * holds of the object.
 */
module Engine {
  import opened Frames
  import opened Responses
  import opened Commands
  import opened Protocol

  /** The fold of reset's catch block: true iff every byte of the frame is NAK. */
  method ScanNak(frame: seq<byte>) returns (nak: bool)
    ensures nak <==> AllNak(frame)
  {
    nak := true;
    var i := 0;
    while i < |frame|
      invariant 0 <= i <= |frame|
      invariant nak <==> forall k :: 0 <= k < i ==> frame[k] == NAK
    {
      nak := nak && frame[i] == NAK;
      i := i + 1;
    }
  }

  /** Buffer.writeUInt16BE for an in-range word: the two bytes, high byte first, at `at`. */
  method WriteUint16BE(buf: array<byte>, w: uint16, at: nat)
    requires at + 2 <= buf.Length
    modifies buf
    ensures buf[..at + 2] == old(buf[..at]) + Uint16BE(w)
    ensures buf[at + 2..] == old(buf[at + 2..])
  {
    buf[at], buf[at + 1] := w / 0x100, w % 0x100;
    assert buf[..at + 2] == buf[..at] + [buf[at], buf[at + 1]];
  }

  /**
   * The `forEach` of requestWithWords: writes word i at offset 2 + 2 * i
   * after the command word already written, and stops at the first word
   * out of range, returning it.
   */
  method WriteWords(frame: array<byte>, cmd: uint16, words: seq<int>) returns (refused: Option<int>)
    requires frame.Length == 2 + 2 * |words| && frame[..2] == Uint16BE(cmd)
    modifies frame
    ensures refused.None? <==> AllUint16([cmd as int] + words)
    ensures refused.None? ==> frame[..] == WordsBE(AsWords([cmd as int] + words))
    ensures refused.Some? ==> refused.value == FirstOutOfRange([cmd as int] + words)
  {
    ghost var written: seq<int> := [cmd as int];
    assert frame[..2] == WordsBE(AsWords(written)) by {
      assert AsWords(written) == [cmd];
    }
    var i := 0;
    while i < |words|
      invariant 0 <= i <= |words|
      invariant written == [cmd as int] + words[..i]
      invariant AllUint16(written)
      invariant frame[..2 + 2 * i] == WordsBE(AsWords(written))
    {
      var w := words[i];
      if !IsUint16(w) {
        assert ([cmd as int] + words)[..i + 1] == written;
        FirstOutOfRangeAt([cmd as int] + words, i + 1);
        return Some(w);
      }
      WriteUint16BE(frame, w, 2 + 2 * i);
      LayoutSnoc(written, w);
      assert words[..i + 1] == words[..i] + [w];
      written := written + [w];
      i := i + 1;
    }
    assert words[..i] == words;
    assert frame[..] == frame[..2 + 2 * i];
    refused := None;
  }

  /**
   * The frame-building half of requestWithWords: allocates 2 + 2 * |words|
   * bytes and writes `cmd`, then the words, big-endian; the first value
   * outside 0..0xFFFF stops the writing, as writeUInt16BE throws on it.
   */
  method EncodeWords(cmd: int, words: seq<int>, matcher: Option<Matcher>) returns (r: Result<Command>)
    ensures r == WordsCommand(cmd, words, matcher)
  {
    if !IsUint16(cmd) {
      FirstOutOfRangeAt([cmd] + words, 0);
      return Err(cmd);
    }
    var frame := new byte[2 + 2 * |words|];
    WriteUint16BE(frame, cmd, 0);
    var refused := WriteWords(frame, cmd, words);
    if refused.Some? {
      return Err(refused.value);
    }
    r := Ok(Command(frame[..], if matcher.Some? then matcher.value else AckMatcher));
  }

  class Commander {
    var readyState: ReadyState
    var portOpen: bool
    var attached: bool
    var readyQueue: seq<Request>
    var requestQueue: seq<Request>
    var currentRequest: Option<Request>
    var responseTimeout: nat
    var responseFrame: Option<seq<byte>>
    var keepAliveArmed: bool
    var retryArmed: bool
    var nextId: nat
    var sent: seq<seq<byte>>
    var settled: seq<Settlement>

    /** The object's fields as a Protocol state. */
    function Model(): State
      reads this
    {
      State(readyState, portOpen, attached, readyQueue, requestQueue, currentRequest,
            responseTimeout, responseFrame, keepAliveArmed, retryArmed, nextId, sent, settled)
    }

    /** new Commander(serialPort): registers the listeners; an open port runs onOpen at once. */
    constructor(isOpen: bool)
      ensures Model() == Initial(isOpen)
    {
      readyState := NotReady;
      portOpen := isOpen;
      attached := true;
      readyQueue := [];
      requestQueue := [];
      currentRequest := None;
      responseTimeout := 0;
      responseFrame := None;
      keepAliveArmed := false;
      retryArmed := false;
      nextId := 0;
      sent := [];
      settled := [];
      new;
      if isOpen {
        OnOpen();
      }
    }

    method SendNextRequest()
      modifies this
      ensures Model() == SendNext(old(Model()))
    {
      if currentRequest.Some? {
        return;
      }
      if |requestQueue| == 0 {
        return;
      }
      var req := requestQueue[0];
      currentRequest := Some(req);
      requestQueue := requestQueue[1..];
      responseTimeout := if readyState == Checking then CHECKING_RESPONSE_TIMEOUT else RESPONSE_TIMEOUT;
      sent := sent + [req.frame];
    }

    /** A step of Request: its guards, in the source's order (no row of its own). */
    method Refusal() returns (refusal: Option<ErrorKind>)
      ensures refusal == Rejection(Model())
    {
      if readyState == Destroyed {
        refusal := Some(DestroyedError);
      } else if !attached {
        refusal := Some(PortDetached);
      } else if !portOpen {
        refusal := Some(NoConnection);
      } else {
        refusal := None;
      }
    }

    /**
     * request: returns the error it rejected with at once, or None when the
     * request was queued.
     */
    method Request(frame: seq<byte>, matcher: Matcher, checkingReadiness: bool, purpose: Purpose)
      returns (refusal: Option<ErrorKind>)
      modifies this
      ensures refusal == Rejection(old(Model()))
      ensures Model() == Submit(old(Model()), frame, matcher, checkingReadiness, purpose)
    {
      refusal := Refusal();
      var req := Protocol.Request(nextId, frame, matcher, purpose);
      nextId := nextId + 1;
      if refusal.Some? {
        settled := settled + [Settlement(req, Rejected(Failure(refusal.value, None)))];
        return;
      }
      keepAliveArmed := false;
      if checkingReadiness || readyState == Ready {
        requestQueue := requestQueue + [req];
      } else {
        readyQueue := readyQueue + [req];
      }
      SendNextRequest();
    }

    /**
     * requestWithWords: encodes the frame and submits it; an out-of-range
     * value throws before anything is queued.
     */
    method RequestWithWords(cmd: int, words: seq<int>, matcher: Option<Matcher>, purpose: Purpose)
      returns (r: Result<Command>)
      modifies this
      ensures r == WordsCommand(cmd, words, matcher)
      ensures r.Ok? ==> Model() == Submit(old(Model()), r.value.frame, r.value.matcher, false, purpose)
      ensures r.Err? ==> Model() == old(Model())
    {
      r := EncodeWords(cmd, words, matcher);
      if r.Ok? {
        var _ := Request(r.value.frame, r.value.matcher, false, purpose);
      }
    }

    method MarkAsReady()
      modifies this
      ensures Model() == Protocol.MarkAsReady(old(Model()))
    {
      readyState := Ready;
      requestQueue := readyQueue;
      readyQueue := [];
      SendNextRequest();
    }

    /** The catch block of reset, given the rejection. */
    method ResetFailed(f: Failure)
      modifies this
      ensures Model() == Protocol.ResetFailed(old(Model()), f)
    {
      if f.responseFrame.Some? {
        var nak := ScanNak(f.responseFrame.value);
        if nak {
          MarkAsReady();
          return;
        }
      }
      retryArmed := true;
    }

    method Reset()
      modifies this
      ensures Model() == Protocol.Reset(old(Model()))
    {
      var refusal := Request(RESET_FRAME, ResetMatcher, true, ResetProbe);
      if refusal.Some? {
        ResetFailed(Failure(refusal.value, None));
      }
    }

    method CheckReadiness()
      modifies this
      ensures Model() == Protocol.CheckReadiness(old(Model()))
    {
      readyState := Checking;
      var refusal := Request(PROBE_FRAME, ProbeMatcher, true, ReadinessProbe);
      if refusal.Some? {
        retryArmed := true;
      }
    }

    /** The code after `await` in checkReadiness or reset, once `req` settled with `o`. */
    method Continue(req: Request, o: Outcome)
      modifies this
      ensures Model() == Protocol.Continue(old(Model()), req, o)
    {
      match req.purpose
      case ReadinessProbe =>
        if o == Resolved(Number(1)) {
          MarkAsReady();
        } else if o.Resolved? {
          Reset();
        } else {
          retryArmed := true;
        }
      case ResetProbe =>
        if o.Rejected? {
          ResetFailed(o.failure);
        }
      case Caller =>
      case KeepAlive =>
    }

    /**
     * The bookkeeping half of handleResponse: clears the slot and the frame,
     * settles the request (an error carries the accumulated frame), then
     * dispatches or arms the keep-alive.
     */
    method Complete(c: Completion) returns (req: Request, outcome: Outcome)
      requires currentRequest.Some?
      modifies this
      ensures req == old(currentRequest.value) && outcome == OutcomeOf(old(Model()), c)
      ensures Model() == Protocol.Complete(old(Model()), c)
    {
      req := currentRequest.value;
      if c.Fail? {
        outcome := Rejected(Failure(c.kind, responseFrame));
      } else {
        outcome := Resolved(c.value);
      }
      currentRequest := None;
      responseFrame := None;
      settled := settled + [Settlement(req, outcome)];
      assert Model() == old(Model()).(currentRequest := None, responseFrame := None,
                                      settled := old(settled) + [Settlement(req, outcome)]);
      if |requestQueue| > 0 {
        SendNextRequest();
      } else {
        keepAliveArmed := true;
      }
    }

    /** handleResponse, followed by the continuation of whoever awaited the request. */
    method HandleResponse(c: Completion)
      requires currentRequest.Some?
      modifies this
      ensures Model() == Protocol.HandleResponse(old(Model()), c)
    {
      var req, outcome := Complete(c);
      Continue(req, outcome);
    }

    method HandleResponseFrame()
      requires currentRequest.Some? ==> responseFrame.Some?
      modifies this
      ensures Model() == Protocol.HandleResponseFrame(old(Model()))
    {
      if currentRequest.None? {
        return;
      }
      var m := Match(currentRequest.value.matcher, responseFrame.value);
      match m
      case Incomplete =>
      case Invalid(message) =>
        HandleResponse(Fail(InvalidResponse(message)));
      case Matched(v) =>
        HandleResponse(Succeed(v));
    }

    /** onReadable: `chunks` are what successive serialPort.read() calls return before null. */
    method OnReadable(chunks: seq<seq<byte>>)
      modifies this
      ensures Model() == Protocol.OnReadable(old(Model()), chunks)
    {
      if !attached || currentRequest.None? {
        return;
      }
      ghost var s0 := Model();
      var total := if responseFrame.Some? then responseFrame.value else [];
      var i := 0;
      while i < |chunks|
        invariant 0 <= i <= |chunks|
        invariant total == Accumulated(s0) + Concat(chunks[..i])
        invariant Model() == s0
      {
        assert chunks[..i + 1][..i] == chunks[..i];
        AppendAssoc(Accumulated(s0), Concat(chunks[..i]), chunks[i]);
        total := total + chunks[i];
        i := i + 1;
      }
      assert chunks[..i] == chunks;
      if |total| > 0 {
        responseFrame := Some(total);
        assert Model() == s0.(responseFrame := Some(total));
        HandleResponseFrame();
      }
    }

    /** The response timer of the request in flight fired. */
    method OnTimeout()
      requires currentRequest.Some?
      modifies this
      ensures Model() == Protocol.OnTimeout(old(Model()))
    {
      HandleResponse(Fail(ResponseTimeout));
    }

    /** The keep-alive timer fired: keepAlive asks for pixel 0, 0 and ignores the answer. */
    method KeepAlive()
      requires keepAliveArmed
      modifies this
      ensures Model() == OnKeepAliveTimer(old(Model()))
    {
      keepAliveArmed := false;
      var r := RequestWithWords(0xFFCA, [0, 0], Some(PixelMatcher), Protocol.KeepAlive);
      assert AllUint16([0xFFCA] + [0, 0]);
    }

    /** The retry timer fired: checkReadiness runs again. */
    method OnRetryTimer()
      requires retryArmed
      modifies this
      ensures Model() == Protocol.OnRetryTimer(old(Model()))
    {
      retryArmed := false;
      CheckReadiness();
    }

    method OnOpen()
      modifies this
      ensures Model() == Protocol.OnOpen(old(Model()))
    {
      if !attached {
        return;
      }
      portOpen := true;
      retryArmed := false;
      CheckReadiness();
    }

    method OnClose()
      modifies this
      ensures Model() == Protocol.OnClose(old(Model()))
    {
      if !attached {
        return;
      }
      portOpen := false;
      readyState := NotReady;
    }

    /** The continuations of requests destroy rejected, in rejection order. */
    method ContinueRejected(rejected: seq<Request>)
      modifies this
      ensures Model() == ContinueAll(old(Model()), rejected)
    {
      ghost var released := Model();
      var i := 0;
      while i < |rejected|
        invariant 0 <= i <= |rejected|
        invariant Model() == ContinueAll(released, rejected[..i])
      {
        assert rejected[..i + 1][..i] == rejected[..i];
        Continue(rejected[i], Rejected(Failure(DestroyedError, None)));
        i := i + 1;
      }
      assert rejected[..i] == rejected;
    }

    /**
     * destroy: rejects the queued requests in order, releases the port and
     * the timers; the continuations of the rejected requests run afterwards.
     */
    method Destroy()
      requires attached
      modifies this
      ensures Model() == Protocol.Destroy(old(Model()))
    {
      readyState := Destroyed;
      currentRequest := None;
      var rejected := readyQueue + requestQueue;
      var records: seq<Settlement> := [];
      var i := 0;
      while i < |rejected|
        invariant 0 <= i <= |rejected|
        invariant records == RejectAll(rejected[..i])
      {
        records := records + [Settlement(rejected[i], Rejected(Failure(DestroyedError, None)))];
        i := i + 1;
      }
      assert rejected[..i] == rejected;
      settled := settled + records;
      readyQueue := [];
      requestQueue := [];
      attached := false;
      keepAliveArmed := false;
      retryArmed := false;
      assert Model() == Release(old(Model()));
      ContinueRejected(rejected);
    }
  }
}
