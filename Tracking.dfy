/**
 * Request identity: a request is in at most one place. Every request the
 * engine creates gets a fresh id; from then on the id sits in the
 * pre-readiness queue, in flight, in the active queue or among the
 * settlements, and never in two of them, and no promise settles twice.
 * (It may also sit nowhere: markAsReady and destroy drop requests.)
 *
 * The ledger of a state is the multiset of the ids it holds. Each handler
 * is proved to `Account` for its ledger: every id keeps at most the
 * multiplicity it had, except ids the handler issued itself.
 */
module Tracking {
  import opened Frames
  import opened Responses
  import opened Protocol
  import opened ProtocolProperties

  function Ids(reqs: seq<Request>): (ids: seq<nat>)
    ensures |ids| == |reqs| && forall i :: 0 <= i < |reqs| ==> ids[i] == reqs[i].id
  {
    seq(|reqs|, i requires 0 <= i < |reqs| => reqs[i].id)
  }

  function SettledIds(records: seq<Settlement>): (ids: seq<nat>)
    ensures |ids| == |records| && forall i :: 0 <= i < |records| ==> ids[i] == records[i].request.id
  {
    seq(|records|, i requires 0 <= i < |records| => records[i].request.id)
  }

  /** The requests waiting or in flight, in the order the engine holds them. */
  function Pending(s: State): seq<Request> {
    s.readyQueue + InFlight(s) + s.requestQueue
  }

  /** Every id the state holds, with its multiplicity. */
  function Ledger(s: State): multiset<nat> {
    multiset(SettledIds(s.settled)) + multiset(Ids(s.readyQueue))
      + multiset(Ids(InFlight(s))) + multiset(Ids(s.requestQueue))
  }

  /** No id is held twice, and every id held was issued. */
  ghost predicate Tracked(s: State) {
    && (forall id :: Ledger(s)[id] <= 1)
    && (forall id :: id in Ledger(s) ==> id < s.nextId)
  }

  /** Going from s to r, no id gains a copy unless it was issued on the way. */
  ghost predicate Accounts(s: State, r: State) {
    && s.nextId <= r.nextId
    && forall id :: Ledger(r)[id] <= Ledger(s)[id] + (if s.nextId <= id < r.nextId then 1 else 0)
  }

  // ---------------------------------------------------------------------
  // The ledger algebra
  // ---------------------------------------------------------------------

  lemma IdsAppend(a: seq<Request>, b: seq<Request>)
    ensures multiset(Ids(a + b)) == multiset(Ids(a)) + multiset(Ids(b))
  {
    assert Ids(a + b) == Ids(a) + Ids(b);
  }

  lemma SettledIdsAppend(a: seq<Settlement>, b: seq<Settlement>)
    ensures multiset(SettledIds(a + b)) == multiset(SettledIds(a)) + multiset(SettledIds(b))
  {
    assert SettledIds(a + b) == SettledIds(a) + SettledIds(b);
  }

  lemma RejectAllIds(reqs: seq<Request>)
    ensures multiset(SettledIds(RejectAll(reqs))) == multiset(Ids(reqs))
  {
    assert SettledIds(RejectAll(reqs)) == Ids(reqs);
  }

  lemma AccountsRefl(s: State, r: State)
    requires r.nextId == s.nextId && Ledger(r) == Ledger(s)
    ensures Accounts(s, r)
  {
  }

  lemma AccountsTrans(s: State, r: State, t: State)
    requires Accounts(s, r) && Accounts(r, t)
    ensures Accounts(s, t)
  {
    forall id ensures Ledger(t)[id] <= Ledger(s)[id] + (if s.nextId <= id < t.nextId then 1 else 0) {
      assert Ledger(t)[id] <= Ledger(r)[id] + (if r.nextId <= id < t.nextId then 1 else 0);
      assert Ledger(r)[id] <= Ledger(s)[id] + (if s.nextId <= id < r.nextId then 1 else 0);
    }
  }

  /** Accounting keeps ids unique: fresh ids were held nowhere before. */
  lemma AccountsTracked(s: State, r: State)
    requires Tracked(s) && Accounts(s, r)
    ensures Tracked(r)
  {
    forall id ensures Ledger(r)[id] <= 1 && (id in Ledger(r) ==> id < r.nextId) {
      assert Ledger(r)[id] <= Ledger(s)[id] + (if s.nextId <= id < r.nextId then 1 else 0);
      if s.nextId <= id {
        assert id !in Ledger(s);
      }
    }
  }

  // ---------------------------------------------------------------------
  // Handler by handler
  // ---------------------------------------------------------------------

  /** Dispatch moves the head from the active queue into flight: the ledger is unchanged. */
  lemma SendNextLedger(s: State)
    ensures Ledger(SendNext(s)) == Ledger(s) && SendNext(s).nextId == s.nextId
  {
    if s.currentRequest.None? && s.requestQueue != [] {
      assert s.requestQueue == [s.requestQueue[0]] + s.requestQueue[1..];
      IdsAppend([s.requestQueue[0]], s.requestQueue[1..]);
    }
  }

  lemma QueueLedger(s: State, req: Request)
    ensures Ledger(s.(requestQueue := s.requestQueue + [req])) == Ledger(s) + multiset{req.id}
  {
    IdsAppend(s.requestQueue, [req]);
    assert Ids([req]) == [req.id];
  }

  lemma ReadyQueueLedger(s: State, req: Request)
    ensures Ledger(s.(readyQueue := s.readyQueue + [req])) == Ledger(s) + multiset{req.id}
  {
    IdsAppend(s.readyQueue, [req]);
    assert Ids([req]) == [req.id];
  }

  lemma SettleLedger(s: State, x: Settlement)
    ensures Ledger(s.(settled := s.settled + [x])) == Ledger(s) + multiset{x.request.id}
  {
    SettledIdsAppend(s.settled, [x]);
    assert SettledIds([x]) == [x.request.id];
  }

  /** A submission adds exactly the id it issues, queued or settled as refused. */
  lemma SubmitLedger(s: State, frame: seq<byte>, matcher: Matcher, checkingReadiness: bool, purpose: Purpose)
    ensures var r := Submit(s, frame, matcher, checkingReadiness, purpose);
      Ledger(r) == Ledger(s) + multiset{s.nextId} && r.nextId == s.nextId + 1
  {
    var req := NextRequest(s, frame, matcher, purpose);
    match Rejection(s)
    case Some(kind) =>
      var x := Settlement(req, Rejected(Failure(kind, None)));
      assert Submit(s, frame, matcher, checkingReadiness, purpose)
        == s.(nextId := s.nextId + 1, settled := s.settled + [x]);
      SettleLedger(s.(nextId := s.nextId + 1), x);
    case None =>
      var active := checkingReadiness || s.readyState == Ready;
      var s1 := s.(nextId := s.nextId + 1, keepAliveArmed := false);
      assert Submit(s, frame, matcher, checkingReadiness, purpose)
        == if active then SendNext(s1.(requestQueue := s.requestQueue + [req]))
           else SendNext(s1.(readyQueue := s.readyQueue + [req]));
      AcceptedLedger(s, req, active);
  }

  /** The accepted branch of request: push on the chosen queue, then dispatch. */
  lemma AcceptedLedger(s: State, req: Request, active: bool)
    requires req.id == s.nextId
    ensures var s1 := s.(nextId := s.nextId + 1, keepAliveArmed := false);
      var r := if active then SendNext(s1.(requestQueue := s.requestQueue + [req]))
               else SendNext(s1.(readyQueue := s.readyQueue + [req]));
      Ledger(r) == Ledger(s) + multiset{s.nextId}
  {
    var s1 := s.(nextId := s.nextId + 1, keepAliveArmed := false);
    assert Ledger(s1) == Ledger(s);
    if active {
      QueueLedger(s1, req);
      SendNextLedger(s1.(requestQueue := s.requestQueue + [req]));
    } else {
      ReadyQueueLedger(s1, req);
      SendNextLedger(s1.(readyQueue := s.readyQueue + [req]));
    }
  }

  lemma SubmitAccounts(s: State, frame: seq<byte>, matcher: Matcher, checkingReadiness: bool, purpose: Purpose)
    ensures Accounts(s, Submit(s, frame, matcher, checkingReadiness, purpose))
  {
    SubmitLedger(s, frame, matcher, checkingReadiness, purpose);
  }

  /** markAsReady can only drop ids: the replaced active queue. */
  lemma MarkAsReadyAccounts(s: State)
    ensures Accounts(s, MarkAsReady(s))
    ensures Ledger(MarkAsReady(s)) + multiset(Ids(s.requestQueue)) == Ledger(s)
  {
    var s1 := s.(readyState := Ready, requestQueue := s.readyQueue, readyQueue := []);
    SendNextLedger(s1);
    assert Ledger(s1) + multiset(Ids(s.requestQueue)) == Ledger(s);
  }

  /** Settling moves the in-flight id into the settlements: the ledger is unchanged. */
  lemma CompleteLedger(s: State, c: Completion)
    requires s.currentRequest.Some?
    ensures Ledger(Complete(s, c)) == Ledger(s) && Complete(s, c).nextId == s.nextId
  {
    var req := s.currentRequest.value;
    var s1 := s.(currentRequest := None, responseFrame := None,
                 settled := s.settled + [Settlement(req, OutcomeOf(s, c))]);
    SettledIdsAppend(s.settled, [Settlement(req, OutcomeOf(s, c))]);
    assert Ledger(s1) == Ledger(s);
    if |s1.requestQueue| > 0 {
      SendNextLedger(s1);
    }
  }

  lemma ResetFailedAccounts(s: State, f: Failure)
    ensures Accounts(s, ResetFailed(s, f))
  {
    if f.responseFrame.Some? && AllNak(f.responseFrame.value) {
      MarkAsReadyAccounts(s);
    }
  }

  lemma ResetAccounts(s: State)
    ensures Accounts(s, Reset(s))
  {
    var s1 := Submit(s, RESET_FRAME, ResetMatcher, true, ResetProbe);
    SubmitAccounts(s, RESET_FRAME, ResetMatcher, true, ResetProbe);
    if Rejection(s).Some? {
      ResetFailedAccounts(s1, Failure(Rejection(s).value, None));
      AccountsTrans(s, s1, Reset(s));
    }
  }

  lemma CheckReadinessAccounts(s: State)
    ensures Accounts(s, CheckReadiness(s))
  {
    var s0 := s.(readyState := Checking);
    var s1 := Submit(s0, PROBE_FRAME, ProbeMatcher, true, ReadinessProbe);
    assert Ledger(s0) == Ledger(s);
    SubmitLedger(s0, PROBE_FRAME, ProbeMatcher, true, ReadinessProbe);
    assert Ledger(CheckReadiness(s)) == Ledger(s1);
  }

  lemma ContinueAccounts(s: State, req: Request, o: Outcome)
    ensures Accounts(s, Continue(s, req, o))
  {
    match req.purpose
    case ReadinessProbe =>
      if o == Resolved(Number(1)) {
        assert Continue(s, req, o) == MarkAsReady(s);
        MarkAsReadyAccounts(s);
      } else if o.Resolved? {
        assert Continue(s, req, o) == Reset(s);
        ResetAccounts(s);
      }
    case ResetProbe =>
      if o.Rejected? {
        assert Continue(s, req, o) == ResetFailed(s, o.failure);
        ResetFailedAccounts(s, o.failure);
      }
    case Caller =>
    case KeepAlive =>
  }

  lemma HandleResponseAccounts(s: State, c: Completion)
    requires s.currentRequest.Some?
    ensures Accounts(s, HandleResponse(s, c))
  {
    var s1 := Complete(s, c);
    CompleteLedger(s, c);
    ContinueAccounts(s1, s.currentRequest.value, OutcomeOf(s, c));
    AccountsTrans(s, s1, HandleResponse(s, c));
  }

  lemma HandleResponseFrameAccounts(s: State)
    requires s.currentRequest.Some? ==> s.responseFrame.Some?
    ensures Accounts(s, HandleResponseFrame(s))
  {
    if s.currentRequest.Some? {
      match Match(s.currentRequest.value.matcher, s.responseFrame.value)
      case Incomplete =>
      case Invalid(message) => HandleResponseAccounts(s, Fail(InvalidResponse(message)));
      case Matched(v) => HandleResponseAccounts(s, Succeed(v));
    }
  }

  lemma OnReadableAccounts(s: State, chunks: seq<seq<byte>>)
    ensures Accounts(s, OnReadable(s, chunks))
  {
    if s.attached && s.currentRequest.Some? {
      var total := Accumulated(s) + Concat(chunks);
      if |total| > 0 {
        var s1 := s.(responseFrame := Some(total));
        AccountsRefl(s, s1);
        HandleResponseFrameAccounts(s1);
        AccountsTrans(s, s1, HandleResponseFrame(s1));
      }
    }
  }

  /** destroy settles the queued ids, drops the in-flight one, and its continuations hold none. */
  lemma DestroyAccounts(s: State)
    requires s.attached
    ensures Accounts(s, Destroy(s))
    ensures multiset(SettledIds(Destroy(s).settled))
      == multiset(SettledIds(s.settled)) + multiset(Ids(s.readyQueue + s.requestQueue))
    ensures Ledger(Destroy(s)) + multiset(Ids(InFlight(s))) == Ledger(s)
  {
    var queued := s.readyQueue + s.requestQueue;
    SettledIdsAppend(s.settled, RejectAll(queued));
    RejectAllIds(queued);
    IdsAppend(s.readyQueue, s.requestQueue);
    assert Ledger(Release(s)) + multiset(Ids(InFlight(s))) == Ledger(s);
    ContinueAllRejected(Release(s), queued);
  }

  lemma OnOpenAccounts(s: State)
    ensures Accounts(s, OnOpen(s))
  {
    if s.attached {
      CheckReadinessAccounts(s.(portOpen := true, retryArmed := false));
    }
  }

  lemma OnKeepAliveTimerAccounts(s: State)
    requires s.keepAliveArmed
    ensures Accounts(s, OnKeepAliveTimer(s))
  {
    var c := KeepAliveCommand();
    SubmitAccounts(s.(keepAliveArmed := false), c.frame, c.matcher, false, KeepAlive);
  }

  lemma OnRetryTimerAccounts(s: State)
    requires s.retryArmed
    ensures Accounts(s, OnRetryTimer(s))
  {
    CheckReadinessAccounts(s.(retryArmed := false));
  }

  lemma StepAccounts(s: State, e: Event)
    requires Enabled(s, e)
    ensures Accounts(s, Step(s, e))
  {
    match e
    case Open => OnOpenAccounts(s);
    case Close =>
    case Readable(chunks) => OnReadableAccounts(s, chunks);
    case DeadlineElapsed => HandleResponseAccounts(s, Fail(ResponseTimeout));
    case KeepAliveFires => OnKeepAliveTimerAccounts(s);
    case RetryFires => OnRetryTimerAccounts(s);
    case Submitted(frame, matcher, checkingReadiness) =>
      SubmitAccounts(s, frame, matcher, checkingReadiness, Caller);
    case Teardown => DestroyAccounts(s);
  }

  lemma {:induction false} RunTracked(s: State, events: seq<Event>)
    requires Tracked(s)
    ensures Tracked(Run(s, events))
    decreases |events|
  {
    if events != [] {
      var s1 := if Enabled(s, events[0]) then Step(s, events[0]) else s;
      if Enabled(s, events[0]) {
        StepAccounts(s, events[0]);
        AccountsTracked(s, s1);
      }
      RunTracked(s1, events[1..]);
    }
  }

  lemma InitialTracked(portOpen: bool)
    ensures Tracked(Initial(portOpen))
  {
    var s := State(NotReady, portOpen, true, [], [], None, 0, None, false, false, 0, [], []);
    assert Tracked(s);
    if portOpen {
      StepAccounts(s, Open);
      AccountsTracked(s, OnOpen(s));
    }
  }

  // ---------------------------------------------------------------------
  // What the ledger means
  // ---------------------------------------------------------------------

  /** Two equal entries of a sequence count twice in its multiset. */
  lemma {:induction false} CountsTwice(xs: seq<nat>, i: nat, j: nat)
    requires i < j < |xs| && xs[i] == xs[j]
    ensures multiset(xs)[xs[i]] >= 2
  {
    assert xs == xs[..i] + [xs[i]] + xs[i + 1..j] + [xs[j]] + xs[j + 1..];
  }

  /**
   * When the multiset of a + b holds each value at most once, the entries of
   * a are distinct, those of b are distinct, and no entry of b is in a.
   */
  lemma DistinctEntries(a: seq<nat>, b: seq<nat>)
    requires forall x :: multiset(a + b)[x] <= 1
    ensures forall i, j :: 0 <= i < j < |a| ==> a[i] != a[j]
    ensures forall i, j :: 0 <= i < j < |b| ==> b[i] != b[j]
    ensures forall i, k :: 0 <= i < |b| && 0 <= k < |a| ==> b[i] != a[k]
  {
    var all := a + b;
    var n := |a|;
    forall i, j | 0 <= i < j < n ensures a[i] != a[j] {
      if a[i] == a[j] {
        CountsTwice(all, i, j);
      }
    }
    forall i, j | 0 <= i < j < |b| ensures b[i] != b[j] {
      if b[i] == b[j] {
        CountsTwice(all, n + i, n + j);
      }
    }
    forall i, k | 0 <= i < |b| && 0 <= k < n ensures b[i] != a[k] {
      if b[i] == a[k] {
        CountsTwice(all, k, n + i);
      }
    }
  }

  /**
   * In a tracked state the settlements name distinct requests, the pending
   * requests are distinct, no pending request has been settled, and every
   * pending id was issued.
   */
  lemma TrackedDistinct(s: State)
    requires Tracked(s)
    ensures forall i, j :: 0 <= i < j < |s.settled| ==> s.settled[i].request.id != s.settled[j].request.id
    ensures forall i, j :: 0 <= i < j < |Pending(s)| ==> Pending(s)[i].id != Pending(s)[j].id
    ensures forall i, k :: 0 <= i < |Pending(s)| && 0 <= k < |s.settled| ==>
      Pending(s)[i].id != s.settled[k].request.id
    ensures forall i :: 0 <= i < |Pending(s)| ==> Pending(s)[i].id < s.nextId
  {
    LedgerInOrder(s);
    DistinctEntries(SettledIds(s.settled), Ids(Pending(s)));
    PendingIssued(s);
  }

  /** The ledger is the multiset of the settled ids followed by the pending ids. */
  lemma LedgerInOrder(s: State)
    ensures multiset(SettledIds(s.settled) + Ids(Pending(s))) == Ledger(s)
  {
    IdsAppend(s.readyQueue, InFlight(s));
    IdsAppend(s.readyQueue + InFlight(s), s.requestQueue);
  }

  lemma PendingIssued(s: State)
    requires Tracked(s)
    ensures forall i :: 0 <= i < |Pending(s)| ==> Pending(s)[i].id < s.nextId
  {
    var pending := Ids(Pending(s));
    IdsAppend(s.readyQueue, InFlight(s));
    IdsAppend(s.readyQueue + InFlight(s), s.requestQueue);
    assert multiset(pending) <= Ledger(s);
    forall i | 0 <= i < |Pending(s)| ensures Pending(s)[i].id < s.nextId {
      assert pending[i] in multiset(pending);
    }
  }

  /**
   * On every run from construction no request is ever in two places, and no
   * promise settles twice; all ids held were issued by the engine.
   */
  lemma SettlesAtMostOnce(portOpen: bool, events: seq<Event>)
    ensures var s := Run(Initial(portOpen), events);
      && (forall i, j :: 0 <= i < j < |s.settled| ==> s.settled[i].request.id != s.settled[j].request.id)
      && (forall i, j :: 0 <= i < j < |Pending(s)| ==> Pending(s)[i].id != Pending(s)[j].id)
      && (forall i, k :: 0 <= i < |Pending(s)| && 0 <= k < |s.settled| ==>
            Pending(s)[i].id != s.settled[k].request.id)
      && (forall i :: 0 <= i < |Pending(s)| ==> Pending(s)[i].id < s.nextId)
  {
    InitialTracked(portOpen);
    RunTracked(Initial(portOpen), events);
    TrackedDistinct(Run(Initial(portOpen), events));
  }
}
