/**
 One end of a duplex peer connection: outbound calls waiting for responses,
 inbound requests with their handlers, the bounded write queue, and closing. Each
 step is one critical section of the program; threads interleave them freely.
 */
module Peer {
  import opened Base

  datatype Response = Response(requestId: string, ok: bool, body: string)

  datatype CloseReason =
    | Requested | LeaseEnded | Disconnected | ProtocolError | HandshakeTimeout | Backpressure

  datatype Frame = RequestFrame(id: string) | ResponseFrame(id: string) | CancelFrame(id: string)

  /** What the caller of one request is doing. */
  datatype CallState = Waiting | Elapsed | Forgotten | Returned(response: Response)

  /** A call whose frame was queued, and the message in its channel, if any. */
  datatype Call = Call(requestId: string, state: CallState, inbox: Option<Response>)

  /** How far the thread of an inbound request has come. */
  datatype Stage = Admitted | Checked | Running | Responding | Answered

  datatype Handler = Handler(cancelled: bool, stage: Stage)

  datatype Limits = Limits(outbound: nat, inbound: nat, queued: nat)

  /**
   `failed` is why the reader stopped. `transit` holds messages whose call was taken
   out of `pending` and whose channel send is still to come. `written` and `heard`
   record the frames written and the responses read.
   */
  datatype Shared = Shared(
    scoped: bool, limits: Limits, ready: bool, services: set<string>,
    closed: Option<CloseReason>, failed: Option<CloseReason>,
    pending: map<string, string>, transit: map<string, Response>, calls: map<string, Call>,
    inbound: map<string, Handler>, outgoing: seq<Frame>,
    written: seq<Frame>, heard: set<(string, Response)>)

  function Start(scoped: bool, limits: Limits): Shared {
    Shared(scoped, limits, false, {}, None, None, map[], map[], map[], map[], [], [], {})
  }

  /** The response to a call whose outcome cannot be known. */
  function UnknownOutcome(requestId: string): Response { Response(requestId, false, "PEER_OUTCOME_UNKNOWN") }

  // ----- Critical sections -----

  datatype Refusal = NotReady | ServiceUnavailable | OutboundLimit | QueueFull

  function Refuses(s: Shared, service: string): Option<Refusal> {
    if s.closed.Some? || !s.ready then Some(NotReady)
    else if service !in s.services then Some(ServiceUnavailable)
    else if |s.pending| >= s.limits.outbound then Some(OutboundLimit)
    else if |s.outgoing| >= s.limits.queued then Some(QueueFull)
    else None
  }

  /** Register the call and queue its frame, or do neither. */
  function BeginCall(s: Shared, id: string, requestId: string, service: string): Shared {
    if Refuses(s, service).Some? then s
    else
      s.(pending := s.pending[id := requestId], outgoing := s.outgoing + [RequestFrame(id)],
         calls := s.calls[id := Call(requestId, Waiting, None)])
  }

  /** The first close wins: it cancels every inbound request and takes every pending call. */
  function Close(s: Shared, reason: CloseReason): (r: Shared)
    ensures r.calls == s.calls && r.inbound.Keys == s.inbound.Keys
    ensures r.closed == if s.closed.Some? then s.closed else Some(reason)
    ensures s.closed.Some? ==> r == s
    ensures forall id :: id in s.inbound ==> r.inbound[id].stage == s.inbound[id].stage
  {
    if s.closed.Some? then s
    else
      s.(closed := Some(reason),
         inbound := map id | id in s.inbound :: s.inbound[id].(cancelled := true),
         transit := s.transit + map id | id in s.pending :: UnknownOutcome(s.pending[id]),
         pending := map[])
  }

  /** How far a frame gets: the liveness condition before it fails, it exceeds the frame
      limit, or it is encoded. */
  datatype Attempt = NotLive | TooLong | Encoded

  /** Queue a frame that is not a request: dropped when not live or too long, and a full
      queue is fatal. */
  function Send(s: Shared, f: Frame, attempt: Attempt): (r: Shared)
    ensures r.calls == s.calls && r.inbound.Keys == s.inbound.Keys
    ensures s.closed.Some? ==> r.closed == s.closed && r.inbound == s.inbound
    ensures forall id :: id in s.inbound ==> r.inbound[id].stage == s.inbound[id].stage
  {
    if attempt.NotLive? then Close(s, LeaseEnded)
    else if attempt.TooLong? then s
    else if |s.outgoing| >= s.limits.queued then Close(s, Backpressure)
    else s.(outgoing := s.outgoing + [f])
  }

  /** A response frame was read; a wrong identity on the scoped protocol stops the reader. */
  function Hear(s: Shared, id: string, r: Response): Shared {
    var h := s.(heard := s.heard + {(id, r)});
    if id !in s.pending then h
    else if s.scoped && r.requestId != s.pending[id] then
      h.(pending := h.pending - {id}, transit := h.transit[id := UnknownOutcome(s.pending[id])],
         failed := Some(ProtocolError))
    else
      h.(pending := h.pending - {id}, transit := h.transit[id := r])
  }

  function SetCall(s: Shared, id: string, state: CallState): Shared
    requires id in s.calls
  {
    s.(calls := s.calls[id := s.calls[id].(state := state)])
  }

  /** A message reaches the channel of its call. */
  function Deliver(s: Shared, id: string): Shared
    requires id in s.transit
  {
    var told := s.(transit := s.transit - {id});
    if id in s.calls then told.(calls := s.calls[id := s.calls[id].(inbox := Some(s.transit[id]))]) else told
  }

  /** The caller gives up and, on the scoped protocol, asks the peer to cancel. */
  function GiveUp(s: Shared, id: string, attempt: Attempt): Shared
    requires id in s.calls
  {
    SetCall(if s.scoped then Send(s, CancelFrame(id), attempt) else s, id, Returned(UnknownOutcome(s.calls[id].requestId)))
  }

  /** A request frame was read and names an exposed service. */
  function Admit(s: Shared, id: string, attempt: Attempt): Shared {
    if id in s.inbound then s.(failed := Some(ProtocolError))
    else if |s.inbound| >= s.limits.inbound then Send(s, ResponseFrame(id), attempt)
    else s.(inbound := s.inbound[id := Handler(false, Admitted)])
  }

  function SetStage(s: Shared, id: string, stage: Stage): Shared
    requires id in s.inbound
  {
    s.(inbound := s.inbound[id := s.inbound[id].(stage := stage)])
  }

  /** The liveness check of the thread of an inbound request. */
  function Check(s: Shared, id: string, leaseEnded: bool): Shared
    requires id in s.inbound
  {
    if leaseEnded then SetStage(Close(s, LeaseEnded), id, Responding)
    else SetStage(s, id, if s.closed.Some? then Responding else Checked)
  }

  datatype Step =
    | HandshakeDone(services: set<string>)
    | CallStep(id: string, requestId: string, service: string)
    | HearResponse(id: string, r: Response)
    | DeliverMessage(id: string)
    | Receive(id: string)
    | Elapse(id: string)
    | Forget(id: string)
    | GiveUpCall(id: string, attempt: Attempt)
    | CloseStep(reason: CloseReason)
    | Write
    | AdmitRequest(id: string, attempt: Attempt)
    | CheckRequest(id: string, leaseEnded: bool)
    | Dispatch(id: string, authorized: bool)
    | HandlerDone(id: string)
    | CancelRequest(id: string)
    | Respond(id: string, attempt: Attempt)
    | Retire(id: string)

  predicate InState(s: Shared, id: string, state: CallState) { id in s.calls && s.calls[id].state == state }

  predicate InStage(s: Shared, id: string, stage: Stage) { id in s.inbound && s.inbound[id].stage == stage }

  predicate Enabled(s: Shared, step: Step) {
    match step
    case HandshakeDone(_) => !s.ready
    case CallStep(id, _, _) => id !in s.calls
    case HearResponse(_, _) => s.failed.None?
    case DeliverMessage(id) => id in s.transit
    case Receive(id) => InState(s, id, Waiting) && s.calls[id].inbox.Some?
    case Elapse(id) => InState(s, id, Waiting) && s.calls[id].inbox.None?
    case Forget(id) => InState(s, id, Elapsed)
    case GiveUpCall(id, _) => InState(s, id, Forgotten)
    case CloseStep(_) => true
    case Write => s.outgoing != []
    case AdmitRequest(_, _) => s.failed.None?
    case CheckRequest(id, _) => InStage(s, id, Admitted)
    case Dispatch(id, _) => InStage(s, id, Checked)
    case HandlerDone(id) => InStage(s, id, Running)
    case CancelRequest(id) => s.failed.None? && s.scoped && id in s.inbound
    case Respond(id, _) => InStage(s, id, Responding)
    case Retire(id) => InStage(s, id, Answered)
  }

  /** The inbound table after a step of a closed connection. */
  function InboundStep(s: Shared, step: Step): map<string, Handler>
    requires Enabled(s, step)
  {
    match step
    case AdmitRequest(id, _) =>
      if id in s.inbound || |s.inbound| >= s.limits.inbound then s.inbound else s.inbound[id := Handler(false, Admitted)]
    case CheckRequest(id, _) => s.inbound[id := s.inbound[id].(stage := Responding)]
    case Dispatch(id, authorized) =>
      s.inbound[id := s.inbound[id].(stage := if !authorized || s.inbound[id].cancelled then Responding else Running)]
    case HandlerDone(id) => s.inbound[id := s.inbound[id].(stage := Responding)]
    case CancelRequest(id) => s.inbound[id := s.inbound[id].(cancelled := true)]
    case Respond(id, _) => s.inbound[id := s.inbound[id].(stage := Answered)]
    case Retire(id) => s.inbound - {id}
    case _ => s.inbound
  }

  /** The steps of the threads that serve inbound requests. */
  predicate Serves(step: Step) {
    || step.AdmitRequest? || step.CheckRequest? || step.Dispatch? || step.HandlerDone? || step.CancelRequest?
    || step.Respond? || step.Retire?
  }

  function Serve(s: Shared, step: Step): (t: Shared)
    requires Enabled(s, step) && Serves(step)
    ensures s.closed.Some? ==> t.closed == s.closed && t.inbound == InboundStep(s, step)
    ensures t.calls == s.calls
  {
    match step
    case AdmitRequest(id, attempt) => Admit(s, id, attempt)
    case CheckRequest(id, leaseEnded) => Check(s, id, leaseEnded)
    case Dispatch(id, authorized) =>
      SetStage(s, id, if !authorized || s.inbound[id].cancelled then Responding else Running)
    case HandlerDone(id) => SetStage(s, id, Responding)
    case CancelRequest(id) => s.(inbound := s.inbound[id := s.inbound[id].(cancelled := true)])
    case Respond(id, attempt) => SetStage(Send(s, ResponseFrame(id), attempt), id, Answered)
    case Retire(id) => s.(inbound := s.inbound - {id})
  }

  /** The steps of callers, of the reader of responses, of the writer and of a close. */
  function Carry(s: Shared, step: Step): (t: Shared)
    requires Enabled(s, step) && !Serves(step)
    ensures s.closed.Some? ==> t.closed == s.closed && t.inbound == s.inbound
  {
    match step
    case HandshakeDone(services) => if s.closed.Some? then s else s.(ready := true, services := services)
    case CallStep(id, requestId, service) => BeginCall(s, id, requestId, service)
    case HearResponse(id, r) => Hear(s, id, r)
    case DeliverMessage(id) => Deliver(s, id)
    case Receive(id) => SetCall(s, id, Returned(s.calls[id].inbox.value))
    case Elapse(id) => SetCall(s, id, Elapsed)
    case Forget(id) => SetCall(s.(pending := s.pending - {id}), id, Forgotten)
    case GiveUpCall(id, attempt) => GiveUp(s, id, attempt)
    case CloseStep(reason) => Close(s, reason)
    case Write => s.(outgoing := s.outgoing[1..], written := s.written + [s.outgoing[0]])
  }

  function Take(s: Shared, step: Step): (t: Shared)
    requires Enabled(s, step)
    ensures s.closed.Some? ==> t.closed == s.closed && t.inbound == InboundStep(s, step)
  {
    if Serves(step) then Serve(s, step) else Carry(s, step)
  }

  // ----- The invariant, part by part -----

  /** A message for a call is an unknown outcome or the response frame of its own id. */
  ghost predicate Own(scoped: bool, heard: set<(string, Response)>, id: string, requestId: string, r: Response) {
    r == UnknownOutcome(requestId) || ((id, r) in heard && (scoped ==> r.requestId == requestId))
  }

  ghost predicate GoodCall(scoped: bool, heard: set<(string, Response)>, id: string, call: Call) {
    && (call.inbox.Some? ==> Own(scoped, heard, id, call.requestId, call.inbox.value))
    && (call.state.Returned? ==> Own(scoped, heard, id, call.requestId, call.state.response))
  }

  ghost predicate CallsGood(scoped: bool, heard: set<(string, Response)>, calls: map<string, Call>) {
    forall id :: id in calls ==> GoodCall(scoped, heard, id, calls[id])
  }

  /** A caller that waits has been told, is about to be told, or can still be told. */
  ghost predicate NoneStranded(pending: map<string, string>, transit: map<string, Response>, calls: map<string, Call>) {
    forall id :: id in calls && calls[id].state.Waiting? && calls[id].inbox.None? ==> id in pending || id in transit
  }

  ghost predicate PendingGood(pending: map<string, string>, calls: map<string, Call>) {
    forall id :: id in pending ==> id in calls && calls[id].requestId == pending[id] && calls[id].inbox.None?
  }

  ghost predicate TransitGood(
    scoped: bool, heard: set<(string, Response)>, pending: map<string, string>, transit: map<string, Response>,
    calls: map<string, Call>)
  {
    forall id :: id in transit ==>
      && id !in pending && id in calls && calls[id].inbox.None?
      && Own(scoped, heard, id, calls[id].requestId, transit[id])
  }

  /** After a close, every handler that was let past the checks has been cancelled. */
  ghost predicate CancelledWhenClosed(closed: Option<CloseReason>, inbound: map<string, Handler>) {
    closed.Some? ==>
      forall id :: id in inbound && (inbound[id].stage.Checked? || inbound[id].stage.Running?) ==> inbound[id].cancelled
  }

  /** Frames were queued for exactly the calls that were registered, once each. */
  ghost predicate QueuedOnce(queued: seq<Frame>, calls: map<string, Call>) {
    && (forall id :: id in calls ==> RequestFrame(id) in queued)
    && (forall i :: 0 <= i < |queued| && queued[i].RequestFrame? ==> queued[i].id in calls)
    && (forall i, j :: 0 <= i < j < |queued| && queued[i].RequestFrame? ==> queued[i] != queued[j])
  }

  ghost predicate Bounded(s: Shared) {
    |s.pending| <= s.limits.outbound && |s.inbound| <= s.limits.inbound && |s.outgoing| <= s.limits.queued
  }

  ghost predicate Good(s: Shared) {
    && (s.closed.Some? ==> s.pending == map[])
    && Bounded(s) && CancelledWhenClosed(s.closed, s.inbound)
    && CallsGood(s.scoped, s.heard, s.calls) && NoneStranded(s.pending, s.transit, s.calls)
    && PendingGood(s.pending, s.calls) && TransitGood(s.scoped, s.heard, s.pending, s.transit, s.calls)
    && QueuedOnce(s.written + s.outgoing, s.calls)
  }

  // ----- Every step keeps it -----

  lemma RemovedSmaller<K, V>(m: map<K, V>, k: K)
    ensures |m - {k}| <= |m|
  {
    if k in m {
      assert |m.Keys - {k}| == |m.Keys| - 1;
      assert (m - {k}).Keys == m.Keys - {k};
    } else {
      assert m - {k} == m;
    }
  }

  lemma UpdatedSameSize<K, V>(m: map<K, V>, k: K, v: V)
    requires k in m
    ensures |m[k := v]| == |m|
  {
    assert m[k := v].Keys == m.Keys;
    assert |m[k := v]| == |m[k := v].Keys| && |m| == |m.Keys|;
  }

  lemma AddedOneLarger<K, V>(m: map<K, V>, k: K, v: V)
    ensures |m[k := v]| <= |m| + 1
  {
    assert m[k := v].Keys == m.Keys + {k};
    assert |m[k := v]| == |m[k := v].Keys| && |m| == |m.Keys|;
  }

  /** Queueing a new request frame together with its call. */
  lemma QueueRequest(queued: seq<Frame>, calls: map<string, Call>, id: string, call: Call)
    requires QueuedOnce(queued, calls) && id !in calls
    ensures QueuedOnce(queued + [RequestFrame(id)], calls[id := call])
  {
    var q := queued + [RequestFrame(id)];
    forall k | k in calls[id := call] ensures RequestFrame(k) in q {
      if k == id {
        assert q[|queued|] == RequestFrame(id);
      } else {
        assert RequestFrame(k) in queued;
      }
    }
  }

  lemma QueueOther(queued: seq<Frame>, calls: map<string, Call>, f: Frame)
    requires QueuedOnce(queued, calls) && !f.RequestFrame?
    ensures QueuedOnce(queued + [f], calls)
  {
    forall k | k in calls ensures RequestFrame(k) in queued + [f] {
      assert RequestFrame(k) in queued;
    }
  }

  lemma QueuedSameCalls(queued: seq<Frame>, calls: map<string, Call>, calls': map<string, Call>)
    requires QueuedOnce(queued, calls) && calls.Keys == calls'.Keys
    ensures QueuedOnce(queued, calls')
  {
    forall k | k in calls' ensures RequestFrame(k) in queued {
      assert k in calls.Keys;
    }
    forall i | 0 <= i < |queued| && queued[i].RequestFrame? ensures queued[i].id in calls' {
      assert queued[i].id in calls.Keys;
    }
  }

  lemma BeginCallKeeps(s: Shared, id: string, requestId: string, service: string)
    requires Good(s) && id !in s.calls
    ensures Good(BeginCall(s, id, requestId, service))
  {
    hide QueuedOnce, Own;
    if Refuses(s, service).None? {
      var call := Call(requestId, Waiting, None);
      AddedOneLarger(s.pending, id, requestId);
      QueueRequest(s.written + s.outgoing, s.calls, id, call);
      assert s.written + (s.outgoing + [RequestFrame(id)]) == s.written + s.outgoing + [RequestFrame(id)];
    }
  }

  lemma CloseTransit(s: Shared)
    requires Good(s)
    ensures var transit := s.transit + map id | id in s.pending :: UnknownOutcome(s.pending[id]);
      NoneStranded(map[], transit, s.calls) && TransitGood(s.scoped, s.heard, map[], transit, s.calls)
  {
    hide QueuedOnce, CallsGood, Bounded, CancelledWhenClosed;
  }

  lemma CloseKeeps(s: Shared, reason: CloseReason)
    requires Good(s)
    ensures Good(Close(s, reason))
  {
    hide QueuedOnce, CallsGood, NoneStranded, TransitGood;
    if s.closed.None? {
      var s' := Close(s, reason);
      assert s'.inbound.Keys == s.inbound.Keys;
      assert |s'.inbound| == |s'.inbound.Keys| && |s.inbound| == |s.inbound.Keys|;
      CloseTransit(s);
    }
  }

  lemma SendKeeps(s: Shared, f: Frame, attempt: Attempt)
    requires Good(s) && !f.RequestFrame?
    ensures Good(Send(s, f, attempt))
  {
    hide QueuedOnce, CallsGood, NoneStranded, PendingGood, TransitGood, CancelledWhenClosed;
    if attempt.NotLive? {
      CloseKeeps(s, LeaseEnded);
    } else if attempt.Encoded? && |s.outgoing| >= s.limits.queued {
      CloseKeeps(s, Backpressure);
    } else {
      QueueOther(s.written + s.outgoing, s.calls, f);
      assert s.written + (s.outgoing + [f]) == s.written + s.outgoing + [f];
    }
  }

  lemma HeardMore(s: Shared, x: (string, Response))
    requires CallsGood(s.scoped, s.heard, s.calls) && TransitGood(s.scoped, s.heard, s.pending, s.transit, s.calls)
    ensures CallsGood(s.scoped, s.heard + {x}, s.calls)
    ensures TransitGood(s.scoped, s.heard + {x}, s.pending, s.transit, s.calls)
  {
    forall id | id in s.calls ensures GoodCall(s.scoped, s.heard + {x}, id, s.calls[id]) {
      assert GoodCall(s.scoped, s.heard, id, s.calls[id]);
    }
  }

  /** A pending call is taken out and its message is on the way. */
  lemma TakenKeeps(s: Shared, id: string, r: Response)
    requires Good(s) && id in s.pending && Own(s.scoped, s.heard, id, s.pending[id], r)
    ensures Good(s.(pending := s.pending - {id}, transit := s.transit[id := r]))
  {
    hide QueuedOnce, CallsGood, CancelledWhenClosed, Own;
    RemovedSmaller(s.pending, id);
  }

  lemma HearKeeps(s: Shared, id: string, r: Response)
    requires Good(s)
    ensures Good(Hear(s, id, r))
  {
    hide QueuedOnce, CallsGood, NoneStranded, TransitGood, CancelledWhenClosed;
    var h := s.(heard := s.heard + {(id, r)});
    HeardMore(s, (id, r));
    assert Good(h);
    if id in s.pending {
      if s.scoped && r.requestId != s.pending[id] {
        TakenKeeps(h, id, UnknownOutcome(s.pending[id]));
      } else {
        TakenKeeps(h, id, r);
      }
    }
  }

  /** One call changes; its identity stays, and it is no longer one that only waits. */
  lemma CallUpdated(s: Shared, id: string, call: Call)
    requires Good(s) && id in s.calls && call.requestId == s.calls[id].requestId
    requires GoodCall(s.scoped, s.heard, id, call)
    ensures CallsGood(s.scoped, s.heard, s.calls[id := call])
    ensures QueuedOnce(s.written + s.outgoing, s.calls[id := call])
  {
    hide QueuedOnce, CancelledWhenClosed, NoneStranded, PendingGood, TransitGood, Bounded, GoodCall;
    QueuedSameCalls(s.written + s.outgoing, s.calls, s.calls[id := call]);
  }

  lemma DeliverKeeps(s: Shared, id: string)
    requires Good(s) && id in s.transit
    ensures Good(Deliver(s, id))
  {
    hide QueuedOnce, CancelledWhenClosed, CallsGood;
    assert id in s.calls;
    var call := s.calls[id].(inbox := Some(s.transit[id]));
    assert GoodCall(s.scoped, s.heard, id, call) by {
      GoodAt(s, id);
    }
    CallUpdated(s, id, call);
    DeliveredParts(s, id);
  }

  lemma GoodAt(s: Shared, id: string)
    requires Good(s) && id in s.calls
    ensures GoodCall(s.scoped, s.heard, id, s.calls[id])
  {
    hide QueuedOnce, CancelledWhenClosed, NoneStranded, PendingGood, TransitGood, Bounded, GoodCall;
  }

  lemma DeliveredParts(s: Shared, id: string)
    requires Good(s) && id in s.transit && id in s.calls
    ensures var t := Deliver(s, id);
      NoneStranded(t.pending, t.transit, t.calls) && PendingGood(t.pending, t.calls)
      && TransitGood(t.scoped, t.heard, t.pending, t.transit, t.calls)
  {
    hide QueuedOnce, CancelledWhenClosed, CallsGood, Bounded, Own;
  }

  lemma SetCallKeeps(s: Shared, id: string, state: CallState)
    requires Good(s) && id in s.calls && !state.Waiting?
    requires state.Returned? ==> Own(s.scoped, s.heard, id, s.calls[id].requestId, state.response)
    ensures Good(SetCall(s, id, state))
  {
    hide QueuedOnce, CancelledWhenClosed, CallsGood, NoneStranded, PendingGood, TransitGood, Own;
    GoodAt(s, id);
    CallUpdated(s, id, s.calls[id].(state := state));
    SetCallParts(s, id, state);
  }

  lemma SetCallParts(s: Shared, id: string, state: CallState)
    requires Good(s) && id in s.calls && !state.Waiting?
    ensures var t := SetCall(s, id, state);
      NoneStranded(t.pending, t.transit, t.calls) && PendingGood(t.pending, t.calls)
      && TransitGood(t.scoped, t.heard, t.pending, t.transit, t.calls)
  {
    hide QueuedOnce, CancelledWhenClosed, CallsGood, Bounded, Own;
  }

  lemma ForgetKeeps(s: Shared, id: string)
    requires Good(s) && InState(s, id, Elapsed)
    ensures Good(SetCall(s.(pending := s.pending - {id}), id, Forgotten))
  {
    hide QueuedOnce, CallsGood, CancelledWhenClosed, Own;
    RemovedSmaller(s.pending, id);
    SetCallKeeps(s.(pending := s.pending - {id}), id, Forgotten);
  }

  lemma GiveUpKeeps(s: Shared, id: string, attempt: Attempt)
    requires Good(s) && id in s.calls
    ensures Good(GiveUp(s, id, attempt))
  {
    hide Good;
    SendKeeps(s, CancelFrame(id), attempt);
    SetCallKeeps(if s.scoped then Send(s, CancelFrame(id), attempt) else s, id, Returned(UnknownOutcome(s.calls[id].requestId)));
  }

  /** A change of the inbound table only. */
  lemma InboundKeeps(s: Shared, inbound: map<string, Handler>)
    requires Good(s) && |inbound| <= s.limits.inbound && CancelledWhenClosed(s.closed, inbound)
    ensures Good(s.(inbound := inbound))
  {
    hide QueuedOnce, CallsGood, NoneStranded, PendingGood, TransitGood, CancelledWhenClosed;
  }

  lemma HandlerKeeps(s: Shared, id: string, h: Handler)
    requires Good(s) && id in s.inbound
    requires s.closed.Some? && (h.stage.Checked? || h.stage.Running?) ==> h.cancelled
    ensures Good(s.(inbound := s.inbound[id := h]))
  {
    hide QueuedOnce, CallsGood, NoneStranded, PendingGood, TransitGood;
    UpdatedSameSize(s.inbound, id, h);
    InboundKeeps(s, s.inbound[id := h]);
  }

  lemma AdmitKeeps(s: Shared, id: string, attempt: Attempt)
    requires Good(s)
    ensures Good(Admit(s, id, attempt))
  {
    hide QueuedOnce, CallsGood, NoneStranded, PendingGood, TransitGood;
    if id in s.inbound {
    } else if |s.inbound| >= s.limits.inbound {
      SendKeeps(s, ResponseFrame(id), attempt);
    } else {
      AddedOneLarger(s.inbound, id, Handler(false, Admitted));
      InboundKeeps(s, s.inbound[id := Handler(false, Admitted)]);
    }
  }

  lemma CheckKeeps(s: Shared, id: string, leaseEnded: bool)
    requires Good(s) && id in s.inbound
    ensures Good(Check(s, id, leaseEnded))
  {
    hide Good;
    if leaseEnded {
      CloseKeeps(s, LeaseEnded);
      var t := Close(s, LeaseEnded);
      HandlerKeeps(t, id, t.inbound[id].(stage := Responding));
    } else {
      HandlerKeeps(s, id, s.inbound[id].(stage := if s.closed.Some? then Responding else Checked));
    }
  }

  lemma CancelledAt(s: Shared, id: string)
    requires Good(s) && id in s.inbound && s.closed.Some? && (s.inbound[id].stage.Checked? || s.inbound[id].stage.Running?)
    ensures s.inbound[id].cancelled
  {
  }

  lemma DispatchKeeps(s: Shared, id: string, authorized: bool)
    requires Good(s) && InStage(s, id, Checked)
    ensures Good(SetStage(s, id, if !authorized || s.inbound[id].cancelled then Responding else Running))
  {
    hide Good;
    if s.closed.Some? {
      CancelledAt(s, id);
    }
    HandlerKeeps(s, id, s.inbound[id].(stage := if !authorized || s.inbound[id].cancelled then Responding else Running));
  }

  lemma RespondKeeps(s: Shared, id: string, attempt: Attempt)
    requires Good(s) && id in s.inbound
    ensures Good(SetStage(Send(s, ResponseFrame(id), attempt), id, Answered))
  {
    hide Good;
    SendKeeps(s, ResponseFrame(id), attempt);
    var t := Send(s, ResponseFrame(id), attempt);
    HandlerKeeps(t, id, t.inbound[id].(stage := Answered));
  }

  lemma RetireKeeps(s: Shared, id: string)
    requires Good(s)
    ensures Good(s.(inbound := s.inbound - {id}))
  {
    hide QueuedOnce, CallsGood, NoneStranded, PendingGood, TransitGood;
    RemovedSmaller(s.inbound, id);
    InboundKeeps(s, s.inbound - {id});
  }

  lemma QueueKeeps(s: Shared)
    requires Good(s)
    ensures forall services :: Good(s.(ready := true, services := services))
    ensures s.outgoing != [] ==> Good(s.(outgoing := s.outgoing[1..], written := s.written + [s.outgoing[0]]))
  {
    hide QueuedOnce, CallsGood, NoneStranded, PendingGood, TransitGood, CancelledWhenClosed;
    if s.outgoing != [] {
      assert s.written + [s.outgoing[0]] + s.outgoing[1..] == s.written + s.outgoing;
    }
  }

  lemma InboxIsOwn(s: Shared, id: string)
    requires Good(s) && id in s.calls && s.calls[id].inbox.Some?
    ensures Own(s.scoped, s.heard, id, s.calls[id].requestId, s.calls[id].inbox.value)
  {
    assert GoodCall(s.scoped, s.heard, id, s.calls[id]);
  }

  lemma StepKeeps(s: Shared, step: Step)
    requires Good(s) && Enabled(s, step)
    ensures Good(Take(s, step))
  {
    hide Good, Own, Close, Send, Hear, Deliver, GiveUp, Admit, Check, BeginCall;
    match step
    case HandshakeDone(services) => QueueKeeps(s);
    case CallStep(id, requestId, service) => BeginCallKeeps(s, id, requestId, service);
    case HearResponse(id, r) => HearKeeps(s, id, r);
    case DeliverMessage(id) => DeliverKeeps(s, id);
    case Receive(id) =>
      InboxIsOwn(s, id);
      SetCallKeeps(s, id, Returned(s.calls[id].inbox.value));
    case Elapse(id) => SetCallKeeps(s, id, Elapsed);
    case Forget(id) => ForgetKeeps(s, id);
    case GiveUpCall(id, attempt) => GiveUpKeeps(s, id, attempt);
    case CloseStep(reason) => CloseKeeps(s, reason);
    case Write => QueueKeeps(s);
    case AdmitRequest(id, attempt) => AdmitKeeps(s, id, attempt);
    case CheckRequest(id, leaseEnded) => CheckKeeps(s, id, leaseEnded);
    case Dispatch(id, authorized) => DispatchKeeps(s, id, authorized);
    case HandlerDone(id) => HandlerKeeps(s, id, s.inbound[id].(stage := Responding));
    case CancelRequest(id) => HandlerKeeps(s, id, s.inbound[id].(cancelled := true));
    case Respond(id, attempt) => RespondKeeps(s, id, attempt);
    case Retire(id) => RetireKeeps(s, id);
  }

  // ----- Whole runs -----

  predicate ValidRun(s: Shared, steps: seq<Step>)
    decreases |steps|
  {
    steps == [] || (Enabled(s, steps[0]) && ValidRun(Take(s, steps[0]), steps[1..]))
  }

  function Run(s: Shared, steps: seq<Step>): Shared
    requires ValidRun(s, steps)
    decreases |steps|
  {
    if steps == [] then s else Run(Take(s, steps[0]), steps[1..])
  }

  lemma {:induction false} RunKeeps(s: Shared, steps: seq<Step>)
    requires Good(s) && ValidRun(s, steps)
    ensures Good(Run(s, steps))
    decreases |steps|
  {
    hide Good;
    if steps != [] {
      StepKeeps(s, steps[0]);
      RunKeeps(Take(s, steps[0]), steps[1..]);
    }
  }

  /** A call that returned keeps its one answer. */
  ghost predicate AnswersKept(before: map<string, Call>, after: map<string, Call>) {
    forall id :: id in before ==>
      && id in after && after[id].requestId == before[id].requestId
      && (before[id].state.Returned? ==> after[id].state == before[id].state)
  }

  lemma AnswersKeptAt(calls: map<string, Call>, id: string, call: Call)
    requires id in calls ==> call.requestId == calls[id].requestId
    requires id in calls && calls[id].state.Returned? ==> call.state == calls[id].state
    ensures AnswersKept(calls, calls[id := call])
  {
  }

  lemma AnswersKeptSame(calls: map<string, Call>)
    ensures AnswersKept(calls, calls)
  {
  }

  lemma StepAnswers(s: Shared, step: Step)
    requires Enabled(s, step)
    ensures AnswersKept(s.calls, Take(s, step).calls)
    ensures s.closed.Some? ==> Take(s, step).closed == s.closed
  {
    hide Close, Send, Serve, AnswersKept;
    var t := Take(s, step);
    match step
    case CallStep(id, _, _) =>
      AnswersKeptSame(s.calls);
      if id in t.calls {
        AnswersKeptAt(s.calls, id, t.calls[id]);
      }
    case DeliverMessage(id) =>
      AnswersKeptSame(s.calls);
      if id in s.calls {
        AnswersKeptAt(s.calls, id, t.calls[id]);
      }
    case Receive(id) => AnswersKeptAt(s.calls, id, t.calls[id]);
    case Elapse(id) => AnswersKeptAt(s.calls, id, t.calls[id]);
    case Forget(id) => AnswersKeptAt(s.calls, id, t.calls[id]);
    case GiveUpCall(id, _) => AnswersKeptAt(s.calls, id, t.calls[id]);
    case _ => AnswersKeptSame(s.calls);
  }

  lemma {:induction false} RunAnswers(s: Shared, steps: seq<Step>)
    requires ValidRun(s, steps)
    ensures AnswersKept(s.calls, Run(s, steps).calls)
    ensures s.closed.Some? ==> Run(s, steps).closed == s.closed
    decreases |steps|
  {
    hide Take, Enabled;
    if steps != [] {
      StepAnswers(s, steps[0]);
      RunAnswers(Take(s, steps[0]), steps[1..]);
    }
  }

  /** Once closed, no handler is started any more. */
  lemma StartsNoHandler(s: Shared, step: Step, id: string)
    requires Good(s) && Enabled(s, step) && s.closed.Some? && InStage(Take(s, step), id, Running)
    ensures InStage(s, id, Running)
  {
    hide QueuedOnce, CallsGood, NoneStranded, PendingGood, TransitGood, Bounded, Take;
  }

  lemma {:induction false} NoHandlerStartsAfterClose(s: Shared, steps: seq<Step>, id: string)
    requires Good(s) && ValidRun(s, steps) && s.closed.Some? && InStage(Run(s, steps), id, Running)
    ensures InStage(s, id, Running)
    decreases |steps|
  {
    hide Good, Take, Enabled, InStage;
    if steps != [] {
      StepKeeps(s, steps[0]);
      StepAnswers(s, steps[0]);
      NoHandlerStartsAfterClose(Take(s, steps[0]), steps[1..], id);
      StartsNoHandler(s, steps[0], id);
    }
  }

  lemma StartIsGood(scoped: bool, limits: Limits)
    ensures Good(Start(scoped, limits))
  {
  }

  /** What holds of every connection, over every interleaving. */
  ghost predicate PairedAndSettled(s: Shared) {
    && Bounded(s)
    && QueuedOnce(s.written + s.outgoing, s.calls)
    && CancelledWhenClosed(s.closed, s.inbound)
    && (forall id :: id in s.calls && s.calls[id].state.Returned? ==>
          Own(s.scoped, s.heard, id, s.calls[id].requestId, s.calls[id].state.response))
    && NoneStranded(s.pending, s.transit, s.calls)
    && (s.closed.Some? ==> s.pending == map[])
  }

  lemma CallsArePairedAndSettled(scoped: bool, limits: Limits, steps: seq<Step>)
    requires ValidRun(Start(scoped, limits), steps)
    ensures PairedAndSettled(Run(Start(scoped, limits), steps))
  {
    hide ValidRun, Run;
    StartIsGood(scoped, limits);
    RunKeeps(Start(scoped, limits), steps);
    var s := Run(Start(scoped, limits), steps);
    forall id | id in s.calls ensures GoodCall(s.scoped, s.heard, id, s.calls[id]) {
    }
  }

  /** In a closed connection whose messages have all been sent, no caller is kept waiting. */
  lemma CloseReleasesEveryCaller(s: Shared, id: string)
    requires Good(s) && s.closed.Some? && s.transit == map[] && InState(s, id, Waiting)
    ensures Enabled(s, Receive(id)) && Take(s, Receive(id)).calls[id].state.Returned?
  {
    assert s.calls[id].inbox.Some?;
  }

  // ----- Requests entered after a close -----

  /** This step enters the request in the table. */
  predicate Enters(s: Shared, step: Step, id: string) {
    step.AdmitRequest? && step.id == id && id !in s.inbound && |s.inbound| < s.limits.inbound
  }

  lemma {:induction false} RunAppend(s: Shared, steps: seq<Step>, last: Step)
    requires ValidRun(s, steps + [last])
    ensures ValidRun(s, steps) && Enabled(Run(s, steps), last)
    ensures Run(s, steps + [last]) == Take(Run(s, steps), last)
    decreases |steps|
  {
    hide Take, Enabled;
    if steps == [] {
      assert steps + [last] == [last] && [last][1..] == [];
    } else {
      assert (steps + [last])[0] == steps[0] && (steps + [last])[1..] == steps[1..] + [last];
      RunAppend(Take(s, steps[0]), steps[1..], last);
    }
  }

  /** In a closed connection an entry is uncancelled after a step exactly when the step
      entered it, or it was uncancelled before and the step did not cancel it. */
  lemma LateStep(s: Shared, step: Step, id: string)
    requires s.closed.Some? && Enabled(s, step) && id in Take(s, step).inbound
    ensures !Take(s, step).inbound[id].cancelled <==>
      || Enters(s, step, id)
      || (id in s.inbound && !s.inbound[id].cancelled && step != CancelRequest(id))
  {
    hide Take;
  }

  /** Step `k` of the run enters the request. */
  ghost predicate EntersAt(s: Shared, steps: seq<Step>, k: nat, id: string) {
    k < |steps| && ValidRun(s, steps[..k]) && Enters(Run(s, steps[..k]), steps[k], id)
  }

  /** The request was entered during the run and not cancelled by the peer since. */
  ghost predicate EnteredLate(s: Shared, steps: seq<Step>, id: string) {
    exists k :: EntersAt(s, steps, k, id) && CancelRequest(id) !in steps[k + 1..]
  }

  lemma EnteredLateAppend(s: Shared, steps: seq<Step>, last: Step, id: string)
    requires ValidRun(s, steps + [last])
    ensures EnteredLate(s, steps + [last], id) <==>
      (ValidRun(s, steps) && Enters(Run(s, steps), last, id)) || (EnteredLate(s, steps, id) && last != CancelRequest(id))
  {
    hide Run, Enters, Enabled, Take;
    RunAppend(s, steps, last);
    var n, all := |steps|, steps + [last];
    assert all[..n] == steps;
    assert EntersAt(s, all, n, id) <==> Enters(Run(s, steps), last, id);
    assert CancelRequest(id) !in all[n + 1..];
    forall k | 0 <= k < n
      ensures EntersAt(s, all, k, id) <==> EntersAt(s, steps, k, id)
      ensures CancelRequest(id) !in all[k + 1..] <==> CancelRequest(id) !in steps[k + 1..] && last != CancelRequest(id)
    {
      assert all[..k] == steps[..k] && all[k] == steps[k];
      assert all[k + 1..] == steps[k + 1..] + [last];
    }
  }

  /** After a close, the uncancelled entries are exactly the requests read after it that
      the peer has not cancelled itself. */
  lemma {:induction false} UncancelledIffEnteredAfterClose(s: Shared, reason: CloseReason, steps: seq<Step>, id: string)
    requires s.closed.None? && ValidRun(Close(s, reason), steps) && id in Run(Close(s, reason), steps).inbound
    ensures !Run(Close(s, reason), steps).inbound[id].cancelled <==> EnteredLate(Close(s, reason), steps, id)
    decreases |steps|
  {
    var c := Close(s, reason);
    if steps == [] {
    } else {
      hide Take, Enabled, Enters, EnteredLate, Close;
      var front, last := steps[..|steps| - 1], steps[|steps| - 1];
      assert steps == front + [last];
      RunAppend(c, front, last);
      RunAnswers(c, front);
      LateStep(Run(c, front), last, id);
      EnteredLateAppend(c, front, last, id);
      if id in Run(c, front).inbound {
        UncancelledIffEnteredAfterClose(s, reason, front, id);
      } else {
        EntersOnly(Run(c, front), last, id);
      }
    }
  }

  /** Only entering a request makes it appear. */
  lemma EntersOnly(s: Shared, step: Step, id: string)
    requires s.closed.Some? && Enabled(s, step) && id !in s.inbound && id in Take(s, step).inbound
    ensures Enters(s, step, id) && step != CancelRequest(id)
  {
    hide Take;
  }

  /** One run that leaves such an entry: closed after the handshake, then a request is read. */
  lemma UncancelledIsReached(scoped: bool, limits: Limits)
    requires limits.inbound >= 1
    ensures
      var steps := [HandshakeDone({}), CloseStep(Requested), AdmitRequest("r", Encoded)];
      && ValidRun(Start(scoped, limits), steps)
      && var s := Run(Start(scoped, limits), steps);
      s.closed == Some(Requested) && InStage(s, "r", Admitted) && !s.inbound["r"].cancelled
  {
    var steps := [HandshakeDone({}), CloseStep(Requested), AdmitRequest("r", Encoded)];
    var s1 := Take(Start(scoped, limits), steps[0]);
    var s2 := Take(s1, steps[1]);
    assert s2.inbound == map[];
    var s3 := Take(s2, steps[2]);
    assert steps[1..] == [steps[1], steps[2]] && steps[1..][1..] == [steps[2]] && steps[1..][1..][1..] == [];
    assert ValidRun(s3, []) && ValidRun(s2, [steps[2]]) && ValidRun(s1, steps[1..]);
    assert Run(s2, [steps[2]]) == s3 && Run(s1, steps[1..]) == s3;
  }
}
