/**
 What callers and requesters get: a response that is read for a pending call is returned by
 that call, a call returns an unknown outcome exactly when it has one of four excuses, and
 an admitted request is run and answered.
 */
module PeerAnswers {
  import opened Base
  import opened Peer

  // ----- A response that was read is returned -----

  /** `r` has been taken for the call and is on the way to it, or was returned. */
  predicate OnTheWay(s: Shared, id: string, r: Response) {
    && id in s.calls
    && match s.calls[id].state
       case Waiting => s.calls[id].inbox == Some(r) || (s.calls[id].inbox == None && id in s.transit && s.transit[id] == r)
       case Returned(response) => response == r
       case _ => false
  }

  /** A response frame whose identity is that of the call, where identities are checked. */
  predicate Matching(s: Shared, id: string, r: Response) {
    id in s.pending && (s.scoped ==> r.requestId == s.pending[id])
  }

  lemma ReadIsTaken(s: Shared, id: string, r: Response)
    requires Good(s) && Enabled(s, HearResponse(id, r)) && Matching(s, id, r) && InState(s, id, Waiting)
    ensures OnTheWay(Take(s, HearResponse(id, r)), id, r)
  {
    hide QueuedOnce, CallsGood, NoneStranded, TransitGood, CancelledWhenClosed, Bounded;
    PendingHasNone(s, id);
  }

  lemma PendingHasNone(s: Shared, id: string)
    requires Good(s) && id in s.pending
    ensures id in s.calls && s.calls[id].requestId == s.pending[id] && s.calls[id].inbox.None? && id !in s.transit
  {
    hide QueuedOnce, CallsGood, NoneStranded, CancelledWhenClosed, Bounded;
  }

  lemma TransitHasNone(s: Shared, id: string)
    requires Good(s) && id in s.transit
    ensures id in s.calls && s.calls[id].inbox.None? && id !in s.pending
  {
    hide QueuedOnce, CallsGood, NoneStranded, CancelledWhenClosed, Bounded, PendingGood, Own;
  }

  // ----- What the other steps do to a call -----

  /** The call is registered, or its message is on the way, as before. */
  ghost predicate SameTaken(s: Shared, t: Shared, id: string) {
    && (id in t.pending <==> id in s.pending) && (id in s.pending ==> t.pending[id] == s.pending[id])
    && (id in t.transit <==> id in s.transit) && (id in s.transit ==> t.transit[id] == s.transit[id])
  }

  /** The connection has closed: a pending call is taken, and told that nothing is known. */
  ghost predicate TakenByClose(s: Shared, t: Shared, id: string) {
    && id !in t.pending
    && (id in s.pending ==> id in t.transit && t.transit[id] == UnknownOutcome(s.pending[id]))
    && (id !in s.pending ==> (id in t.transit <==> id in s.transit) && (id in s.transit ==> t.transit[id] == s.transit[id]))
  }

  /** A step that is not about the call changes nothing for it unless it closes. */
  ghost predicate Aside(s: Shared, t: Shared, id: string) {
    && (id in t.calls <==> id in s.calls) && (id in s.calls ==> t.calls[id] == s.calls[id])
    && (if s.closed.None? && t.closed.Some? then TakenByClose(s, t, id) else SameTaken(s, t, id))
  }

  predicate About(step: Step, id: string) {
    match step
    case CallStep(other, _, _) => other == id
    case HearResponse(other, _) => other == id
    case DeliverMessage(other) => other == id
    case Receive(other) => other == id
    case Elapse(other) => other == id
    case Forget(other) => other == id
    case GiveUpCall(other, _) => other == id
    case _ => false
  }

  lemma CloseAside(s: Shared, reason: CloseReason, id: string)
    ensures Aside(s, Close(s, reason), id)
  {
  }

  lemma SendAside(s: Shared, f: Frame, attempt: Attempt, id: string)
    ensures Aside(s, Send(s, f, attempt), id)
  {
    hide Close;
    CloseAside(s, LeaseEnded, id);
    CloseAside(s, Backpressure, id);
  }

  lemma AdmitAside(s: Shared, x: string, attempt: Attempt, id: string)
    ensures Aside(s, Admit(s, x, attempt), id)
  {
    hide Send;
    SendAside(s, ResponseFrame(x), attempt, id);
  }

  lemma StageAside(s: Shared, t: Shared, x: string, stage: Stage, id: string)
    requires Aside(s, t, id) && x in t.inbound
    ensures Aside(s, SetStage(t, x, stage), id)
  {
  }

  lemma InboundAside(s: Shared, step: Step, id: string)
    requires Enabled(s, step) && (step.Dispatch? || step.HandlerDone? || step.CancelRequest? || step.Retire?)
    ensures Aside(s, Serve(s, step), id)
  {
    hide Close, Send;
    assert Serve(s, step) == s.(inbound := Serve(s, step).inbound);
  }

  lemma ServeAside(s: Shared, step: Step, id: string)
    requires Enabled(s, step) && Serves(step)
    ensures Aside(s, Serve(s, step), id)
  {
    hide Close, Send, Admit, SetStage, Aside;
    if step.AdmitRequest? {
      AdmitAside(s, step.id, step.attempt, id);
    } else if step.Respond? {
      SendAside(s, ResponseFrame(step.id), step.attempt, id);
      StageAside(s, Send(s, ResponseFrame(step.id), step.attempt), step.id, Answered, id);
    } else if step.CheckRequest? {
      CheckAside(s, step.id, step.leaseEnded, id);
    } else {
      InboundAside(s, step, id);
    }
  }

  lemma CheckAside(s: Shared, x: string, leaseEnded: bool, id: string)
    requires x in s.inbound
    ensures Aside(s, Check(s, x, leaseEnded), id)
  {
    hide Close;
    CloseAside(s, LeaseEnded, id);
  }

  lemma CallAside(s: Shared, other: string, requestId: string, service: string, id: string)
    requires other != id
    ensures Aside(s, BeginCall(s, other, requestId, service), id)
  {
  }

  /** What reading a response does to the calls. */
  lemma HearIs(s: Shared, id: string, r: Response)
    ensures var t := Hear(s, id, r);
      && t.calls == s.calls && t.closed == s.closed && id !in t.pending
      && (forall x :: x != id ==> (x in t.pending <==> x in s.pending) && (x in s.pending ==> t.pending[x] == s.pending[x]))
      && t.transit == if id !in s.pending then s.transit
                      else s.transit[id := if s.scoped && r.requestId != s.pending[id] then UnknownOutcome(s.pending[id]) else r]
  {
  }

  lemma HearAside(s: Shared, other: string, r: Response, id: string)
    requires other != id
    ensures Aside(s, Hear(s, other, r), id)
  {
    hide Hear;
    HearIs(s, other, r);
  }

  lemma DeliverAside(s: Shared, other: string, id: string)
    requires other != id && other in s.transit
    ensures Aside(s, Deliver(s, other), id)
  {
  }

  lemma ReaderAside(s: Shared, step: Step, id: string)
    requires Enabled(s, step) && !About(step, id) && (step.CallStep? || step.HearResponse? || step.DeliverMessage?)
    ensures Aside(s, Carry(s, step), id)
  {
    hide Close, Send, BeginCall, Hear, Deliver, Aside;
    if step.CallStep? {
      CallAside(s, step.id, step.requestId, step.service, id);
    } else if step.HearResponse? {
      HearAside(s, step.id, step.r, id);
    } else {
      DeliverAside(s, step.id, id);
    }
  }

  lemma CallerAside(s: Shared, step: Step, id: string)
    requires Enabled(s, step) && !About(step, id) && (step.Receive? || step.Elapse? || step.Forget? || step.GiveUpCall?)
    ensures Aside(s, Carry(s, step), id)
  {
    hide Close, Send;
    if step.GiveUpCall? {
      SendAside(s, CancelFrame(step.id), step.attempt, id);
    }
  }

  lemma WriterAside(s: Shared, step: Step, id: string)
    requires Enabled(s, step) && (step.HandshakeDone? || step.Write? || step.CloseStep?)
    ensures Aside(s, Carry(s, step), id)
  {
    hide Close, Send;
    if step.CloseStep? {
      CloseAside(s, step.reason, id);
    }
  }

  lemma Bystander(s: Shared, step: Step, id: string)
    requires Enabled(s, step) && !About(step, id)
    ensures Aside(s, Take(s, step), id)
  {
    hide Carry, Serve, Aside, Enabled;
    if Serves(step) {
      ServeAside(s, step, id);
    } else if step.CallStep? || step.HearResponse? || step.DeliverMessage? {
      ReaderAside(s, step, id);
    } else if step.HandshakeDone? || step.Write? || step.CloseStep? {
      WriterAside(s, step, id);
    } else {
      CallerAside(s, step, id);
    }
  }

  // ----- A message on the way arrives -----

  lemma StepOnTheWay(s: Shared, step: Step, id: string, r: Response)
    requires Good(s) && Enabled(s, step) && OnTheWay(s, id, r) && id !in s.pending && step != Elapse(id)
    ensures OnTheWay(Take(s, step), id, r) && id !in Take(s, step).pending
  {
    if About(step, id) {
      hide Good, Close, Send, Serve;
      OwnStepOnTheWay(s, step, id, r);
    } else {
      hide Good, Take;
      Bystander(s, step, id);
    }
  }

  lemma OwnStepOnTheWay(s: Shared, step: Step, id: string, r: Response)
    requires Good(s) && Enabled(s, step) && OnTheWay(s, id, r) && id !in s.pending && About(step, id) && step != Elapse(id)
    ensures OnTheWay(Take(s, step), id, r) && id !in Take(s, step).pending
  {
    hide Good, Close, Send, Serve;
    if step.DeliverMessage? {
      TransitHasNone(s, id);
    }
  }

  /** The caller's own deadline does not strike in the run. */
  predicate InTime(steps: seq<Step>, id: string) { forall k :: 0 <= k < |steps| ==> steps[k] != Elapse(id) }

  lemma {:induction false} StaysOnTheWay(s: Shared, steps: seq<Step>, id: string, r: Response)
    requires Good(s) && ValidRun(s, steps) && OnTheWay(s, id, r) && id !in s.pending && InTime(steps, id)
    ensures OnTheWay(Run(s, steps), id, r)
    decreases |steps|
  {
    hide Good, Take, Enabled, OnTheWay;
    if steps != [] {
      StepKeeps(s, steps[0]);
      StepOnTheWay(s, steps[0], id, r);
      StaysOnTheWay(Take(s, steps[0]), steps[1..], id, r);
    }
  }

  /** Over every run: when a response of its identity is read for a pending call, and the
      caller's deadline does not strike, the call returns that response and no other. */
  lemma AnswerIsReturned(scoped: bool, limits: Limits, before: seq<Step>, id: string, r: Response, later: seq<Step>)
    requires ValidRun(Start(scoped, limits), before)
    requires var s := Run(Start(scoped, limits), before);
      && Enabled(s, HearResponse(id, r)) && Matching(s, id, r) && InState(s, id, Waiting)
      && ValidRun(Take(s, HearResponse(id, r)), later)
    requires InTime(later, id)
    ensures
      var t := Run(Take(Run(Start(scoped, limits), before), HearResponse(id, r)), later);
      && id in t.calls
      && (t.calls[id].state.Returned? ==> t.calls[id].state.response == r)
      && ReturnsBy(t, StepsLeft(t, id), id, r)
  {
    hide Good, Take, Enabled, OnTheWay, ReturnsBy;
    StartIsGood(scoped, limits);
    RunKeeps(Start(scoped, limits), before);
    var s := Run(Start(scoped, limits), before);
    ReadIsTaken(s, id, r);
    StepKeeps(s, HearResponse(id, r));
    TakenIsNotPending(s, id, r);
    var u := Take(s, HearResponse(id, r));
    StaysOnTheWay(u, later, id, r);
    RunKeeps(u, later);
    OnTheWayReturns(Run(u, later), id, r);
  }

  lemma TakenIsNotPending(s: Shared, id: string, r: Response)
    requires Enabled(s, HearResponse(id, r))
    ensures id !in Take(s, HearResponse(id, r)).pending
  {
    hide Hear, Close, Send, Serve;
    HearIs(s, id, r);
  }

  /** What is left to do for a call whose message is on the way. */
  function StepsLeft(s: Shared, id: string): seq<Step>
    requires id in s.calls
  {
    if s.calls[id].state.Returned? then []
    else if s.calls[id].inbox.Some? then [Receive(id)]
    else [DeliverMessage(id), Receive(id)]
  }

  /** These steps can be taken, and then the call has returned `r`. */
  ghost predicate ReturnsBy(s: Shared, steps: seq<Step>, id: string, r: Response) {
    ValidRun(s, steps) && InState(Run(s, steps), id, Returned(r))
  }

  lemma OnTheWayReturns(s: Shared, id: string, r: Response)
    requires OnTheWay(s, id, r)
    ensures id in s.calls && (s.calls[id].state.Returned? ==> s.calls[id].state.response == r)
    ensures ReturnsBy(s, StepsLeft(s, id), id, r)
  {
    var call := s.calls[id];
    if call.state.Waiting? {
      if call.inbox.Some? {
        assert [Receive(id)][1..] == [];
        assert ValidRun(s, [Receive(id)]);
      } else {
        var t := Take(s, DeliverMessage(id));
        assert t.calls[id] == call.(inbox := Some(r));
        RunTwo(s, DeliverMessage(id), Receive(id));
        assert InState(Take(t, Receive(id)), id, Returned(r));
      }
    }
  }

  // ----- When the outcome is unknown -----

  /** The call has an unknown outcome: returned, on the way, or because it elapsed. */
  predicate Doomed(s: Shared, id: string) {
    && id in s.calls
    && var unknown := UnknownOutcome(s.calls[id].requestId);
       match s.calls[id].state
       case Waiting => s.calls[id].inbox == Some(unknown) || (s.calls[id].inbox == None && id in s.transit && s.transit[id] == unknown)
       case Elapsed => true
       case Forgotten => true
       case Returned(response) => response == unknown
  }

  /** The caller's deadline struck; or, while the call was pending, the connection closed,
      the peer answered under a wrong identity, or the peer itself answered so. */
  predicate Excuses(s: Shared, step: Step, id: string)
    requires Enabled(s, step)
  {
    || step == Elapse(id)
    || (InState(s, id, Waiting) && id in s.pending && s.closed.None? && Take(s, step).closed.Some?)
    || (InState(s, id, Waiting) && id in s.pending && step.HearResponse? && step.id == id
        && (step.r == UnknownOutcome(s.pending[id]) || (s.scoped && step.r.requestId != s.pending[id])))
  }

  predicate Excused(s: Shared, steps: seq<Step>, id: string)
    requires ValidRun(s, steps)
    decreases |steps|
  {
    steps != [] && (Excuses(s, steps[0], id) || Excused(Take(s, steps[0]), steps[1..], id))
  }

  lemma BystanderDooms(s: Shared, step: Step, id: string)
    requires Good(s) && Enabled(s, step) && !About(step, id)
    ensures Doomed(Take(s, step), id) <==> Doomed(s, id) || Excuses(s, step, id)
  {
    hide Good, Take;
    Bystander(s, step, id);
    if id in s.pending {
      PendingHasNone(s, id);
    }
  }

  lemma HearDooms(s: Shared, id: string, r: Response)
    requires Good(s) && Enabled(s, HearResponse(id, r))
    ensures Doomed(Take(s, HearResponse(id, r)), id) <==> Doomed(s, id) || Excuses(s, HearResponse(id, r), id)
  {
    hide Good, Hear, Close, Send, Serve;
    HearIs(s, id, r);
    if id in s.pending {
      PendingHasNone(s, id);
    }
  }

  lemma CallDooms(s: Shared, id: string, requestId: string, service: string)
    requires Good(s) && Enabled(s, CallStep(id, requestId, service))
    ensures !Doomed(Take(s, CallStep(id, requestId, service)), id)
    ensures !Doomed(s, id) && !Excuses(s, CallStep(id, requestId, service), id)
  {
    hide Good, Close, Send, Serve;
    if id in s.transit {
      TransitHasNone(s, id);
    }
  }

  lemma CallerDooms(s: Shared, step: Step, id: string)
    requires Good(s) && Enabled(s, step) && About(step, id)
    requires step.DeliverMessage? || step.Receive? || step.Elapse? || step.Forget?
    ensures Doomed(Take(s, step), id) <==> Doomed(s, id) || Excuses(s, step, id)
  {
    hide Good, Close, Send, Serve;
    if step.DeliverMessage? {
      TransitHasNone(s, id);
    }
  }

  lemma GiveUpDooms(s: Shared, id: string, attempt: Attempt)
    requires Enabled(s, GiveUpCall(id, attempt))
    ensures Doomed(s, id) && Doomed(Take(s, GiveUpCall(id, attempt)), id)
  {
    hide Close, Send, Serve;
  }

  lemma StepDooms(s: Shared, step: Step, id: string)
    requires Good(s) && Enabled(s, step)
    ensures Doomed(Take(s, step), id) <==> Doomed(s, id) || Excuses(s, step, id)
  {
    hide Good, Take, Doomed, Excuses, Enabled;
    if !About(step, id) {
      BystanderDooms(s, step, id);
    } else if step.GiveUpCall? {
      GiveUpDooms(s, id, step.attempt);
    } else if step.HearResponse? {
      HearDooms(s, id, step.r);
    } else if step.CallStep? {
      CallDooms(s, id, step.requestId, step.service);
    } else {
      CallerDooms(s, step, id);
    }
  }

  lemma {:induction false} RunDooms(s: Shared, steps: seq<Step>, id: string)
    requires Good(s) && ValidRun(s, steps)
    ensures Doomed(Run(s, steps), id) <==> Doomed(s, id) || Excused(s, steps, id)
    decreases |steps|
  {
    hide Good, Take, Doomed, Excuses, Enabled;
    if steps != [] {
      StepKeeps(s, steps[0]);
      StepDooms(s, steps[0], id);
      RunDooms(Take(s, steps[0]), steps[1..], id);
    }
  }

  /** Over every run, a call that returned has an unknown outcome exactly when its deadline
      struck, the connection closed while it was pending, a scoped response came under a
      wrong identity, or the peer itself answered so. */
  lemma UnknownIffExcused(scoped: bool, limits: Limits, steps: seq<Step>, id: string)
    requires ValidRun(Start(scoped, limits), steps)
    ensures
      var s := Run(Start(scoped, limits), steps);
      id in s.calls && s.calls[id].state.Returned? ==>
        (s.calls[id].state.response == UnknownOutcome(s.calls[id].requestId) <==> Excused(Start(scoped, limits), steps, id))
  {
    hide Good, Take, Enabled, Excused;
    StartIsGood(scoped, limits);
    RunDooms(Start(scoped, limits), steps, id);
  }

  // ----- Calls that are sent, and requests that are served -----

  /** A call is registered, with its frame at the end of the queue, exactly when the
      connection is open and ready, the peer offers the service, and both limits allow it. */
  lemma CallIsSentIff(s: Shared, id: string, requestId: string, service: string)
    requires id !in s.calls && id !in s.pending
    ensures
      var t := BeginCall(s, id, requestId, service);
      && (id in t.pending <==>
            && s.closed.None? && s.ready && service in s.services
            && |s.pending| < s.limits.outbound && |s.outgoing| < s.limits.queued)
      && (id in t.pending ==>
            t.outgoing == s.outgoing + [RequestFrame(id)] && t.pending == s.pending[id := requestId] && InState(t, id, Waiting))
      && (id !in t.pending ==> t == s)
  {
  }

  /** A request is admitted exactly when its identity is new and there is room. */
  lemma RequestIsAdmittedIff(s: Shared, id: string, attempt: Attempt)
    requires id !in s.inbound
    ensures id in Admit(s, id, attempt).inbound <==> |s.inbound| < s.limits.inbound
    ensures id in Admit(s, id, attempt).inbound ==> Admit(s, id, attempt) == s.(inbound := s.inbound[id := Handler(false, Admitted)])
    ensures id !in Admit(s, id, attempt).inbound && attempt.Encoded? && |s.outgoing| < s.limits.queued ==>
      Admit(s, id, attempt) == s.(outgoing := s.outgoing + [ResponseFrame(id)])
  {
    hide Close;
  }

  /** A request under an identity that is being served stops the reader, and so does a scoped
      response of a wrong identity: nothing is read after it. */
  lemma MisuseStopsReader(s: Shared, id: string, r: Response, attempt: Attempt, next: string)
    ensures id in s.inbound ==>
      Admit(s, id, attempt) == s.(failed := Some(ProtocolError)) && !Enabled(Admit(s, id, attempt), AdmitRequest(next, attempt))
    ensures id in s.pending && s.scoped && r.requestId != s.pending[id] ==>
      Hear(s, id, r).failed == Some(ProtocolError) && !Enabled(Hear(s, id, r), HearResponse(next, r))
    ensures !(id in s.pending && s.scoped && r.requestId != s.pending[id]) ==> Hear(s, id, r).failed == s.failed
  {
    hide Send;
  }

  /** A caller that gives up on the scoped protocol queues a request to cancel, and on the
      other protocol queues nothing. */
  lemma GiveUpAsksToCancel(s: Shared, id: string)
    requires InState(s, id, Forgotten) && |s.outgoing| < s.limits.queued
    ensures Take(s, GiveUpCall(id, Encoded)).outgoing == s.outgoing + (if s.scoped then [CancelFrame(id)] else [])
  {
    hide Close, Serve;
  }

  /** In an open connection an admitted request that is authorized and not cancelled is
      run, its response frame is queued, and its entry is gone. */
  lemma RequestIsServed(s: Shared, id: string)
    requires InStage(s, id, Admitted) && !s.inbound[id].cancelled && s.closed.None? && |s.outgoing| < s.limits.queued
    ensures
      var checked := [CheckRequest(id, false), Dispatch(id, true)];
      var rest := [HandlerDone(id), Respond(id, Encoded), Retire(id)];
      && ValidRun(s, checked) && InStage(Run(s, checked), id, Running)
      && ValidRun(Run(s, checked), rest)
      && Run(Run(s, checked), rest) == s.(inbound := s.inbound - {id}, outgoing := s.outgoing + [ResponseFrame(id)])
  {
    hide Take, Enabled, InStage, ValidRun, Run;
    RequestIsRun(s, id);
    var running := s.(inbound := s.inbound[id := Handler(false, Running)]);
    RunIsAnswered(running, id);
    assert running.inbound - {id} == s.inbound - {id};
  }

  lemma RequestIsRun(s: Shared, id: string)
    requires InStage(s, id, Admitted) && !s.inbound[id].cancelled && s.closed.None?
    ensures
      var checked := [CheckRequest(id, false), Dispatch(id, true)];
      && ValidRun(s, checked) && InStage(Run(s, checked), id, Running)
      && Run(s, checked) == s.(inbound := s.inbound[id := Handler(false, Running)])
  {
    hide Close, ValidRun, Run;
    var s1 := Take(s, CheckRequest(id, false));
    assert s1 == s.(inbound := s.inbound[id := Handler(false, Checked)]);
    RunTwo(s, CheckRequest(id, false), Dispatch(id, true));
  }

  lemma RunIsAnswered(s: Shared, id: string)
    requires InStage(s, id, Running) && |s.outgoing| < s.limits.queued
    ensures
      var rest := [HandlerDone(id), Respond(id, Encoded), Retire(id)];
      && ValidRun(s, rest)
      && Run(s, rest) == s.(inbound := s.inbound - {id}, outgoing := s.outgoing + [ResponseFrame(id)])
  {
    var h := s.inbound[id];
    var s1 := Take(s, HandlerDone(id));
    assert s1 == s.(inbound := s.inbound[id := h.(stage := Responding)]);
    AnswerIsQueued(s1, id);
    var rest := [HandlerDone(id), Respond(id, Encoded), Retire(id)];
    assert rest[1..] == [Respond(id, Encoded), Retire(id)];
    assert s1.inbound - {id} == s.inbound - {id};
  }

  lemma AnswerIsQueued(s: Shared, id: string)
    requires InStage(s, id, Responding) && |s.outgoing| < s.limits.queued
    ensures
      var rest := [Respond(id, Encoded), Retire(id)];
      && ValidRun(s, rest)
      && Run(s, rest) == s.(inbound := s.inbound - {id}, outgoing := s.outgoing + [ResponseFrame(id)])
  {
    hide Close, Carry, ValidRun, Run;
    var h := s.inbound[id];
    var s1 := Take(s, Respond(id, Encoded));
    assert s1 == s.(inbound := s.inbound[id := h.(stage := Answered)], outgoing := s.outgoing + [ResponseFrame(id)]);
    assert s1.inbound - {id} == s.inbound - {id};
    RunTwo(s, Respond(id, Encoded), Retire(id));
  }

  lemma RunTwo(s: Shared, a: Step, b: Step)
    requires Enabled(s, a) && Enabled(Take(s, a), b)
    ensures ValidRun(s, [a, b]) && Run(s, [a, b]) == Take(Take(s, a), b)
  {
    hide Take, Enabled;
    assert [a, b][1..] == [b] && [b][1..] == [];
    var t := Take(s, a);
    assert ValidRun(t, [b]) && Run(t, [b]) == Take(t, b);
  }

  /** A handler is started exactly when its request passed the liveness check, is
      authorized, and has not been cancelled. */
  lemma HandlerStartsIff(s: Shared, id: string, authorized: bool)
    requires InStage(s, id, Checked)
    ensures InStage(Take(s, Dispatch(id, authorized)), id, Running) <==> authorized && !s.inbound[id].cancelled
    ensures !InStage(Take(s, Dispatch(id, authorized)), id, Running) ==> InStage(Take(s, Dispatch(id, authorized)), id, Responding)
  {
  }

  /** The liveness check passes exactly in an open connection whose lease has not ended. */
  lemma CheckPassesIff(s: Shared, id: string, leaseEnded: bool)
    requires InStage(s, id, Admitted)
    ensures InStage(Take(s, CheckRequest(id, leaseEnded)), id, Checked) <==> s.closed.None? && !leaseEnded
    ensures leaseEnded ==> Take(s, CheckRequest(id, leaseEnded)).closed.Some?
  {
  }

  /** Services can be called after a handshake exactly when the connection did not close. */
  lemma ReadyAfterHandshakeIff(s: Shared, services: set<string>)
    requires !s.ready
    ensures var t := Take(s, HandshakeDone(services));
      if s.closed.None? then t == s.(ready := true, services := services) else t == s
  {
  }

  /** A cancellation reaches the one request it names. */
  lemma CancelReachesOne(s: Shared, id: string)
    requires Enabled(s, CancelRequest(id))
    ensures var t := Take(s, CancelRequest(id));
      && t == s.(inbound := t.inbound) && t.inbound.Keys == s.inbound.Keys
      && forall other :: other in s.inbound ==>
           t.inbound[other] == if other == id then s.inbound[id].(cancelled := true) else s.inbound[other]
  {
  }

  // ----- The table of pending calls -----

  /** A pending call waits for its answer, or has just elapsed. */
  predicate OpenCall(s: Shared, id: string) { InState(s, id, Waiting) || InState(s, id, Elapsed) }

  ghost predicate PendingOpen(s: Shared) { forall id :: id in s.pending ==> OpenCall(s, id) }

  lemma BystanderStaysOpen(s: Shared, step: Step, id: string)
    requires Enabled(s, step) && !About(step, id) && (id in s.pending ==> OpenCall(s, id)) && id in Take(s, step).pending
    ensures OpenCall(Take(s, step), id)
  {
    hide Take;
    Bystander(s, step, id);
  }

  lemma OwnStepStaysOpen(s: Shared, step: Step, id: string)
    requires Good(s) && Enabled(s, step) && About(step, id) && (id in s.pending ==> OpenCall(s, id))
    ensures id in Take(s, step).pending ==> OpenCall(Take(s, step), id)
  {
    hide Good, Hear, Close, Send, Serve;
    if step.HearResponse? {
      HearIs(s, id, step.r);
    } else if step.GiveUpCall? {
      SendAside(s, CancelFrame(id), step.attempt, id);
    } else if id in s.pending {
      PendingHasNone(s, id);
    }
  }

  lemma StepPendingOpen(s: Shared, step: Step)
    requires Good(s) && PendingOpen(s) && Enabled(s, step)
    ensures PendingOpen(Take(s, step))
  {
    hide Good, Take, Enabled, OpenCall;
    forall id | id in Take(s, step).pending ensures OpenCall(Take(s, step), id) {
      if About(step, id) {
        OwnStepStaysOpen(s, step, id);
      } else {
        BystanderStaysOpen(s, step, id);
      }
    }
  }

  /** Over every run a call that has returned or was forgotten takes up no place in the
      table of pending calls. */
  lemma {:induction false} OnlyOpenCallsArePending(s: Shared, steps: seq<Step>)
    requires Good(s) && PendingOpen(s) && ValidRun(s, steps)
    ensures PendingOpen(Run(s, steps))
    decreases |steps|
  {
    hide Good, Take, Enabled, PendingOpen;
    if steps != [] {
      StepKeeps(s, steps[0]);
      StepPendingOpen(s, steps[0]);
      OnlyOpenCallsArePending(Take(s, steps[0]), steps[1..]);
    }
  }
}
