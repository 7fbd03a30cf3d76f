/**
 The shared connection object: the critical sections of `Peer` as methods that
 update its fields in place.
 */
module PeerObject {
  import opened Base
  import opened Peer

  class Connection {
    const scoped: bool
    const limits: Limits
    var ready: bool
    var services: set<string>
    var closed: Option<CloseReason>
    var failed: Option<CloseReason>
    var pending: map<string, string>
    var transit: map<string, Response>
    var calls: map<string, Call>
    var inbound: map<string, Handler>
    var outgoing: seq<Frame>
    ghost var written: seq<Frame>
    ghost var heard: set<(string, Response)>

    constructor (scoped: bool, limits: Limits)
      ensures View() == Start(scoped, limits)
    {
      this.scoped, this.limits := scoped, limits;
      ready, services, closed, failed := false, {}, None, None;
      pending, transit, calls, inbound := map[], map[], map[], map[];
      outgoing, written, heard := [], [], {};
    }

    ghost function View(): Shared
      reads this
    {
      Shared(scoped, limits, ready, services, closed, failed, pending, transit, calls, inbound, outgoing, written, heard)
    }

    /** Mark every inbound request cancelled, one after the other. */
    method CancelInbound()
      modifies `inbound
      ensures inbound == map id | id in old(inbound) :: old(inbound)[id].(cancelled := true)
    {
      ghost var before := inbound;
      var left := inbound.Keys;
      while left != {}
        invariant left <= before.Keys == inbound.Keys
        invariant forall id :: id in before ==> inbound[id] == if id in left then before[id] else before[id].(cancelled := true)
        decreases |left|
      {
        var id :| id in left;
        inbound := inbound[id := inbound[id].(cancelled := true)];
        left := left - {id};
      }
    }

    /** The failure of every call that was taken, one after the other. */
    static method Failures(taken: map<string, string>) returns (r: map<string, Response>)
      ensures r == map id | id in taken :: UnknownOutcome(taken[id])
    {
      r := map[];
      var left := taken.Keys;
      while left != {}
        invariant left <= taken.Keys && r.Keys == taken.Keys - left
        invariant forall id :: id in r ==> r[id] == UnknownOutcome(taken[id])
        decreases |left|
      {
        var id :| id in left;
        r := r[id := UnknownOutcome(taken[id])];
        left := left - {id};
      }
    }

    method CloseWith(reason: CloseReason)
      modifies `closed, `inbound, `transit, `pending
      ensures View() == Close(old(View()), reason)
    {
      if closed.Some? {
        return;
      }
      closed := Some(reason);
      CancelInbound();
      var taken := pending;
      pending := map[];
      var failures := Failures(taken);
      transit := transit + failures;
    }

    method SendFrame(f: Frame, attempt: Attempt)
      modifies `closed, `inbound, `transit, `pending, `outgoing
      ensures View() == Send(old(View()), f, attempt)
    {
      if attempt.NotLive? {
        CloseWith(LeaseEnded);
      } else if attempt.TooLong? {
        return;
      } else if |outgoing| >= limits.queued {
        CloseWith(Backpressure);
      } else {
        outgoing := outgoing + [f];
      }
    }

    /** A refused call leaves nothing behind, also when only the queue is full. */
    method StartCall(id: string, requestId: string, service: string) returns (refusal: Option<Refusal>)
      requires id !in pending
      modifies `pending, `outgoing, `calls
      ensures refusal == Refuses(old(View()), service)
      ensures View() == BeginCall(old(View()), id, requestId, service)
    {
      if closed.Some? || !ready {
        return Some(NotReady);
      }
      if service !in services {
        return Some(ServiceUnavailable);
      }
      if |pending| >= limits.outbound {
        return Some(OutboundLimit);
      }
      pending := pending[id := requestId];
      if |outgoing| >= limits.queued {
        pending := pending - {id};
        assert pending == old(pending);
        return Some(QueueFull);
      }
      outgoing := outgoing + [RequestFrame(id)];
      calls := calls[id := Call(requestId, Waiting, None)];
      return None;
    }

    method HearFrame(id: string, r: Response)
      modifies `pending, `transit, `failed, `heard
      ensures View() == Hear(old(View()), id, r)
    {
      heard := heard + {(id, r)};
      if id in pending {
        var requestId := pending[id];
        pending := pending - {id};
        if scoped && r.requestId != requestId {
          transit := transit[id := UnknownOutcome(requestId)];
          failed := Some(ProtocolError);
        } else {
          transit := transit[id := r];
        }
      }
    }

    method AdmitFrame(id: string, attempt: Attempt)
      modifies `closed, `inbound, `transit, `pending, `outgoing, `failed
      ensures View() == Admit(old(View()), id, attempt)
    {
      if id in inbound {
        failed := Some(ProtocolError);
      } else if |inbound| >= limits.inbound {
        SendFrame(ResponseFrame(id), attempt);
      } else {
        inbound := inbound[id := Handler(false, Admitted)];
      }
    }

    /** After the handshake the peer's services can be called, unless it is closed by then. */
    method FinishHandshake(roles: set<string>)
      requires Enabled(View(), HandshakeDone(roles))
      modifies `ready, `services
      ensures View() == Take(old(View()), HandshakeDone(roles))
    {
      if closed.None? {
        ready, services := true, roles;
      }
    }

    /** The reader or the closer sends a message it has taken out of the table. */
    method SendMessage(id: string)
      requires id in transit
      modifies `transit, `calls
      ensures View() == Deliver(old(View()), id)
    {
      var message := transit[id];
      transit := transit - {id};
      if id in calls {
        calls := calls[id := calls[id].(inbox := Some(message))];
      }
    }

    /** The caller: what is in its channel, or its deadline. */
    method ReceiveOrElapse(id: string) returns (answer: Option<Response>)
      requires InState(View(), id, Waiting)
      modifies `calls
      ensures answer == old(calls[id].inbox)
      ensures View() == Take(old(View()), if answer.Some? then Receive(id) else Elapse(id))
    {
      answer := calls[id].inbox;
      calls := calls[id := calls[id].(state := if answer.Some? then Returned(answer.value) else Elapsed)];
    }

    /** The caller after its deadline: forget the call. */
    method ForgetCall(id: string)
      requires InState(View(), id, Elapsed)
      modifies `pending, `calls
      ensures View() == Take(old(View()), Forget(id))
    {
      pending := pending - {id};
      calls := calls[id := calls[id].(state := Forgotten)];
    }

    /** The caller after that: ask the peer to cancel, and report an unknown outcome. */
    method GiveUpOn(id: string, attempt: Attempt) returns (answer: Response)
      requires InState(View(), id, Forgotten)
      modifies `closed, `inbound, `transit, `pending, `outgoing, `calls
      ensures View() == Take(old(View()), GiveUpCall(id, attempt))
      ensures answer == UnknownOutcome(old(calls[id].requestId)) && calls[id].state == Returned(answer)
    {
      if scoped {
        SendFrame(CancelFrame(id), attempt);
      }
      answer := UnknownOutcome(calls[id].requestId);
      calls := calls[id := calls[id].(state := Returned(answer))];
    }

    /** The handler's thread: is the connection still live? */
    method CheckLive(id: string, leaseEnded: bool) returns (live: bool)
      requires InStage(View(), id, Admitted)
      modifies `closed, `inbound, `transit, `pending
      ensures View() == Take(old(View()), CheckRequest(id, leaseEnded))
      ensures live <==> InStage(View(), id, Checked)
    {
      if leaseEnded {
        CloseWith(LeaseEnded);
      }
      live := closed.None?;
      inbound := inbound[id := inbound[id].(stage := if live then Checked else Responding)];
    }

    /** The handler's thread: start unless it is refused or cancelled. */
    method StartHandler(id: string, authorized: bool) returns (running: bool)
      requires InStage(View(), id, Checked)
      modifies `inbound
      ensures View() == Take(old(View()), Dispatch(id, authorized))
      ensures running <==> InStage(View(), id, Running)
    {
      running := authorized && !inbound[id].cancelled;
      inbound := inbound[id := inbound[id].(stage := if running then Running else Responding)];
    }

    /** The handler's thread: queue the response. */
    method Answer(id: string, attempt: Attempt)
      requires InStage(View(), id, Responding)
      modifies `closed, `inbound, `transit, `pending, `outgoing
      ensures View() == Take(old(View()), Respond(id, attempt))
    {
      SendFrame(ResponseFrame(id), attempt);
      inbound := inbound[id := inbound[id].(stage := Answered)];
    }

    method CancelInboundRequest(id: string)
      requires Enabled(View(), CancelRequest(id))
      modifies `inbound
      ensures View() == Take(old(View()), CancelRequest(id))
    {
      inbound := inbound[id := inbound[id].(cancelled := true)];
    }
  }
}
