/**
 The session list of one Controller, updated in place by the three session
 handlers. The network call in the middle of a handoff splits its handler in two.
 */
module HandoffController {
  import opened Base
  import opened Handoff

  datatype Session = Session(id: string, authority: Option<Authority>)

  /** The authority of the first session with this id. */
  function Lookup(sessions: seq<Session>, id: string): Option<Authority> {
    if sessions == [] then None
    else if sessions[0].id == id then sessions[0].authority
    else Lookup(sessions[1..], id)
  }

  lemma {:induction false} LookupSkips(sessions: seq<Session>, id: string, i: nat)
    requires i <= |sessions| && forall j :: 0 <= j < i ==> sessions[j].id != id
    ensures Lookup(sessions, id) == Lookup(sessions[i..], id)
  {
    if i > 0 {
      assert sessions[1..][i - 1..] == sessions[i..];
      LookupSkips(sessions[1..], id, i - 1);
    }
  }

  /** Replacing or appending a session changes what is found under its id only. */
  lemma {:induction false} ReplacedLookup(sessions: seq<Session>, i: nat, s: Session, id: string)
    requires i < |sessions| && sessions[i].id == s.id && id != s.id
    ensures Lookup(sessions[i := s], id) == Lookup(sessions, id)
  {
    if i > 0 {
      assert sessions[i := s][1..] == sessions[1..][i - 1 := s];
      ReplacedLookup(sessions[1..], i - 1, s, id);
    } else {
      assert sessions[0 := s][1..] == sessions[1..];
    }
  }

  lemma {:induction false} AppendedLookup(sessions: seq<Session>, s: Session, id: string)
    ensures id != s.id ==> Lookup(sessions + [s], id) == Lookup(sessions, id)
    ensures id == s.id && (forall j :: 0 <= j < |sessions| ==> sessions[j].id != id) ==>
      Lookup(sessions + [s], id) == s.authority
  {
    if sessions != [] {
      assert (sessions + [s])[1..] == sessions[1..] + [s];
      AppendedLookup(sessions[1..], s, id);
    }
  }

  /** The record of one session becomes `a`; no other session changes. */
  ghost predicate Became(before: seq<Session>, after: seq<Session>, id: string, a: Option<Authority>) {
    && Lookup(after, id) == a
    && forall other :: other != id ==> Lookup(after, other) == Lookup(before, other)
  }

  class Controller {
    const self: string
    var sessions: seq<Session>

    constructor (id: string)
      ensures self == id && sessions == []
    {
      self := id;
      sessions := [];
    }

    method Find(id: string) returns (r: Option<Authority>)
      ensures r == Lookup(sessions, id)
    {
      var i := 0;
      while i < |sessions| && sessions[i].id != id
        invariant 0 <= i <= |sessions|
        invariant forall j :: 0 <= j < i ==> sessions[j].id != id
      {
        i := i + 1;
      }
      LookupSkips(sessions, id, i);
      r := if i < |sessions| then sessions[i].authority else None;
    }

    /** Replace the session of this id, or add it. */
    method Upsert(id: string, a: Authority)
      modifies this
      ensures Became(old(sessions), sessions, id, Some(a))
    {
      var i := 0;
      while i < |sessions| && sessions[i].id != id
        invariant 0 <= i <= |sessions|
        invariant forall j :: 0 <= j < i ==> sessions[j].id != id
        invariant sessions == old(sessions)
      {
        i := i + 1;
      }
      var s := Session(id, Some(a));
      if i < |sessions| {
        sessions := sessions[i := s];
        LookupSkips(sessions, id, i);
        forall other | other != id ensures Lookup(sessions, other) == Lookup(old(sessions), other) {
          ReplacedLookup(old(sessions), i, s, other);
        }
      } else {
        sessions := sessions + [s];
        AppendedLookup(old(sessions), s, id);
        forall other | other != id ensures Lookup(sessions, other) == Lookup(old(sessions), other) {
          AppendedLookup(old(sessions), s, other);
        }
      }
    }

    method PutSession(id: string, given: Option<Authority>) returns (r: Result<Authority, HandoffError>)
      modifies this
      ensures r == Put(self, Lookup(old(sessions), id), given)
      ensures Became(old(sessions), sessions, id, if r.Ok? then Some(r.value) else Lookup(old(sessions), id))
    {
      var authority := Authority(self, 1, None);
      if given.Some? {
        if given.value.controllerId != self {
          return Err(NotAuthority);
        }
        var existing := Find(id);
        if existing != given {
          return Err(InvalidAuthority);
        }
        authority := given.value;
      }
      Upsert(id, authority);
      r := Ok(authority);
    }

    method AcceptHandoff(id: string, offer: Authority) returns (r: Result<Authority, HandoffError>)
      modifies this
      ensures r == Accept(self, Lookup(old(sessions), id), offer)
      ensures Became(old(sessions), sessions, id, if r.Ok? then Some(offer) else Lookup(old(sessions), id))
    {
      if offer.controllerId != self {
        return Err(InvalidAuthority);
      }
      var existing := Find(id);
      if existing == Some(offer) {
        return Ok(offer);
      }
      if existing.Some? && existing.value.epoch >= offer.epoch {
        return Err(StaleEpoch);
      }
      Upsert(id, offer);
      r := Ok(offer);
    }

    /** The part of `session.handoff` before the offer is sent. */
    method MarkHandoff(id: string, target: string, quiescent: bool) returns (r: Result<Authority, HandoffError>)
      modifies this
      ensures var marked := Mark(self, Lookup(old(sessions), id), target, quiescent);
              && r == (if marked.Ok? then Ok(Offer(marked.value, target)) else Err(marked.error))
              && Became(old(sessions), sessions, id, if marked.Ok? then Some(marked.value) else Lookup(old(sessions), id))
    {
      if !quiescent {
        return Err(NotQuiescent);
      }
      var existing := Find(id);
      if existing.None? {
        return Err(SessionNotFound);
      }
      var current := existing.value;
      if current.controllerId != self {
        return Err(NotAuthority);
      }
      if current.pending.Some? && current.pending.value != target {
        return Err(InProgress);
      }
      if current.pending.None? {
        Upsert(id, Authority(self, current.epoch, Some(target)));
      }
      r := Ok(Authority(target, SaturatingAdd(current.epoch, 1), None));
    }

    /** The part after the target's answer. */
    method CommitHandoff(id: string, offer: Authority, accepted: bool) returns (r: Result<Authority, HandoffError>)
      modifies this
      ensures r == if accepted then Ok(offer) else Err(Rejected)
      ensures Became(old(sessions), sessions, id, if accepted then Some(offer) else Lookup(old(sessions), id))
    {
      if !accepted {
        return Err(Rejected);
      }
      Upsert(id, offer);
      r := Ok(offer);
    }

    method RouteRequest(id: string, passesPending: bool) returns (r: RouteDecision)
      ensures r == Route(self, Lookup(sessions, id), passesPending)
    {
      var existing := Find(id);
      if existing.None? {
        return Here;
      }
      if existing.value.pending.Some? && !passesPending {
        return HandoffInProgress(existing.value.pending.value);
      }
      r := if existing.value.controllerId == self then Here else Forward(existing.value.controllerId);
    }
  }
}
