/** The lease table as an object whose two maps are updated in place. */
module LeaseTableObject {
  import opened Base
  import opened Leases

  class LeaseTable {
    var leases: map<string, Lease>
    var fences: map<string, nat>

    ghost function View(): Table
      reads this
    {
      Table(leases, fences)
    }

    constructor (list: seq<Lease>, saved: map<string, nat>)
      ensures View() == FromSnapshot(list, saved)
    {
      leases, fences := map[], saved;
      new;
      var i := 0;
      while i < |list|
        invariant 0 <= i <= |list|
        invariant View() == FromSnapshot(list[..i], saved)
      {
        var lease := list[i];
        var fence := if lease.resource in fences then fences[lease.resource] else 0;
        fences := fences[lease.resource := if fence < lease.fence then lease.fence else fence];
        leases := leases[lease.resource := lease];
        i := i + 1;
        assert list[..i][..i - 1] == list[..i - 1];
      }
      assert list[..i] == list;
    }

    method AcquireLease(kind: string, resource: string, owner: string, ttl: nat, newId: string, newToken: string, now: nat)
      returns (r: Result<Lease, LeaseError>)
      modifies this
      ensures Matches(r, Acquire(old(View()), kind, resource, owner, ttl, newId, newToken, now), old(View()), View())
    {
      if resource in leases && leases[resource].expiresAt > now {
        return Err(ActiveLease(leases[resource].owner, leases[resource].expiresAt));
      }
      var fence := (if resource in fences then fences[resource] else 0) + 1;
      fences := fences[resource := fence];
      var lease := Lease(newId, kind, resource, owner, newToken, fence, now, now, SaturatingAdd(now, ttl), None);
      leases := leases[resource := lease];
      r := Ok(lease);
    }

    method Check(resource: string, owner: string, token: string, now: nat) returns (r: Result<Lease, LeaseError>)
      ensures r == Validate(View(), resource, owner, token, now)
    {
      if resource !in leases {
        return Err(NotFound);
      }
      var lease := leases[resource];
      if lease.expiresAt <= now {
        return Err(NotFound);
      }
      if lease.owner != owner || lease.token != token {
        return Err(OwnedByOther);
      }
      r := Ok(lease);
    }

    method RenewLease(resource: string, owner: string, token: string, ttl: nat, now: nat) returns (r: Result<Lease, LeaseError>)
      modifies this
      ensures Matches(r, Renew(old(View()), resource, owner, token, ttl, now), old(View()), View())
    {
      r := Check(resource, owner, token, now);
      if r.Ok? {
        var lease := leases[resource].(updatedAt := now, expiresAt := SaturatingAdd(now, ttl));
        leases := leases[resource := lease];
        r := Ok(lease);
      }
    }

    method HandoffLease(resource: string, owner: string, token: string, target: string, now: nat) returns (r: Result<Lease, LeaseError>)
      modifies this
      ensures Matches(r, OfferHandoff(old(View()), resource, owner, token, target, now), old(View()), View())
    {
      r := Check(resource, owner, token, now);
      if r.Ok? {
        var lease := leases[resource].(handoffTo := Some(target), updatedAt := now);
        leases := leases[resource := lease];
        r := Ok(lease);
      }
    }

    method TakeLease(resource: string, target: string, ttl: nat, newToken: string, now: nat) returns (r: Result<Lease, LeaseError>)
      modifies this
      ensures Matches(r, TakeHandoff(old(View()), resource, target, ttl, newToken, now), old(View()), View())
    {
      if resource !in leases {
        return Err(NotFound);
      }
      var lease := leases[resource];
      if lease.handoffTo != Some(target) {
        return Err(InvalidHandoff);
      }
      var fence := (if resource in fences then fences[resource] else lease.fence) + 1;
      fences := fences[resource := fence];
      lease := lease.(owner := target, token := newToken, fence := fence, acquiredAt := now, updatedAt := now);
      lease := lease.(expiresAt := SaturatingAdd(now, ttl), handoffTo := None);
      leases := leases[resource := lease];
      r := Ok(lease);
    }

    method ReleaseLease(resource: string, owner: string, token: string, now: nat) returns (r: Result<Lease, LeaseError>)
      modifies this
      ensures Matches(r, Release(old(View()), resource, owner, token, now), old(View()), View())
    {
      r := Check(resource, owner, token, now);
      if r.Ok? {
        leases := leases - {resource};
      }
    }

    method ReapExpired(now: nat) returns (removed: seq<Lease>)
      modifies this`leases
      ensures View() == Reap(old(View()), now)
      ensures forall l :: l in removed <==> exists r :: r in old(leases) && old(leases)[r] == l && l.expiresAt <= now
    {
      var expired := set r | r in leases && leases[r].expiresAt <= now;
      ghost var all, done := expired, {};
      removed := [];
      while expired != {}
        invariant done + expired == all && done !! expired
        invariant leases == old(leases) - done
        invariant forall l :: l in removed <==> exists r :: r in done && old(leases)[r] == l
        decreases expired
      {
        var r :| r in expired;
        removed := removed + [leases[r]];
        leases := leases - {r};
        expired, done := expired - {r}, done + {r};
      }
    }
  }

  /** A method's result and new table are those of its function. */
  ghost predicate Matches(r: Result<Lease, LeaseError>, g: Result<Granted, LeaseError>, before: Table, after: Table) {
    if g.Ok? then r == Ok(g.value.lease) && after == g.value.table else r == Err(g.error) && after == before
  }
}
