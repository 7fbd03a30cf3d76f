/**
 What a lease is for: while one token of a resource validates nobody else gets the
 resource, and a token that validates goes on validating until its own time is over, its
 holder gives it up, or the owner it was offered to takes it.
 */
module LeaseLaws {
  import opened Base
  import opened Leases

  /** Somebody holds the resource at this time. */
  ghost predicate Held(t: Table, resource: string, now: nat) {
    exists owner, token :: Validate(t, resource, owner, token, now).Ok?
  }

  /** `owner` and `token` validate exactly before `until`, and nobody else at any time. */
  ghost predicate HoldsUntil(t: Table, resource: string, owner: string, token: string, until: nat) {
    forall o, k, at: nat :: Validate(t, resource, o, k, at).Ok? <==> o == owner && k == token && at < until
  }

  lemma LeaseHolds(t: Table, resource: string)
    requires resource in t.leases
    ensures HoldsUntil(t, resource, t.leases[resource].owner, t.leases[resource].token, t.leases[resource].expiresAt)
  {
  }

  /** A resource is given out exactly when no token validates for it, and a refusal names
      the holder and the time until which it holds. */
  lemma AcquireIffUnheld(t: Table, kind: string, resource: string, owner: string, ttl: nat, newId: string, newToken: string, now: nat)
    ensures
      var r := Acquire(t, kind, resource, owner, ttl, newId, newToken, now);
      && (r.Ok? <==> !Held(t, resource, now))
      && (r.Err? ==> r.error.ActiveLease?)
      && (r.Err? ==> exists token :: HoldsUntil(t, resource, r.error.owner, token, r.error.expiresAt))
  {
    if resource in t.leases {
      var l := t.leases[resource];
      assert Validate(t, resource, l.owner, l.token, now).Ok? <==> now < l.expiresAt;
      LeaseHolds(t, resource);
    }
  }

  /** At one time at most one owner and token validate for a resource. */
  lemma OneHolder(t: Table, resource: string, now: nat, owner: string, token: string, owner': string, token': string)
    requires Validate(t, resource, owner, token, now).Ok? && Validate(t, resource, owner', token', now).Ok?
    ensures owner' == owner && token' == token
  {
  }

  lemma GrantedHolds(t: Table, kind: string, resource: string, owner: string, ttl: nat, newId: string, newToken: string, now: nat)
    requires !Held(t, resource, now)
    ensures var g := Acquire(t, kind, resource, owner, ttl, newId, newToken, now);
      g.Ok? && HoldsUntil(g.value.table, resource, owner, newToken, SaturatingAdd(now, ttl))
  {
    AcquireIffUnheld(t, kind, resource, owner, ttl, newId, newToken, now);
  }

  /** Only a token that validates is renewed, offered or released; a renewal holds for its
      new time, an offer changes nothing yet, and a release leaves nobody. */
  lemma HolderActs(t: Table, resource: string, owner: string, token: string, ttl: nat, target: string, now: nat)
    ensures
      var valid := Validate(t, resource, owner, token, now).Ok?;
      var renewed := Renew(t, resource, owner, token, ttl, now);
      var offered := OfferHandoff(t, resource, owner, token, target, now);
      var released := Release(t, resource, owner, token, now);
      && (renewed.Ok? <==> valid) && (offered.Ok? <==> valid) && (released.Ok? <==> valid)
      && (valid ==>
            && HoldsUntil(renewed.value.table, resource, owner, token, SaturatingAdd(now, ttl))
            && HoldsUntil(offered.value.table, resource, owner, token, t.leases[resource].expiresAt)
            && offered.value.table.leases[resource].handoffTo == Some(target)
            && forall at: nat :: !Held(released.value.table, resource, at))
  {
  }

  /** An offer is taken by the owner it names and nobody else, who then holds it; the token
      it replaces is dead. */
  lemma OfferIsTaken(t: Table, resource: string, target: string, ttl: nat, newToken: string, now: nat)
    ensures
      var taken := TakeHandoff(t, resource, target, ttl, newToken, now);
      && (taken.Ok? <==> resource in t.leases && t.leases[resource].handoffTo == Some(target))
      && (taken.Ok? ==> HoldsUntil(taken.value.table, resource, target, newToken, SaturatingAdd(now, ttl)))
  {
  }

  /** Reaping forgets only what has expired. */
  lemma ReapIsInvisible(t: Table, now: nat, resource: string, owner: string, token: string, later: nat)
    requires now <= later
    ensures Validate(Reap(t, now), resource, owner, token, later) == Validate(t, resource, owner, token, later)
  {
  }

  // ----- Over every run -----

  /** A lease as its holder knows it. */
  datatype Holding = Holding(resource: string, owner: string, token: string, until: nat, offered: Option<string>)

  /** The operation is the holder's own, on this resource. */
  predicate Own(h: Holding, op: Op) {
    (op.OpRenew? || op.OpHandoff? || op.OpRelease?) && op.resource == h.resource && op.owner == h.owner && op.token == h.token
  }

  /** What the holder's own renewals and offers make of its lease. */
  function Updated(h: Holding, op: Op, now: nat): Holding {
    if op.OpRenew? && Own(h, op) then h.(until := SaturatingAdd(now, op.ttl))
    else if op.OpHandoff? && Own(h, op) then h.(offered := Some(op.target))
    else h
  }

  /** The holder releases it, or the owner it was offered to takes it. */
  predicate GivesUp(h: Holding, op: Op) {
    (op.OpRelease? && Own(h, op)) || (op.OpTake? && op.resource == h.resource && h.offered == Some(op.target))
  }

  /** Every operation comes before the lease's end, and none gives it up. */
  predicate Keeps(h: Holding, ops: seq<(Op, nat)>)
    decreases |ops|
  {
    ops == [] || (ops[0].1 < h.until && !GivesUp(h, ops[0].0) && Keeps(Updated(h, ops[0].0, ops[0].1), ops[1..]))
  }

  function HoldingAfter(h: Holding, ops: seq<(Op, nat)>): Holding
    decreases |ops|
  {
    if ops == [] then h else HoldingAfter(Updated(h, ops[0].0, ops[0].1), ops[1..])
  }

  predicate Recorded(t: Table, h: Holding) {
    && h.resource in t.leases
    && var l := t.leases[h.resource];
    l.owner == h.owner && l.token == h.token && l.expiresAt == h.until && l.handoffTo == h.offered
  }

  lemma StepHolds(s: State, h: Holding, op: Op, now: nat)
    requires Numbered(s) && Enabled(s, op, now) && Recorded(s.t, h) && now < h.until && !GivesUp(h, op)
    ensures Recorded(Take(s, op, now).t, Updated(h, op, now))
  {
    if op.OpRestore? {
      RestoreIsIdentity(s.t, op.list);
    }
  }

  /** Over every run, whatever all other owners try: a token that validates keeps validating
      until its own expiry, as its holder last renewed it, unless its holder releases it or
      the owner it was offered to takes it. Until then nobody else validates, and every
      attempt to acquire the resource is refused. */
  lemma {:induction false} HeldUntilGivenUp(s: State, h: Holding, ops: seq<(Op, nat)>)
    requires Numbered(s) && ValidRun(s, ops) && Recorded(s.t, h) && Keeps(h, ops)
    ensures
      var end := HoldingAfter(h, ops);
      && end.resource == h.resource && end.owner == h.owner && end.token == h.token
      && HoldsUntil(Run(s, ops).t, h.resource, h.owner, h.token, end.until)
      && forall kind, o, ttl: nat, id, k, at: nat :: at < end.until ==> Acquire(Run(s, ops).t, kind, h.resource, o, ttl, id, k, at).Err?
    decreases |ops|
  {
    hide Numbered, Enabled, Take;
    if ops == [] {
      LeaseHolds(s.t, h.resource);
    } else {
      StepNumbers(s, ops[0].0, ops[0].1);
      StepHolds(s, h, ops[0].0, ops[0].1);
      HeldUntilGivenUp(Take(s, ops[0].0, ops[0].1), Updated(h, ops[0].0, ops[0].1), ops[1..]);
    }
  }

  /** The holder does not use this token to renew, offer or release. */
  predicate Untouched(h: Holding, ops: seq<(Op, nat)>) {
    forall i :: 0 <= i < |ops| ==> ops[i].1 < h.until && !Own(h, ops[i].0)
  }

  lemma {:induction false} UntouchedKeeps(h: Holding, ops: seq<(Op, nat)>)
    requires Untouched(h, ops) && h.offered.None?
    ensures Keeps(h, ops) && HoldingAfter(h, ops) == h
    decreases |ops|
  {
    if ops != [] {
      assert !Own(h, ops[0].0);
      UntouchedKeeps(h, ops[1..]);
    }
  }

  /** From the first lease on: a resource that was acquired and never offered has no other
      owner before its expiry, whatever operations others make. */
  lemma OwnerChangesOnlyByOffer(before: seq<(Op, nat)>, kind: string, resource: string, owner: string, ttl: nat,
                                id: string, token: string, now: nat, later: seq<(Op, nat)>)
    requires ValidRun(START, before)
    requires var s := Run(START, before);
      var op := OpAcquire(kind, resource, owner, ttl, id, token);
      && Enabled(s, op, now) && !Held(s.t, resource, now) && ValidRun(Take(s, op, now), later)
    requires Untouched(Holding(resource, owner, token, SaturatingAdd(now, ttl), None), later)
    ensures
      var s := Take(Run(START, before), OpAcquire(kind, resource, owner, ttl, id, token), now);
      HoldsUntil(Run(s, later).t, resource, owner, token, SaturatingAdd(now, ttl))
  {
    hide Numbered, Enabled, HoldsUntil;
    var s := Run(START, before);
    var op := OpAcquire(kind, resource, owner, ttl, id, token);
    var h := Holding(resource, owner, token, SaturatingAdd(now, ttl), None);
    StartIsNumbered();
    RunNumbers(START, before);
    StepNumbers(s, op, now);
    AcquireIffUnheld(s.t, kind, resource, owner, ttl, id, token, now);
    UntouchedKeeps(h, later);
    HeldUntilGivenUp(Take(s, op, now), h, later);
  }

  lemma StartIsNumbered()
    ensures Numbered(START)
  {
  }
}
