/**
 Fenced leases: one lease per resource, a fence number that grows with every
 grant, and tokens that die for good.
 */
module Leases {
  import opened Base

  datatype Lease = Lease(
    id: string, kind: string, resource: string, owner: string, token: string, fence: nat,
    acquiredAt: nat, updatedAt: nat, expiresAt: nat, handoffTo: Option<string>)

  datatype Table = Table(leases: map<string, Lease>, fences: map<string, nat>) {
    function FenceOf(resource: string, default: nat): nat {
      if resource in fences then fences[resource] else default
    }
  }

  const EMPTY := Table(map[], map[])

  datatype LeaseError = ActiveLease(owner: string, expiresAt: nat) | NotFound | OwnedByOther | InvalidHandoff

  datatype Granted = Granted(table: Table, lease: Lease)

  // ----- Operations -----

  function Acquire(t: Table, kind: string, resource: string, owner: string, ttl: nat, newId: string, newToken: string, now: nat)
    : Result<Granted, LeaseError>
  {
    if resource in t.leases && t.leases[resource].expiresAt > now then
      Err(ActiveLease(t.leases[resource].owner, t.leases[resource].expiresAt))
    else
      var fence := t.FenceOf(resource, 0) + 1;
      var lease := Lease(newId, kind, resource, owner, newToken, fence, now, now, SaturatingAdd(now, ttl), None);
      Ok(Granted(Table(t.leases[resource := lease], t.fences[resource := fence]), lease))
  }

  function Validate(t: Table, resource: string, owner: string, token: string, now: nat): Result<Lease, LeaseError> {
    if resource !in t.leases then Err(NotFound)
    else
      var lease := t.leases[resource];
      if lease.expiresAt <= now then Err(NotFound)
      else if lease.owner != owner || lease.token != token then Err(OwnedByOther)
      else Ok(lease)
  }

  function Renew(t: Table, resource: string, owner: string, token: string, ttl: nat, now: nat): Result<Granted, LeaseError> {
    var v := Validate(t, resource, owner, token, now);
    if v.Err? then Err(v.error)
    else
      var lease := v.value.(updatedAt := now, expiresAt := SaturatingAdd(now, ttl));
      Ok(Granted(t.(leases := t.leases[resource := lease]), lease))
  }

  function OfferHandoff(t: Table, resource: string, owner: string, token: string, target: string, now: nat): Result<Granted, LeaseError> {
    var v := Validate(t, resource, owner, token, now);
    if v.Err? then Err(v.error)
    else
      var lease := v.value.(handoffTo := Some(target), updatedAt := now);
      Ok(Granted(t.(leases := t.leases[resource := lease]), lease))
  }

  /** Taking a handoff does not look at the expiry of the lease it replaces. */
  function TakeHandoff(t: Table, resource: string, target: string, ttl: nat, newToken: string, now: nat): Result<Granted, LeaseError> {
    if resource !in t.leases then Err(NotFound)
    else
      var replaced := t.leases[resource];
      if replaced.handoffTo != Some(target) then Err(InvalidHandoff)
      else
        var fence := t.FenceOf(resource, replaced.fence) + 1;
        var lease := replaced.(owner := target, token := newToken, fence := fence, acquiredAt := now, updatedAt := now,
                                expiresAt := SaturatingAdd(now, ttl), handoffTo := None);
        Ok(Granted(Table(t.leases[resource := lease], t.fences[resource := fence]), lease))
  }

  function Release(t: Table, resource: string, owner: string, token: string, now: nat): Result<Granted, LeaseError> {
    var v := Validate(t, resource, owner, token, now);
    if v.Err? then Err(v.error) else Ok(Granted(t.(leases := t.leases - {resource}), v.value))
  }

  function Reap(t: Table, now: nat): Table {
    t.(leases := t.leases - set r | r in t.leases && t.leases[r].expiresAt <= now)
  }

  /** Rebuild a table from saved leases and fences; a lease raises its fence. */
  function FromSnapshot(leases: seq<Lease>, fences: map<string, nat>): Table {
    if leases == [] then Table(map[], fences)
    else
      var last := leases[|leases| - 1];
      var t := FromSnapshot(leases[..|leases| - 1], fences);
      var fence := t.FenceOf(last.resource, 0);
      Table(t.leases[last.resource := last], t.fences[last.resource := if fence < last.fence then last.fence else fence])
  }

  // ----- Restoring -----

  /** Every lease is under its resource and carries the latest fence issued for it. */
  ghost predicate Fenced(t: Table) {
    forall r :: r in t.leases ==> t.leases[r].resource == r && r in t.fences && t.fences[r] == t.leases[r].fence
  }

  /** `list` holds every lease of the table, in any order. */
  ghost predicate Lists(t: Table, list: seq<Lease>) {
    && (forall i :: 0 <= i < |list| ==> list[i].resource in t.leases && t.leases[list[i].resource] == list[i])
    && (forall r :: r in t.leases ==> exists i :: 0 <= i < |list| && list[i].resource == r)
  }

  /** `u` is a part of `t`, with the given fences and those of its leases. */
  ghost predicate PartOf(u: Table, t: Table, fences: map<string, nat>) {
    && (forall r :: r in u.leases ==> r in t.leases && u.leases[r] == t.leases[r])
    && (forall r :: r in u.fences ==> r in t.fences && u.fences[r] == t.fences[r])
    && (forall r :: r in u.fences <==> r in fences || r in u.leases)
  }

  lemma RestoredNone(t: Table, fences: map<string, nat>)
    requires forall r :: r in fences ==> r in t.fences && t.fences[r] == fences[r]
    ensures PartOf(Table(map[], fences), t, fences)
  {
  }

  lemma RestoredOne(u: Table, t: Table, fences: map<string, nat>, lease: Lease)
    requires Fenced(t) && PartOf(u, t, fences) && lease.resource in t.leases && t.leases[lease.resource] == lease
    ensures var fence := u.FenceOf(lease.resource, 0);
            PartOf(Table(u.leases[lease.resource := lease],
                         u.fences[lease.resource := if fence < lease.fence then lease.fence else fence]), t, fences)
  {
  }

  lemma {:induction false} RestoredPart(t: Table, list: seq<Lease>, fences: map<string, nat>)
    requires Fenced(t)
    requires forall i :: 0 <= i < |list| ==> list[i].resource in t.leases && t.leases[list[i].resource] == list[i]
    requires forall r :: r in fences ==> r in t.fences && t.fences[r] == fences[r]
    ensures PartOf(FromSnapshot(list, fences), t, fences)
    ensures forall i :: 0 <= i < |list| ==> list[i].resource in FromSnapshot(list, fences).leases
  {
    hide PartOf, Fenced;
    if list == [] {
      RestoredNone(t, fences);
    } else {
      var n := |list| - 1;
      RestoredPart(t, list[..n], fences);
      var u := FromSnapshot(list[..n], fences);
      RestoredOne(u, t, fences, list[n]);
      forall i | 0 <= i < |list| ensures list[i].resource in FromSnapshot(list, fences).leases {
        if i < n {
          assert list[..n][i] == list[i];
        }
      }
    }
  }

  /** A table is restored exactly from its own leases and fences. */
  lemma RestoreIsIdentity(t: Table, list: seq<Lease>)
    requires Fenced(t) && Lists(t, list)
    ensures FromSnapshot(list, t.fences) == t
  {
    RestoredPart(t, list, t.fences);
    var u := FromSnapshot(list, t.fences);
    forall r | r in t.leases ensures r in u.leases {
      var i :| 0 <= i < |list| && list[i].resource == r;
    }
    assert u.leases == t.leases && u.fences == t.fences;
  }

  /** Restoring from the leases alone keeps the fences exactly when every resource
      that was ever leased still is. */
  lemma RestoreWithoutFencesIffAllLeased(t: Table, list: seq<Lease>)
    requires Fenced(t) && Lists(t, list)
    ensures FromSnapshot(list, map[]) == t <==> t.fences.Keys <= t.leases.Keys
  {
    RestoredPart(t, list, map[]);
    var u := FromSnapshot(list, map[]);
    forall r | r in t.leases ensures r in u.leases {
      var i :| 0 <= i < |list| && list[i].resource == r;
    }
    assert u.leases == t.leases;
    if t.fences.Keys <= t.leases.Keys {
      assert u.fences == t.fences;
    } else {
      var r :| r in t.fences && r !in t.leases;
      assert r !in u.fences;
    }
  }

  // ----- Runs -----

  datatype Op =
    | OpAcquire(kind: string, resource: string, owner: string, ttl: nat, newId: string, newToken: string)
    | OpRenew(resource: string, owner: string, token: string, ttl: nat)
    | OpHandoff(resource: string, owner: string, token: string, target: string)
    | OpTake(resource: string, target: string, ttl: nat, newToken: string)
    | OpRelease(resource: string, owner: string, token: string)
    | OpReap
    | OpRestore(list: seq<Lease>)

  /** The table, the clock, the tokens handed out, and the fences issued so far,
      oldest first, by resource. */
  datatype State = State(t: Table, clock: nat, tokens: set<string>, issued: map<string, seq<nat>>)

  const START := State(EMPTY, 0, {}, map[])

  function IssuedFor(s: State, r: string): seq<nat> { if r in s.issued then s.issued[r] else [] }

  /** The clock does not go back, new tokens are new, and what is restored is the
      table's own snapshot. */
  ghost predicate Enabled(s: State, op: Op, now: nat) {
    && s.clock <= now
    && (op.OpAcquire? || op.OpTake? ==> op.newToken !in s.tokens)
    && (op.OpRestore? ==> Lists(s.t, op.list))
  }

  function Settle(s: State, r: Result<Granted, LeaseError>, now: nat): State {
    if r.Ok? then s.(t := r.value.table, clock := now) else s.(clock := now)
  }

  function Issue(s: State, r: Result<Granted, LeaseError>, token: string, now: nat): State {
    var next := Settle(s, r, now).(tokens := s.tokens + {token});
    if r.Err? then next
    else next.(issued := s.issued[r.value.lease.resource := IssuedFor(s, r.value.lease.resource) + [r.value.lease.fence]])
  }

  function Take(s: State, op: Op, now: nat): State {
    match op
    case OpAcquire(kind, resource, owner, ttl, newId, newToken) =>
      Issue(s, Acquire(s.t, kind, resource, owner, ttl, newId, newToken, now), newToken, now)
    case OpRenew(resource, owner, token, ttl) => Settle(s, Renew(s.t, resource, owner, token, ttl, now), now)
    case OpHandoff(resource, owner, token, target) => Settle(s, OfferHandoff(s.t, resource, owner, token, target, now), now)
    case OpTake(resource, target, ttl, newToken) => Issue(s, TakeHandoff(s.t, resource, target, ttl, newToken, now), newToken, now)
    case OpRelease(resource, owner, token) => Settle(s, Release(s.t, resource, owner, token, now), now)
    case OpReap => s.(t := Reap(s.t, now), clock := now)
    case OpRestore(list) => s.(t := FromSnapshot(list, s.t.fences), clock := now)
  }

  ghost predicate ValidRun(s: State, ops: seq<(Op, nat)>)
    decreases |ops|
  {
    ops == [] || (Enabled(s, ops[0].0, ops[0].1) && ValidRun(Take(s, ops[0].0, ops[0].1), ops[1..]))
  }

  function Run(s: State, ops: seq<(Op, nat)>): State
    decreases |ops|
  {
    if ops == [] then s else Run(Take(s, ops[0].0, ops[0].1), ops[1..])
  }

  // ----- Fences -----

  /** Exactly 1, 2, ..., in order. */
  ghost predicate CountsUp(fences: seq<nat>) { forall i :: 0 <= i < |fences| ==> fences[i] == i + 1 }

  ghost predicate CountedTo(fences: seq<nat>, last: nat) { CountsUp(fences) && |fences| == last }

  ghost predicate Numbered(s: State) {
    && Fenced(s.t)
    && (forall r :: CountedTo(IssuedFor(s, r), s.t.FenceOf(r, 0)))
    && (forall r :: r in s.t.leases ==> s.t.leases[r].token in s.tokens && s.t.leases[r].fence > 0)
  }

  /** A new lease under a new token with the next fence. */
  lemma IssueNumbers(s: State, g: Granted, token: string, now: nat)
    requires Numbered(s)
    requires var r := g.lease.resource;
             && g.lease.fence == s.t.FenceOf(r, 0) + 1 && g.lease.token == token
             && g.table == Table(s.t.leases[r := g.lease], s.t.fences[r := g.lease.fence])
    ensures Numbered(Issue(s, Ok(g), token, now))
  {
    var s' := Issue(s, Ok(g), token, now);
    forall r ensures CountedTo(IssuedFor(s', r), s'.t.FenceOf(r, 0)) {
      assert CountedTo(IssuedFor(s, r), s.t.FenceOf(r, 0));
    }
  }

  lemma StepNumbers(s: State, op: Op, now: nat)
    requires Numbered(s) && Enabled(s, op, now)
    ensures Numbered(Take(s, op, now))
  {
    hide CountedTo;
    var s' := Take(s, op, now);
    match op
    case OpAcquire(kind, resource, owner, ttl, newId, newToken) =>
      var g := Acquire(s.t, kind, resource, owner, ttl, newId, newToken, now);
      if g.Ok? {
        IssueNumbers(s, g.value, newToken, now);
      } else {
        SameFences(s, s');
      }
    case OpTake(resource, target, ttl, newToken) =>
      var g := TakeHandoff(s.t, resource, target, ttl, newToken, now);
      if g.Ok? {
        IssueNumbers(s, g.value, newToken, now);
      } else {
        SameFences(s, s');
      }
    case OpRestore(list) =>
      RestoreIsIdentity(s.t, list);
      SameFences(s, s');
    case _ => SameFences(s, s');
  }

  /** Leases that are kept keep their fence and token. */
  lemma SameFences(s: State, s': State)
    requires Numbered(s) && s'.t.fences == s.t.fences && s'.issued == s.issued && s.tokens <= s'.tokens
    requires forall r :: r in s'.t.leases ==>
      && r in s.t.leases && s'.t.leases[r].resource == r
      && s'.t.leases[r].fence == s.t.leases[r].fence && s'.t.leases[r].token == s.t.leases[r].token
    ensures Numbered(s')
  {
    forall r ensures CountedTo(IssuedFor(s', r), s'.t.FenceOf(r, 0)) {
      assert CountedTo(IssuedFor(s, r), s.t.FenceOf(r, 0));
    }
  }

  lemma {:induction false} RunNumbers(s: State, ops: seq<(Op, nat)>)
    requires Numbered(s) && ValidRun(s, ops)
    ensures Numbered(Run(s, ops))
    decreases |ops|
  {
    if ops != [] {
      StepNumbers(s, ops[0].0, ops[0].1);
      RunNumbers(Take(s, ops[0].0, ops[0].1), ops[1..]);
    }
  }

  /** Over any run the fences issued for a resource are 1, 2, 3, ... without gap or
      repeat, and a lease in the table always carries the last of them. */
  lemma FencesIncreaseByOne(ops: seq<(Op, nat)>, r: string)
    requires ValidRun(START, ops)
    ensures var s := Run(START, ops);
            && CountsUp(IssuedFor(s, r))
            && (r in s.t.leases ==>
                  IssuedFor(s, r) != [] && s.t.leases[r].fence == IssuedFor(s, r)[|IssuedFor(s, r)| - 1])
  {
    RunNumbers(START, ops);
    var s := Run(START, ops);
    assert CountedTo(IssuedFor(s, r), s.t.FenceOf(r, 0));
  }

  // ----- Tokens -----

  predicate Validates(s: State, r: string, owner: string, token: string) {
    Validate(s.t, r, owner, token, s.clock).Ok?
  }

  /** A token that was handed out and does not validate stays that way over a step. */
  lemma TokenStaysDead(s: State, op: Op, now: nat, r: string, owner: string, token: string)
    requires Numbered(s) && Enabled(s, op, now) && token in s.tokens && !Validates(s, r, owner, token)
    ensures !Validates(Take(s, op, now), r, owner, token) && token in Take(s, op, now).tokens
  {
    if op.OpRestore? {
      RestoreIsIdentity(s.t, op.list);
    }
  }

  /** Under a clock that does not go back, a token that has stopped validating never
      validates again. */
  lemma {:induction false} DeadTokensStayDead(s: State, ops: seq<(Op, nat)>, r: string, owner: string, token: string)
    requires Numbered(s) && ValidRun(s, ops) && token in s.tokens && !Validates(s, r, owner, token)
    ensures !Validates(Run(s, ops), r, owner, token)
    decreases |ops|
  {
    if ops != [] {
      StepNumbers(s, ops[0].0, ops[0].1);
      TokenStaysDead(s, ops[0].0, ops[0].1, r, owner, token);
      DeadTokensStayDead(Take(s, ops[0].0, ops[0].1), ops[1..], r, owner, token);
    }
  }

  /** When the clock goes back an expired token can validate again. */
  lemma ClockMustNotGoBack(s: State, earlier: nat, r: string)
    requires r in s.t.leases && earlier < s.t.leases[r].expiresAt <= s.clock
    ensures var l := s.t.leases[r];
            !Validates(s, r, l.owner, l.token) && Validates(s.(clock := earlier), r, l.owner, l.token)
  {
  }

  /** A lease taken and released, then restored from the leases alone: the next lease
      gets a fence that was issued before. */
  lemma RestoreReissuesFence()
    ensures
      var taken := Acquire(EMPTY, "k", "r", "o", 10, "i", "t", 0);
      && taken.Ok?
      && var released := Release(taken.value.table, "r", "o", "t", 5);
      && released.Ok? && Fenced(released.value.table) && Lists(released.value.table, [])
      && var again := Acquire(FromSnapshot([], map[]), "k", "r", "p", 10, "j", "u", 6);
      again.Ok? && again.value.lease.fence == taken.value.lease.fence
  {
  }
}
