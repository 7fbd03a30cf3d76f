/**
 When each operation of the desktop queue succeeds, and what it then does, said in terms
 of the jobs, the clock and the writes.
 */
module DesktopAnswers {
  import opened Base
  import opened DesktopModel
  import opened DesktopInvariant
  import opened DesktopSystem
  import opened DesktopTheorems

  // ----- Dispatching -----

  /** Every dispatch into a session presented the credentials of the job that was granted
      it, which are those given out when that job was submitted. */
  ghost predicate PresentsItsSession(log: seq<Event>) {
    forall k :: 0 <= k < |log| && log[k].Dispatched? && log[k].session.Some? ==>
      && log[k].presented.Some?
      && GrantedTo(log[..k], log[k].session.value, log[k].epoch, log[k].presented.value)
      && IssuedTo(log[..k], log[k].presented.value)
  }

  lemma DispatchesPresentTheirSession(steps: seq<Step>)
    requires ValidRun(START, steps)
    ensures PresentsItsSession(Run(START, steps).s.log)
  {
    hide ValidRun, Run;
    RunHistory(steps);
    var log := Run(START, steps).s.log;
    forall k | 0 <= k < |log| && log[k].Dispatched? && log[k].session.Some?
      ensures log[k].presented.Some? && GrantedTo(log[..k], log[k].session.value, log[k].epoch, log[k].presented.value)
      ensures IssuedTo(log[..k], log[k].presented.value)
    {
      GoodPrefix(log, k);
      GoodPrefix(log, k + 1);
      assert log[..k + 1][..k] == log[..k];
      GrantsWereIssued(log[..k], log[k].session.value, log[k].epoch, log[k].presented.value);
    }
  }

  lemma GrantsWereIssued(log: seq<Event>, index: nat, epoch: nat, to: Credentials)
    requires GoodLog(log) && GrantedTo(log, index, epoch, to)
    ensures IssuedTo(log, to)
  {
    var g :| g in log && g.Granted? && g.index == index && g.epoch == epoch && g.to == to;
    var k :| 0 <= k < |log| && log[k] == g;
    GoodPrefix(log, k);
    GoodPrefix(log, k + 1);
    assert log[..k + 1][..k] == log[..k];
    assert IssuedTo(log[..k], to);
  }

  predicate BeforeDeadline(job: Job, now: nat) { job.deadlineAt.None? || now < job.deadlineAt.value }

  /** An active job whose lease and deadline are not over. */
  predicate InTime(job: Job, now: nat) { job.state == Active && now < job.expiresAt && BeforeDeadline(job, now) }

  /** A gated job may act: the provider says so, or the operator's receipt is for it. */
  predicate Cleared(m: Durable, job: Job, gate: bool, around: Surroundings) {
    !(job.requiresAvailability || gate) || around.Available() || UserAuthorized(job, m.bootId, around.receipt, around.now)
  }

  /** Into a session only with its credentials, in time and cleared; outside one only
      plainly, with no maintenance and no gate. */
  ghost predicate MayDispatch(m: Durable, b: BeginInput) {
    var gate := m.availabilityRequired || b.providerPresent;
    && !m.blocked && !m.inFlight
    && (forall i :: 0 <= i < |m.jobs| && m.jobs[i].state.Live() ==>
          && InTime(m.jobs[i], b.around.now)
          && b.credentials == Some(Credentials(m.jobs[i].owner, m.jobs[i].token))
          && Cleared(m, m.jobs[i], gate, b.around))
    && (!HasLive(m.jobs) ==> m.maintenanceOwner.None? && !gate && !b.computerUse && b.credentials.None?)
  }

  ghost predicate WritesSucceed(m: Durable, b: BeginInput) {
    (b.providerPresent && !m.availabilityRequired ==> b.policySave.Saved?) && b.save.Saved?
  }

  lemma DispatchAdmittedIff(s: QueueState, b: BeginInput)
    requires WellFormed(s.mem)
    ensures Begin(s, b).r.Ok? <==> MayDispatch(s.mem, b) && WritesSucceed(s.mem, b)
    ensures Begin(s, b).r.Ok? ==>
      var r := Begin(s, b);
      && r.s.mem == s.mem.(inFlight := true, availabilityRequired := s.mem.availabilityRequired || b.providerPresent)
      && r.s.OnDisk() == r.s.mem
      && (forall i :: 0 <= i < |s.mem.jobs| && s.mem.jobs[i].state.Live() ==>
            r.r.value == if b.computerUse then Some((s.mem.jobs[i].id, s.mem.jobs[i].epoch)) else None)
  {
    hide UserAuthorized, SnapshotAllowsInput;
    OnlyLive(s.mem);
  }

  /** The job that is found live is the only live one. */
  lemma OnlyLive(m: Durable)
    requires WellFormed(m)
    ensures var live := LiveIndex(m.jobs);
      && (live.Some? <==> HasLive(m.jobs))
      && (forall i :: 0 <= i < |m.jobs| ==> (m.jobs[i].state.Live() <==> live == Some(i)))
  {
    var live := LiveIndex(m.jobs);
    forall i | 0 <= i < |m.jobs| && m.jobs[i].state.Live() ensures live == Some(i) {
      assert live.Some? && m.jobs[live.value].state.Live();
    }
  }

  /** The end of a dispatch clears the flag, and blocks exactly when it is uncertain. */
  lemma DispatchEnds(s: QueueState, uncertain: bool, o: SaveOutcome)
    ensures End(s, uncertain, o).s.mem == s.mem.(inFlight := false, blocked := s.mem.blocked || uncertain)
    ensures End(s, uncertain, o).r.Ok? <==> o.Saved?
    ensures o.Written() ==> End(s, uncertain, o).s.OnDisk() == End(s, uncertain, o).s.mem
  {
  }

  // ----- Claims -----

  predicate Named(v: string) { 1 <= |v| <= 256 }

  /** The job with these credentials is in time, cleared, and free for this consumer. */
  ghost predicate Claimable(m: Durable, i: nat, owner: string, token: string, consumer: string, around: Surroundings) {
    && i < |m.jobs| && m.jobs[i].owner == owner && m.jobs[i].token == token
    && InTime(m.jobs[i], around.now) && Cleared(m, m.jobs[i], m.availabilityRequired, around)
    && (m.jobs[i].claimedBy == None || m.jobs[i].claimedBy == Some(consumer))
  }

  lemma FoundByCredentials(m: Durable, i: nat)
    requires WellFormed(m) && i < |m.jobs|
    ensures CredentialIndex(m.jobs, m.jobs[i].owner, m.jobs[i].token) == Some(i)
  {
    var found := CredentialIndex(m.jobs, m.jobs[i].owner, m.jobs[i].token);
    assert found.Some? && m.jobs[found.value].token == m.jobs[i].token;
  }

  lemma ClaimAnsweredIff(s: QueueState, owner: string, token: string, consumer: string, c: Call)
    requires WellFormed(s.mem)
    ensures DoClaim(s, owner, token, consumer, c).r.Ok? <==>
      && Named(owner) && Named(token) && Named(consumer) && !s.mem.blocked && c.save.Saved?
      && exists i :: Claimable(s.mem, i, owner, token, consumer, c.around)
    ensures forall i: nat :: Claimable(s.mem, i, owner, token, consumer, c.around) && DoClaim(s, owner, token, consumer, c).r.Ok? ==>
      var t := DoClaim(s, owner, token, consumer, c).s;
      t.mem == s.mem.(jobs := s.mem.jobs[i := s.mem.jobs[i].(claimedBy := Some(consumer))]) && t.OnDisk() == t.mem
    ensures DoClaim(s, owner, token, consumer, c).r.Err? ==> DoClaim(s, owner, token, consumer, c).s.mem == s.mem
  {
    hide UserAuthorized, SnapshotAllowsInput;
    forall i: nat | Claimable(s.mem, i, owner, token, consumer, c.around) ensures CredentialIndex(s.mem.jobs, owner, token) == Some(i) {
      FoundByCredentials(s.mem, i);
    }
    var found := CredentialIndex(s.mem.jobs, owner, token);
    if DoClaim(s, owner, token, consumer, c).r.Ok? {
      assert Claimable(s.mem, found.value, owner, token, consumer, c.around);
    }
  }

  // ----- Renewing and ending a session -----

  /** A renewal is answered exactly for a job that is still in time, and moves only its
      expiry, to the time to live from now. */
  lemma RenewalAnsweredIff(s: QueueState, i: nat, c: Call)
    requires WellFormed(s.mem) && i < |s.mem.jobs| && Named(s.mem.jobs[i].owner) && Named(s.mem.jobs[i].token)
    ensures
      var job := s.mem.jobs[i];
      var r := DoTouch(s, Renew(job.owner, job.token), job.owner, job.token, c);
      && (r.r.Ok? <==> InTime(job, c.around.now) && !s.mem.blocked && c.save.Saved?)
      && (r.r.Ok? ==>
            && r.s.mem == s.mem.(jobs := s.mem.jobs[i := job.(expiresAt := SaturatingAdd(c.around.now, job.ttlMs))])
            && r.s.OnDisk() == r.s.mem)
  {
    FoundByCredentials(s.mem, i);
  }

  /** A status read with a job's credentials answers with its status and changes nothing. */
  lemma StatusIsRead(s: QueueState, i: nat, c: Call)
    requires WellFormed(s.mem) && i < |s.mem.jobs| && Named(s.mem.jobs[i].owner) && Named(s.mem.jobs[i].token)
    ensures
      var job := s.mem.jobs[i];
      DoTouch(s, Get(job.owner, job.token), job.owner, job.token, c) == Outcome(s, Ok(JobValue(s.mem, job, c.around)))
  {
    hide JobValue;
    FoundByCredentials(s.mem, i);
    assert s.mem.jobs[i := s.mem.jobs[i]] == s.mem.jobs;
  }

  /** What finishing or cancelling makes of a job. */
  function EndedState(state: JobState): JobState {
    match state
    case Queued => Cancelled
    case Active => Draining
    case _ => state
  }

  lemma FinishAnswered(s: QueueState, i: nat, cancel: bool, c: Call)
    requires WellFormed(s.mem) && i < |s.mem.jobs| && Named(s.mem.jobs[i].owner) && Named(s.mem.jobs[i].token)
    ensures
      var job := s.mem.jobs[i];
      var a := if cancel then Cancel(job.owner, job.token) else Finish(job.owner, job.token);
      var r := DoTouch(s, a, job.owner, job.token, c);
      && (r.r.Ok? <==> c.save.Saved?)
      && r.s.mem == s.mem.(jobs := s.mem.jobs[i := job.(state := EndedState(job.state))])
  {
    FoundByCredentials(s.mem, i);
  }

  /** Nobody else's credentials do anything. */
  lemma StrangersAreRefused(s: QueueState, a: Action, owner: string, token: string, consumer: string, c: Call)
    requires forall i :: 0 <= i < |s.mem.jobs| ==> s.mem.jobs[i].owner != owner || s.mem.jobs[i].token != token
    ensures DoTouch(s, a, owner, token, c).r.Err? && DoTouch(s, a, owner, token, c).s == s
    ensures DoClaim(s, owner, token, consumer, c).r.Err? && DoClaim(s, owner, token, consumer, c).s == s
  {
  }

  // ----- What a status read says -----

  /** A status read of a gated live job says that input is allowed exactly when its own
      dispatch would be admitted now, were nothing in flight. */
  lemma StatusAgreesWithDispatch(s: QueueState, i: nat, around: Surroundings)
    requires WellFormed(s.mem) && i < |s.mem.jobs| && s.mem.jobs[i].state.Live() && !s.mem.inFlight
    requires s.mem.jobs[i].requiresAvailability || s.mem.availabilityRequired
    ensures
      var job := s.mem.jobs[i];
      JobValue(s.mem, job, around).inputAllowed == Some(true) <==>
        Begin(s, BeginInput(true, Some(Credentials(job.owner, job.token)), around, false, Saved, Saved)).r.Ok?
  {
    hide UserAuthorized, SnapshotAllowsInput, Begin;
    var job := s.mem.jobs[i];
    OnlyLive(s.mem);
    DispatchAdmittedIff(s, BeginInput(true, Some(Credentials(job.owner, job.token)), around, false, Saved, Saved));
  }

  /** A job that is not gated carries no such entry. */
  lemma UngatedHasNoStatus(m: Durable, job: Job, around: Surroundings)
    ensures JobValue(m, job, around).inputAllowed.None? <==> !(job.requiresAvailability || m.availabilityRequired)
    ensures JobValue(m, job, around).job == job.(requiresAvailability := job.requiresAvailability || m.availabilityRequired)
  {
  }

  // ----- Listing -----

  /** The indices a listing shows. */
  function ShownIndices(jobs: seq<Job>, includeTerminal: bool): seq<nat> {
    if jobs == [] then []
    else
      var n := |jobs| - 1;
      ShownIndices(jobs[..n], includeTerminal)
      + (if includeTerminal || jobs[n].state in {Queued, Active, Draining} then [n] else [])
  }

  lemma {:induction false} ShownAppend(m: Durable, jobs: seq<Job>, job: Job, all: bool, around: Surroundings)
    ensures Shown(m, jobs + [job], all, around) ==
      Shown(m, jobs, all, around) + (if all || !job.state.Terminal() then [Listed(m, job, around)] else [])
    decreases |jobs|
  {
    hide Listed;
    if jobs == [] {
      assert jobs + [job] == [job] && [job][1..] == [];
    } else {
      assert (jobs + [job])[0] == jobs[0] && (jobs + [job])[1..] == jobs[1..] + [job];
      ShownAppend(m, jobs[1..], job, all, around);
    }
  }

  /** A listing shows, in order, the jobs that are not over, or all of them, each as its
      status read without the token. */
  lemma {:induction false} ListingIsComplete(m: Durable, jobs: seq<Job>, all: bool, around: Surroundings)
    ensures var shown := Shown(m, jobs, all, around);
      var indices := ShownIndices(jobs, all);
      && |shown| == |indices|
      && (forall k :: 0 <= k < |shown| ==> indices[k] < |jobs| && shown[k] == Listed(m, jobs[indices[k]], around))
      && (forall k :: 0 <= k < |shown| ==> shown[k].JobReply? && shown[k].job.token == "")
    decreases |jobs|
  {
    if jobs != [] {
      var n := |jobs| - 1;
      ListingIsComplete(m, jobs[..n], all, around);
      ShownAppend(m, jobs[..n], jobs[n], all, around);
      assert jobs == jobs[..n] + [jobs[n]];
    }
  }

  /** The jobs that are over and those that a short listing shows are all jobs. */
  lemma {:induction false} HistoryIsCounted(m: Durable, jobs: seq<Job>, around: Surroundings)
    ensures TerminalCount(jobs) + |Shown(m, jobs, false, around)| == |jobs| == |Shown(m, jobs, true, around)|
    decreases |jobs|
  {
    hide Listed;
    if jobs != [] {
      HistoryIsCounted(m, jobs[1..], around);
    }
  }

  /** A listing is refused only for a malformed switch, and reports a safe point exactly
      when maintenance is owned and nothing is blocked, in flight or live. */
  lemma ListAnswered(s: QueueState, p: Param<bool>, around: Surroundings)
    ensures DoList(s, p, around).s == s && (DoList(s, p, around).r.Err? <==> p.Malformed?)
    ensures DoList(s, p, around).r.Ok? ==>
      var l := DoList(s, p, around).r.value;
      && l.ListReply? && l.totalCount == |s.mem.jobs| && l.historyIncluded == (p != Given(false))
      && l.shown == Shown(s.mem, s.mem.jobs, p != Given(false), around)
      && l.historyCount + |Shown(s.mem, s.mem.jobs, false, around)| == l.totalCount
      && l.blocked == s.mem.blocked && l.inFlight == s.mem.inFlight && l.maintenanceOwner == s.mem.maintenanceOwner
      && l.availabilityRequired == s.mem.availabilityRequired && l.available == around.Available()
      && (l.safePoint <==> s.mem.maintenanceOwner.Some? && !s.mem.blocked && !s.mem.inFlight && !HasLive(s.mem.jobs))
  {
    HistoryIsCounted(s.mem, s.mem.jobs, around);
  }

  // ----- Submitting -----

  /** The limits on a new request. */
  predicate WithinLimits(a: Action, count: nat, now: nat)
    requires a.Submit?
  {
    && count < 10_000
    && (a.ttlMs.Given? ==> 1_000 <= a.ttlMs.value <= 3_600_000)
    && a.requiresAvailability != Malformed && a.deadlineAt != Malformed
    && (a.deadlineAt.Given? ==> a.deadlineAt.value > now)
  }

  /** The job a new request makes. */
  function Requested(a: Action, gate: bool, now: nat): Job
    requires a.Submit?
  {
    Job(a.newId, a.owner, a.requestKey, a.newToken, Queued, 0,
        if a.ttlMs.Given? then a.ttlMs.value else 900_000, now, 0,
        gate || a.requiresAvailability == Given(true),
        if a.deadlineAt.Given? then Some(a.deadlineAt.value) else None, None)
  }

  /** A known request is answered with its job. A new one is appended exactly when it is
      within the limits, and answered when its save and the promotion succeed. */
  lemma SubmitAnsweredIff(s: QueueState, a: Action, c: Call)
    requires a.Submit? && Named(a.owner) && Named(a.requestKey)
    ensures
      var known := exists i :: 0 <= i < |s.mem.jobs| && s.mem.jobs[i].owner == a.owner && s.mem.jobs[i].requestKey == a.requestKey;
      var r := DoSubmit(s, a, c);
      var added := Added(s, Requested(a, s.mem.availabilityRequired, c.around.now));
      && (known ==> r.s == s && r.r.Ok? && r.r.value.JobReply?
                    && r.r.value.job.owner == a.owner && r.r.value.job.requestKey == a.requestKey)
      && (!known && !WithinLimits(a, |s.mem.jobs|, c.around.now) ==> r.s == s && r.r.Err?)
      && (!known && WithinLimits(a, |s.mem.jobs|, c.around.now) ==>
            && (r.r.Ok? <==> c.save.Saved? && Promote(Save(added, Saved).s, c.after).r.Ok?)
            && r.s == if c.save.Saved? then Promote(Save(added, Saved).s, c.after).s else Save(added, c.save).s)
  {
    hide Promote, JobValue;
    assert SubmitOk(a, c.around.now) && |s.mem.jobs| < MAX_JOBS <==> WithinLimits(a, |s.mem.jobs|, c.around.now);
    assert NewJob(s.mem, a, c.around.now) == Requested(a, s.mem.availabilityRequired, c.around.now);
    JobValueNames(s.mem, c.around);
  }

  lemma JobValueNames(m: Durable, around: Surroundings)
    ensures forall job :: JobValue(m, job, around).JobReply? && JobValue(m, job, around).job.owner == job.owner
    ensures forall job :: JobValue(m, job, around).job.requestKey == job.requestKey
  {
  }

  /** A request that does not name its owner and key is refused. */
  lemma UnnamedIsRefused(s: QueueState, a: Action, c: Call)
    requires a.Submit? && !(Named(a.owner) && Named(a.requestKey))
    ensures DoSubmit(s, a, c) == Outcome(s, Err(InvalidParams))
  {
  }

  // ----- Promotion -----

  predicate AllSaved(e: PromoteInput) { e.policySave.Saved? && e.expirySave.Saved? && e.grantSave.Saved? }

  predicate StillWaiting(job: Job, now: nat) { job.state == Queued && BeforeDeadline(job, now) }

  /** The first waiting job may be granted as the head of the queue. */
  ghost predicate HeadMayGo(m: Durable, i: nat, e: PromoteInput) {
    && i < |m.jobs| && StillWaiting(m.jobs[i], e.around.now)
    && (forall j :: 0 <= j < i ==> !StillWaiting(m.jobs[j], e.around.now))
    && (!(m.jobs[i].requiresAvailability || m.availabilityRequired || e.providerPresent) || e.around.Available())
  }

  /** The first waiting job that the operator's receipt names. */
  ghost predicate NamedMayGo(m: Durable, i: nat, e: PromoteInput) {
    && i < |m.jobs| && Receipted(m, i, e) && (forall j :: 0 <= j < i ==> !Receipted(m, j, e))
    && (forall j :: 0 <= j < |m.jobs| ==> !HeadMayGo(m, j, e))
  }

  predicate Receipted(m: Durable, i: nat, e: PromoteInput)
    requires i < |m.jobs|
  {
    StillWaiting(m.jobs[i], e.around.now) && UserAuthorized(m.jobs[i], m.bootId, e.around.receipt, e.around.now)
  }

  /** Nothing stands in the way of a grant. */
  ghost predicate Vacant(m: Durable) { m.maintenanceOwner.None? && !m.blocked && !m.inFlight && !HasLive(m.jobs) }

  /** The queue after the overdue have expired and job `i` was granted. */
  ghost predicate GrantedIn(m: Durable, i: nat, e: PromoteInput, m': Durable) {
    && i < |m.jobs| && m'.epoch == m.epoch + 1
    && m'.jobs == ExpireQueued(m.jobs, e.around.now)[i :=
         m.jobs[i].(state := Active, epoch := m.epoch + 1, expiresAt := SaturatingAdd(e.grantNow, m.jobs[i].ttlMs))]
  }

  lemma ExpiredIsNotWaiting(m: Durable, now: nat)
    ensures forall i :: 0 <= i < |m.jobs| ==>
      && (ExpireQueued(m.jobs, now)[i].state.Queued? <==> StillWaiting(m.jobs[i], now))
      && (StillWaiting(m.jobs[i], now) ==> ExpireQueued(m.jobs, now)[i] == m.jobs[i])
      && (ExpireQueued(m.jobs, now)[i].state.Live() <==> m.jobs[i].state.Live())
  {
  }

  /** The queue in which a promotion looks for a candidate. */
  function Considered(m: Durable, e: PromoteInput): Durable {
    m.(jobs := ExpireQueued(m.jobs, e.around.now), availabilityRequired := m.availabilityRequired || e.providerPresent)
  }

  lemma CandidateIs(m: Durable, e: PromoteInput)
    ensures var c := PickCandidate(Considered(m, e), e.around);
      && (c.Candidate? && !c.byReceipt <==> exists i :: HeadMayGo(m, i, e))
      && (forall i: nat :: HeadMayGo(m, i, e) ==> c == Candidate(i, false))
      && (c.Candidate? && c.byReceipt <==> exists i :: NamedMayGo(m, i, e))
      && (forall i: nat :: NamedMayGo(m, i, e) ==> c == Candidate(i, true))
  {
    hide UserAuthorized, SnapshotAllowsInput, PickCandidate;
    var c := PickCandidate(Considered(m, e), e.around);
    ExpiredIsNotWaiting(m, e.around.now);
    HeadFound(m, e);
    if !(exists i :: HeadMayGo(m, i, e)) {
      NamedFound(m, e);
    }
  }

  lemma HeadFound(m: Durable, e: PromoteInput)
    ensures var c := PickCandidate(Considered(m, e), e.around);
      && (c.Candidate? && !c.byReceipt ==> HeadMayGo(m, c.index, e))
      && (forall i: nat :: HeadMayGo(m, i, e) ==> c == Candidate(i, false))
  {
    hide UserAuthorized, SnapshotAllowsInput;
    ExpiredIsNotWaiting(m, e.around.now);
    var x := Considered(m, e);
    var head := Position(x.jobs, (j: Job) => j.state.Queued?);
    forall i: nat | HeadMayGo(m, i, e) ensures head == Some(i) {
      assert x.jobs[i].state.Queued?;
      assert head.Some? && x.jobs[head.value].state.Queued?;
    }
  }

  lemma NamedFound(m: Durable, e: PromoteInput)
    requires !(exists i :: HeadMayGo(m, i, e))
    ensures var c := PickCandidate(Considered(m, e), e.around);
      && (c.Candidate? ==> c.byReceipt && NamedMayGo(m, c.index, e))
      && (forall i: nat :: NamedMayGo(m, i, e) ==> c == Candidate(i, true))
  {
    hide UserAuthorized, SnapshotAllowsInput, HeadMayGo;
    ExpiredIsNotWaiting(m, e.around.now);
    HeadFound(m, e);
    var x := Considered(m, e);
    var named := Position(x.jobs, (j: Job) => j.state.Queued? && UserAuthorized(j, x.bootId, e.around.receipt, e.around.now));
    forall i | 0 <= i < |m.jobs| ensures
      Receipted(m, i, e) <==> x.jobs[i].state.Queued? && UserAuthorized(x.jobs[i], x.bootId, e.around.receipt, e.around.now)
    {
    }
    forall i: nat | NamedMayGo(m, i, e) ensures named == Some(i) {
      assert Receipted(m, i, e);
      assert named.Some? && Receipted(m, named.value, e);
    }
  }

  /** With its writes made, a promotion grants exactly when nothing stands in the way and a
      job may go: the head if its gate is open, else the first that a receipt names. It
      then holds for its time to live. Otherwise only the overdue expire. */
  lemma PromotionGrantsIff(s: QueueState, e: PromoteInput)
    requires !s.inspecting && AllSaved(e)
    ensures
      var m := s.mem;
      var m' := Promote(s, e).s.mem;
      && Promote(s, e).r.Ok?
      && (m'.epoch != m.epoch <==> Vacant(m) && exists i :: HeadMayGo(m, i, e) || NamedMayGo(m, i, e))
      && (forall i :: Vacant(m) && (HeadMayGo(m, i, e) || NamedMayGo(m, i, e)) ==> GrantedIn(m, i, e, m'))
      && (m'.epoch == m.epoch ==> m'.jobs == ExpireQueued(m.jobs, e.around.now))
  {
    hide PickCandidate, UserAuthorized, SnapshotAllowsInput, HeadMayGo, NamedMayGo;
    var x := Considered(s.mem, e);
    CandidateIs(s.mem, e);
    ExpiredIsNotWaiting(s.mem, e.around.now);
    VacancyStays(s.mem, e);
    var refreshed := RefreshPolicy(s, e.providerPresent, e.policySave).s;
    var expired := Expire(refreshed, e.around.now, e.expirySave).s;
    assert expired.mem == x;
    var c := PickCandidate(x, e.around);
    if Vacant(s.mem) && c.Candidate? {
      assert c.index < |x.jobs| && x.jobs[c.index] == s.mem.jobs[c.index];
      assert GrantedIn(s.mem, c.index, e, WithGrant(x, c.index, e.grantNow));
    }
  }

  lemma VacancyStays(m: Durable, e: PromoteInput)
    ensures Admitting(Considered(m, e)) <==> Vacant(m)
  {
    ExpiredIsNotWaiting(m, e.around.now);
    var x := Considered(m, e);
    if HasLive(m.jobs) {
      var i :| 0 <= i < |m.jobs| && m.jobs[i].state.Live();
      assert x.jobs[i].state.Live();
    }
  }

  // ----- Cleanup -----

  /** A cleanup is needed exactly when nothing is in flight and the live job drains or is
      past its time; such a job drains from then on. */
  lemma CleanupNeededIff(s: QueueState, now: nat)
    requires WellFormed(s.mem)
    ensures NeedsCleanup(s, now).1 <==>
      !s.mem.inFlight && exists i :: 0 <= i < |s.mem.jobs| && s.mem.jobs[i].state.Live() && !InTime(s.mem.jobs[i], now)
    ensures forall i :: NeedsCleanup(s, now).1 && 0 <= i < |s.mem.jobs| && s.mem.jobs[i].state.Live() ==>
      NeedsCleanup(s, now).0 == s.(mem := s.mem.(jobs := s.mem.jobs[i := s.mem.jobs[i].(state := Draining)]))
    ensures !NeedsCleanup(s, now).1 ==> NeedsCleanup(s, now).0 == s
  {
    OnlyLive(s.mem);
  }

  /** How a session that was cleaned up ends. */
  function RetiredAs(blocked: bool, late: bool): JobState { if blocked then Interrupted else if late then Expired else Completed }

  /** A cleanup that succeeded ends the live job and frees the desktop; one that failed
      blocks the queue and ends nothing. Then it is saved, and the next job may go. */
  lemma CleanupEnds(s: QueueState, i: nat, success: bool, now: nat, o: SaveOutcome, e: PromoteInput)
    requires WellFormed(s.mem) && i < |s.mem.jobs| && s.mem.jobs[i].state.Live()
    ensures
      var job := s.mem.jobs[i];
      var m := if success then s.mem.(jobs := s.mem.jobs[i := job.(state := RetiredAs(s.mem.blocked, job.expiresAt <= now))])
               else s.mem.(blocked := true);
      && CleanedUp(s, success, now).mem == m
      && (success ==> !HasLive(m.jobs))
      && CleanupDone(s, success, now, o, e) ==
           if o.Saved? then Promote(Save(CleanedUp(s, success, now), o).s, e) else Save(CleanedUp(s, success, now), o)
  {
    hide Promote;
    OnlyLive(s.mem);
  }

  // ----- Recovery, maintenance, inspection -----

  lemma RecoveryAnsweredIff(s: QueueState, confirmed: bool, c: Call)
    requires WellFormed(s.mem)
    ensures
      var cleared := s.mem.(blocked := false,
        jobs := seq(|s.mem.jobs|, i requires 0 <= i < |s.mem.jobs| =>
          if s.mem.jobs[i].state.Live() then s.mem.jobs[i].(state := Interrupted) else s.mem.jobs[i]));
      var r := DoRecover(s, confirmed, c);
      if s.mem.blocked && !s.mem.inFlight && confirmed then
        && (r.r.Ok? ==> c.save.Saved?)
        && (c.save.Saved? ==> exists t: QueueState ::
              t.mem == cleared && t.OnDisk() == cleared && t.inspecting == s.inspecting
              && r.s == Promote(t, c.after).s && (r.r.Ok? <==> Promote(t, c.after).r.Ok?))
        && (!c.save.Saved? ==> r.s.mem == cleared)
      else r.r.Err? && r.s == s
  {
    hide Promote;
    OnlyLive(s.mem);
    if s.mem.blocked && !s.mem.inFlight && confirmed {
      var live := LiveIndex(s.mem.jobs);
      var cleared := s.mem.(blocked := false,
        jobs := seq(|s.mem.jobs|, i requires 0 <= i < |s.mem.jobs| =>
          if s.mem.jobs[i].state.Live() then s.mem.jobs[i].(state := Interrupted) else s.mem.jobs[i]));
      var log := if live.None? then s.log else s.log + [Released(Recovery, s.mem.inFlight)];
      var reset := s.(mem := cleared, log := log);
      assert live.None? ==> cleared.jobs == s.mem.jobs;
      assert live.Some? ==> cleared.jobs == s.mem.jobs[live.value := s.mem.jobs[live.value].(state := Interrupted)];
      assert DoRecover(s, confirmed, c).s == (if c.save.Saved? then Promote(Save(reset, c.save).s, c.after).s else Save(reset, c.save).s);
      if c.save.Saved? {
        var t := Save(reset, c.save).s;
        assert t.mem == cleared && t.OnDisk() == cleared && t.inspecting == s.inspecting;
      }
    }
  }

  /** Maintenance is given, kept or released exactly when nobody else owns it. */
  lemma MaintenanceAnsweredIff(s: QueueState, owner: string, enabled: Param<bool>, c: Call)
    ensures
      var may := Named(owner) && enabled.Given? && (s.mem.maintenanceOwner.None? || s.mem.maintenanceOwner == Some(owner));
      var r := DoMaintenance(s, owner, enabled, c);
      && (!may ==> r.r.Err? && r.s == s)
      && (may ==> r.s.mem.maintenanceOwner == if enabled.value then Some(owner) else None)
      && (may && c.save.Saved? && AllSaved(c.after) && AllSaved(c.last) ==> r.r.Ok? && r.r.value.ListReply?)
  {
    hide Promote, Shown;
    if Named(owner) && enabled.Given? && (s.mem.maintenanceOwner.None? || s.mem.maintenanceOwner == Some(owner)) {
      var owned := s.(mem := s.mem.(maintenanceOwner := if enabled.value then Some(owner) else None));
      var saved := Save(owned, c.save).s;
      PromoteKeepsOwner(saved, c.after);
      PromoteKeepsOwner(Promote(saved, c.after).s, c.last);
    }
  }

  /** A promotion leaves the owner of maintenance alone, and succeeds when its writes do. */
  lemma PromoteKeepsOwner(s: QueueState, e: PromoteInput)
    ensures Promote(s, e).s.mem.maintenanceOwner == s.mem.maintenanceOwner
    ensures AllSaved(e) ==> Promote(s, e).r.Ok?
  {
    hide PickCandidate;
    if !s.inspecting {
      var r := RefreshPolicy(s, e.providerPresent, e.policySave).s;
      assert r.mem.maintenanceOwner == s.mem.maintenanceOwner;
      var x := Expire(r, e.around.now, e.expirySave).s;
      assert x.mem.maintenanceOwner == s.mem.maintenanceOwner;
    }
  }

  /** An inspection starts exactly for a well-formed request in a blocked, idle queue. */
  lemma InspectionStartsIff(s: QueueState, p: InspectionInput)
    ensures BeginInspection(s, p).r.Ok? <==>
      && p.nativeInspect && p.isObject && !p.otherKeys && p.recoveryInspection == Given(true)
      && p.requestPermission == Given(false) && p.applicationPath.Given? && p.applicationPath.value != ""
      && !s.inspecting && s.mem.blocked && !s.mem.inFlight
    ensures BeginInspection(s, p).s == if BeginInspection(s, p).r.Ok? then s.(inspecting := true) else s
  {
  }

  /** While an inspection runs no request changes anything. */
  lemma InspectionFreezes(s: QueueState, a: Action, c: Call)
    requires s.inspecting
    ensures Command(s, a, c).s == s
    ensures !a.List? && !a.Get? ==> Command(s, a, c).r.Err?
  {
    if a.Get? && CredentialIndex(s.mem.jobs, a.owner, a.token).Some? {
      var i := CredentialIndex(s.mem.jobs, a.owner, a.token).value;
      assert s.mem.jobs[i := s.mem.jobs[i]] == s.mem.jobs;
    }
  }

  // ----- Starting -----

  /** A start is in quarantine exactly when the file was, or shows a dispatch or a session,
      and no restart of the operating system is known. Jobs keep everything but that
      sessions are interrupted by such a restart, and nothing is in flight. */
  lemma StartBlocksIff(s: QueueState, bootId: Option<string>, o: SaveOutcome)
    ensures
      var d := s.OnDisk();
      var m := Open(s, bootId, o).s.mem;
      var restarted := d.bootId.Some? && bootId.Some? && d.bootId != bootId;
      && (Open(s, bootId, o).r.Ok? <==> o.Saved?)
      && (m.blocked <==> !restarted && (d.blocked || d.inFlight || HasLive(d.jobs)))
      && !m.inFlight && m.bootId == (if bootId.Some? then bootId else d.bootId)
      && m.epoch == d.epoch && m.maintenanceOwner == d.maintenanceOwner && m.availabilityRequired == d.availabilityRequired
      && |m.jobs| == |d.jobs|
      && forall i :: 0 <= i < |d.jobs| ==>
           m.jobs[i] == if restarted && d.jobs[i].state.Live() then d.jobs[i].(state := Interrupted) else d.jobs[i]
  {
  }

  // ----- Availability -----

  /** The provider's snapshot says that it is armed and the desktop free, in due form, and
      does not promise that for more than ten seconds. */
  predicate InOrder(v: Snapshot) {
    && v.schemaVersion == 1 && v.provider == "away-guard" && v.state == "armed" && v.available
    && v.generation.Some? && 1 <= |v.generation.value| <= 256 && v.sequence.Some? && v.sequence.value >= 1
    && v.observedAtMs.Some? && v.expiresAtMs.Some? && v.expiresAtMs.value <= v.observedAtMs.value + 10_000
  }

  /** A snapshot in order allows input from when it was observed until it expires, which is
      at most ten seconds; any other allows none. So what was allowed lapses for good. */
  lemma AllowedExactlyDuring(v: Snapshot, now: nat, later: nat)
    ensures SnapshotAllowsInput(v, now) <==> InOrder(v) && v.observedAtMs.value <= now < v.expiresAtMs.value
    ensures SnapshotAllowsInput(v, now) && later >= now + 10_000 ==> !SnapshotAllowsInput(v, later)
  {
  }

  /** The receipt names this job by its identity and token, on this boot. */
  predicate Names(receipt: Receipt, job: Job, bootId: Option<string>) {
    && receipt.jobId == job.id && receipt.owner == job.owner && receipt.requestKey == job.requestKey
    && receipt.token == job.token && bootId.Some? && receipt.bootId == bootId
  }

  /** A receipt of the operator serves the one waiting or active job it names, from its grant
      until it expires, which is at most fifteen minutes; and no job of another token. */
  lemma ReceiptServesOneJob(receipt: Receipt, job: Job, other: Job, bootId: Option<string>, now: nat, later: nat)
    ensures UserAuthorized(job, bootId, Some(receipt), now) <==>
      && job.state in {Queued, Active} && Names(receipt, job, bootId)
      && receipt.wellFormed && receipt.source == "explicit-user"
      && receipt.grantedAtMs <= now < receipt.expiresAtMs <= receipt.grantedAtMs + 900_000
    ensures UserAuthorized(job, bootId, Some(receipt), now) && later >= now + 900_000 ==>
      !UserAuthorized(job, bootId, Some(receipt), later)
    ensures UserAuthorized(job, bootId, Some(receipt), now) && other.token != job.token ==>
      !UserAuthorized(other, bootId, Some(receipt), later)
    ensures !UserAuthorized(job, bootId, None, now)
  {
  }
}
