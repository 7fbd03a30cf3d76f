/**
 The invariant of the desktop queue. It relates the queue in memory, the file on
 disk and the history of grants, dispatches and releases, and every building
 block of the operations keeps it whatever its inputs and write outcomes are.
 */
module DesktopInvariant {
  import opened Base
  import opened DesktopModel

  // ----- Reading the history -----

  /** The epoch of the latest grant. */
  ghost function LastEpoch(log: seq<Event>): nat {
    if log == [] then 0
    else if log[|log| - 1].Granted? then log[|log| - 1].epoch
    else LastEpoch(log[..|log| - 1])
  }

  /** A grant has been given and no release has been recorded since. */
  ghost predicate Holding(log: seq<Event>) {
    log != [] &&
    match log[|log| - 1]
    case Granted(_, _, _, _) => true
    case Released(_, _) => false
    case _ => Holding(log[..|log| - 1])
  }

  /** The job at `index` was granted `epoch` by the process that is running now. */
  ghost predicate GrantedSinceOpen(log: seq<Event>, index: nat, epoch: nat) {
    log != [] &&
    match log[|log| - 1]
    case Opened(_, _) => false
    case Granted(i, e, _, _) => (i == index && e == epoch) || GrantedSinceOpen(log[..|log| - 1], index, epoch)
    case _ => GrantedSinceOpen(log[..|log| - 1], index, epoch)
  }

  /** A dispatch has begun and neither its end nor a restart has been recorded. */
  ghost predicate Busy(log: seq<Event>) {
    log != [] &&
    match log[|log| - 1]
    case Dispatched(_, _, _) => true
    case Ended(_) => false
    case Opened(_, _) => false
    case _ => Busy(log[..|log| - 1])
  }

  /** A dispatch has begun and no file written since shows that it ended. */
  ghost predicate Unsettled(log: seq<Event>) {
    log != [] &&
    match log[|log| - 1]
    case Dispatched(_, _, _) => true
    case Settled => false
    case _ => Unsettled(log[..|log| - 1])
  }

  /** Neither identifier was ever given to a job. */
  ghost predicate Fresh(log: seq<Event>, id: string, token: string) {
    forall e :: e in log && e.Submitted? ==> e.id != id && e.token != token
  }

  function SubmissionOf(job: Job): Event { Submitted(job.id, job.owner, job.requestKey, job.token) }

  /** These credentials were given out for a submitted job. */
  ghost predicate IssuedTo(log: seq<Event>, to: Credentials) {
    exists e :: e in log && e.Submitted? && e.owner == to.owner && e.token == to.token
  }

  /** The job at `index` was granted `epoch`, and these are its credentials. */
  ghost predicate GrantedTo(log: seq<Event>, index: nat, epoch: nat, to: Credentials) {
    exists g :: g in log && g.Granted? && g.index == index && g.epoch == epoch && g.to == to
  }

  /** What may happen next after the history `log`. */
  ghost predicate Admissible(log: seq<Event>, e: Event) {
    match e
    case Granted(i, epoch, _, to) =>
      && IssuedTo(log, to)
      && !Holding(log)
      && LastEpoch(log) < epoch
      && (forall g :: g in log && g.Granted? ==> g.index != i && (g.byReceipt || g.index < i))
      && (forall g :: g in log && g.Opened? ==> i !in g.live)
    case Released(_, inFlight) => !inFlight && !Busy(log)
    case Dispatched(session, epoch, presented) =>
      && !Busy(log)
      && (session.None? ==> !Holding(log))
      && (session.Some? ==> Holding(log) && GrantedSinceOpen(log, session.value, epoch) && LastEpoch(log) == epoch)
      && (session.Some? ==> presented.Some? && GrantedTo(log, session.value, epoch, presented.value))
    case Settled => !Busy(log)
    case Submitted(id, _, _, token) => Fresh(log, id, token)
    case _ => true
  }

  ghost predicate GoodLog(log: seq<Event>) {
    log == [] || (GoodLog(log[..|log| - 1]) && Admissible(log[..|log| - 1], log[|log| - 1]))
  }

  // ----- The invariant -----

  predicate SameIdentity(a: Job, b: Job) {
    a.id == b.id && a.owner == b.owner && a.requestKey == b.requestKey && a.token == b.token
  }

  /** Jobs are distinguishable, at most one is live, and epochs name grants. */
  ghost predicate WellFormed(d: Durable) {
    && (forall i, j :: 0 <= i < j < |d.jobs| ==>
          && d.jobs[i].id != d.jobs[j].id
          && d.jobs[i].token != d.jobs[j].token
          && (d.jobs[i].owner != d.jobs[j].owner || d.jobs[i].requestKey != d.jobs[j].requestKey)
          && !(d.jobs[i].state.Live() && d.jobs[j].state.Live())
          && (d.jobs[i].epoch == d.jobs[j].epoch ==> d.jobs[i].epoch == 0))
    && (forall i :: 0 <= i < |d.jobs| ==>
          && d.jobs[i].epoch <= d.epoch
          && (d.jobs[i].state.Queued? ==> d.jobs[i].epoch == 0)
          && (d.jobs[i].state.Live() ==> d.jobs[i].epoch == d.epoch && d.epoch > 0))
  }

  /** None of the jobs at `indices` is waiting for a grant. */
  ghost predicate NoneWaiting(d: Durable, indices: set<nat>) {
    forall i :: i in indices ==> i < |d.jobs| && !d.jobs[i].state.Queued?
  }

  /** A queue, in memory or on disk, bears out what the history records. */
  ghost predicate Agrees(d: Durable, log: seq<Event>) {
    && (forall i :: 0 <= i < |d.jobs| ==> SubmissionOf(d.jobs[i]) in log)
    && LastEpoch(log) <= d.epoch
    && (Holding(log) ==> HasLive(d.jobs) && LastEpoch(log) == d.epoch)
    && (forall e :: e in log && e.Granted? ==>
          e.index < |d.jobs| && !d.jobs[e.index].state.Queued? && e.to == CredentialsOf(d.jobs[e.index]))
    && (forall e, j :: e in log && e.Granted? && !e.byReceipt && 0 <= j < e.index && j < |d.jobs| ==> !d.jobs[j].state.Queued?)
    && (forall e :: e in log && e.Opened? ==> NoneWaiting(d, e.live))
    && (forall e :: e in log && e.ClaimSaved? ==>
          && e.index < |d.jobs| && d.jobs[e.index].claimedBy == Some(e.consumer)
          && e == ClaimOf(e.index, d.jobs[e.index], e.consumer))
  }

  /** Every job on disk is in memory, and every live grant in memory is live on disk. */
  ghost predicate Backed(m: Durable, f: Durable) {
    && |f.jobs| <= |m.jobs|
    && (forall i :: 0 <= i < |f.jobs| ==> SameIdentity(m.jobs[i], f.jobs[i]))
    && (forall i :: 0 <= i < |m.jobs| && m.jobs[i].state.Live() ==>
          i < |f.jobs| && f.jobs[i].state.Live() && f.jobs[i].epoch == m.jobs[i].epoch)
  }

  /** A live grant that is not quarantined was given by the running process. */
  ghost predicate Current(m: Durable, log: seq<Event>) {
    !m.blocked ==> forall i :: 0 <= i < |m.jobs| && m.jobs[i].state.Live() ==>
      Holding(log) && GrantedSinceOpen(log, i, m.jobs[i].epoch)
  }

  /** The part of the invariant that survives a crash. */
  ghost predicate GoodDisk(s: QueueState) {
    && WellFormed(s.OnDisk())
    && Agrees(s.OnDisk(), s.log)
    && GoodLog(s.log)
    && (Unsettled(s.log) ==> s.OnDisk().inFlight)
  }

  ghost predicate Good(s: QueueState) {
    && GoodDisk(s)
    && WellFormed(s.mem)
    && Agrees(s.mem, s.log)
    && Backed(s.mem, s.OnDisk())
    && Current(s.mem, s.log)
    && (Busy(s.log) ==> s.mem.inFlight)
  }

  // ----- Appending to the history -----

  lemma Appended(log: seq<Event>, e: Event)
    ensures LastEpoch(log + [e]) == if e.Granted? then e.epoch else LastEpoch(log)
    ensures Holding(log + [e]) == (e.Granted? || (!e.Released? && Holding(log)))
    ensures Busy(log + [e]) == (e.Dispatched? || (!e.Ended? && !e.Opened? && Busy(log)))
    ensures Unsettled(log + [e]) == (e.Dispatched? || (!e.Settled? && Unsettled(log)))
    ensures GoodLog(log + [e]) == (GoodLog(log) && Admissible(log, e))
    ensures forall i, n :: GrantedSinceOpen(log + [e], i, n) ==
              (!e.Opened? && ((e.Granted? && e.index == i && e.epoch == n) || GrantedSinceOpen(log, i, n)))
  {
    assert (log + [e])[..|log|] == log;
  }

  lemma AgreesAppended(d: Durable, log: seq<Event>, e: Event)
    requires Agrees(d, log)
    requires !e.Granted? && !e.ClaimSaved? && (e.Opened? ==> e.live <= LiveSet(d.jobs))
    ensures Agrees(d, log + [e])
  {
    Appended(log, e);
  }

  /** Only the epoch and the jobs matter to the history. */
  lemma SameJobs(d: Durable, d': Durable, log: seq<Event>)
    requires d'.jobs == d.jobs && d'.epoch == d.epoch
    ensures WellFormed(d) ==> WellFormed(d')
    ensures Agrees(d, log) ==> Agrees(d', log)
  {
    if Agrees(d, log) {
      assert forall e :: e in log && e.Opened? ==> NoneWaiting(d, e.live) && NoneWaiting(d', e.live);
    }
  }

  // ----- Every building block keeps the invariant -----

  lemma SaveKeeps(s: QueueState, o: SaveOutcome)
    requires Good(s)
    ensures Good(Save(s, o).s)
  {
    hide WellFormed, Agrees, GoodLog;
    if o.Written() && s.OnDisk().inFlight && !s.mem.inFlight {
      Appended(s.log, Settled);
      AgreesAppended(s.mem, s.log, Settled);
    }
  }

  /** Changes that neither grant, retire nor claim: jobs keep who they are and
      what they were granted, waiting jobs may be given up, active ones drain. */
  ghost predicate Quiet(m: Durable, m': Durable) {
    && m'.epoch == m.epoch
    && |m'.jobs| == |m.jobs|
    && (forall i :: 0 <= i < |m.jobs| ==>
          && SameIdentity(m.jobs[i], m'.jobs[i])
          && m'.jobs[i].epoch == m.jobs[i].epoch
          && m'.jobs[i].claimedBy == m.jobs[i].claimedBy
          && m'.jobs[i].state.Live() == m.jobs[i].state.Live()
          && (m'.jobs[i].state.Queued? ==> m.jobs[i].state.Queued?))
    && (m.blocked && !m'.blocked ==> !HasLive(m.jobs))
  }

  lemma QuietWellFormed(m: Durable, m': Durable)
    requires WellFormed(m) && Quiet(m, m')
    ensures WellFormed(m')
  {
  }

  lemma QuietAgrees(m: Durable, m': Durable, log: seq<Event>)
    requires Agrees(m, log) && Quiet(m, m')
    ensures Agrees(m', log)
  {
    assert forall i :: 0 <= i < |m.jobs| ==> SubmissionOf(m'.jobs[i]) == SubmissionOf(m.jobs[i]);
    if HasLive(m.jobs) {
      var i :| 0 <= i < |m.jobs| && m.jobs[i].state.Live();
      assert m'.jobs[i].state.Live();
    }
  }

  lemma QuietKeeps(s: QueueState, m': Durable)
    requires Good(s) && Quiet(s.mem, m')
    requires (s.mem.inFlight ==> m'.inFlight) || !Busy(s.log)
    ensures Good(s.(mem := m'))
  {
    hide WellFormed, Agrees;
    QuietWellFormed(s.mem, m');
    QuietAgrees(s.mem, m', s.log);
  }

  /** Replacing a job by a later version of itself keeps a queue well formed. */
  lemma ReplacedWellFormed(d: Durable, i: nat, job: Job)
    requires WellFormed(d) && i < |d.jobs|
    requires SameIdentity(d.jobs[i], job) && job.epoch == d.jobs[i].epoch
    requires (job.state.Live() ==> d.jobs[i].state.Live()) && (job.state.Queued? ==> d.jobs[i].state.Queued?)
    ensures WellFormed(d.(jobs := d.jobs[i := job]))
  {
  }

  lemma ReplacedAgrees(d: Durable, i: nat, job: Job, log: seq<Event>)
    requires Agrees(d, log) && i < |d.jobs|
    requires SameIdentity(d.jobs[i], job)
    requires job.state.Queued? ==> d.jobs[i].state.Queued?
    requires Holding(log) ==> HasLive(d.jobs[i := job])
    requires job.claimedBy == d.jobs[i].claimedBy || d.jobs[i].claimedBy.None?
    ensures Agrees(d.(jobs := d.jobs[i := job]), log)
  {
  }

  /** A queue without a live grant needs nothing from the file or the running process. */
  lemma IdleKeeps(s: QueueState, m': Durable, log': seq<Event>)
    requires Good(s)
    requires WellFormed(m') && Agrees(m', log') && !HasLive(m'.jobs)
    requires Agrees(s.OnDisk(), log') && GoodLog(log')
    requires |s.mem.jobs| <= |m'.jobs|
    requires forall i :: 0 <= i < |s.mem.jobs| ==> SameIdentity(s.mem.jobs[i], m'.jobs[i])
    requires (Unsettled(log') ==> s.OnDisk().inFlight) && (Busy(log') ==> m'.inFlight)
    ensures Good(s.(mem := m', log := log'))
  {
  }

  lemma RetiredAgrees(d: Durable, i: nat, job: Job, log: seq<Event>, e: Event)
    requires Agrees(d, log) && i < |d.jobs| && e.Released?
    requires SameIdentity(d.jobs[i], job) && !job.state.Queued? && job.claimedBy == d.jobs[i].claimedBy
    ensures Agrees(d.(jobs := d.jobs[i := job]), log + [e])
  {
    Appended(log, e);
    AgreesAppended(d, log, e);
    ReplacedAgrees(d, i, job, log + [e]);
  }

  /** The live grant is retired while nothing is in flight. */
  lemma RetireKeeps(s: QueueState, i: nat, state: JobState, cause: Cause, blocked: bool)
    requires Good(s) && !s.mem.inFlight
    requires i < |s.mem.jobs| && s.mem.jobs[i].state.Live() && state.Terminal()
    ensures Good(s.(mem := s.mem.(jobs := s.mem.jobs[i := s.mem.jobs[i].(state := state)], blocked := blocked),
                    log := s.log + [Released(cause, s.mem.inFlight)]))
  {
    hide Agrees, GoodLog, GoodDisk, Backed, Current;
    var e := Released(cause, s.mem.inFlight);
    var job := s.mem.jobs[i].(state := state);
    var unblocked := s.mem.(jobs := s.mem.jobs[i := job]);
    var m' := unblocked.(blocked := blocked);
    ReplacedWellFormed(s.mem, i, job);
    assert WellFormed(m') && !HasLive(m'.jobs);
    RetiredAgrees(s.mem, i, job, s.log, e);
    SameJobs(unblocked, m', s.log + [e]);
    ReleaseRecorded(s, e);
    IdleKeeps(s, m', s.log + [e]);
  }

  lemma ReleaseRecorded(s: QueueState, e: Event)
    requires Good(s) && !s.mem.inFlight && e.Released? && !e.inFlight
    ensures Agrees(s.OnDisk(), s.log + [e]) && GoodLog(s.log + [e])
    ensures !Busy(s.log + [e]) && (Unsettled(s.log + [e]) ==> s.OnDisk().inFlight)
  {
    hide Agrees, WellFormed, Backed, Current;
    Appended(s.log, e);
    AgreesAppended(s.OnDisk(), s.log, e);
  }

  lemma AddedWellFormed(d: Durable, job: Job)
    requires WellFormed(d)
    requires job.state.Queued? && job.epoch == 0
    requires forall j :: 0 <= j < |d.jobs| ==>
      && d.jobs[j].id != job.id && d.jobs[j].token != job.token
      && (d.jobs[j].owner != job.owner || d.jobs[j].requestKey != job.requestKey)
    ensures WellFormed(d.(jobs := d.jobs + [job]))
  {
  }

  lemma AddedAgrees(d: Durable, job: Job, log: seq<Event>)
    requires Agrees(d, log)
    ensures Agrees(d.(jobs := d.jobs + [job]), log + [SubmissionOf(job)])
  {
    var jobs := d.jobs + [job];
    Appended(log, SubmissionOf(job));
    AgreesAppended(d, log, SubmissionOf(job));
    assert forall j :: 0 <= j < |d.jobs| ==> jobs[j] == d.jobs[j];
    if HasLive(d.jobs) {
      var i :| 0 <= i < |d.jobs| && d.jobs[i].state.Live();
      assert jobs[i].state.Live();
    }
  }

  lemma UnusedIdentity(d: Durable, log: seq<Event>, id: string, token: string, j: nat)
    requires Agrees(d, log) && Fresh(log, id, token) && j < |d.jobs|
    ensures d.jobs[j].id != id && d.jobs[j].token != token
  {
    assert SubmissionOf(d.jobs[j]) in log;
  }

  lemma SubmitKeeps(s: QueueState, job: Job)
    requires Good(s)
    requires job.state.Queued? && job.epoch == 0 && Fresh(s.log, job.id, job.token)
    requires RequestIndex(s.mem.jobs, job.owner, job.requestKey).None?
    ensures Good(Added(s, job))
  {
    hide WellFormed, Agrees, GoodLog, Fresh, RequestIndex, Current, Backed;
    SubmittedWellFormed(s, job);
    AddedAgrees(s.mem, job, s.log);
    AgreesAppended(s.OnDisk(), s.log, SubmissionOf(job));
    Appended(s.log, SubmissionOf(job));
    AddedIsBacked(s, job);
  }

  lemma SubmittedWellFormed(s: QueueState, job: Job)
    requires Good(s)
    requires job.state.Queued? && job.epoch == 0 && Fresh(s.log, job.id, job.token)
    requires RequestIndex(s.mem.jobs, job.owner, job.requestKey).None?
    ensures WellFormed(s.mem.(jobs := s.mem.jobs + [job]))
  {
    hide WellFormed, Agrees, GoodLog, Fresh, Current, Backed;
    forall j | 0 <= j < |s.mem.jobs|
      ensures s.mem.jobs[j].id != job.id && s.mem.jobs[j].token != job.token
    {
      UnusedIdentity(s.mem, s.log, job.id, job.token, j);
    }
    AddedWellFormed(s.mem, job);
  }

  lemma AddedIsBacked(s: QueueState, job: Job)
    requires Good(s) && job.state.Queued? && GoodLog(s.log + [SubmissionOf(job)])
    ensures Current(s.mem.(jobs := s.mem.jobs + [job]), s.log + [SubmissionOf(job)])
    ensures Backed(s.mem.(jobs := s.mem.jobs + [job]), s.OnDisk())
  {
    hide WellFormed, Agrees, GoodLog;
    Appended(s.log, SubmissionOf(job));
  }

  ghost predicate Grantable(m: Durable, c: Candidate) {
    && c.Candidate? && c.index < |m.jobs|
    && m.jobs[c.index].state.Queued? && !m.blocked && !m.inFlight && !HasLive(m.jobs)
    && (!c.byReceipt ==> forall j :: 0 <= j < c.index ==> !m.jobs[j].state.Queued?)
  }

  lemma GrantWellFormed(m: Durable, c: Candidate, now: nat)
    requires WellFormed(m) && Grantable(m, c)
    ensures WellFormed(WithGrant(m, c.index, now))
  {
  }

  lemma GrantAgrees(m: Durable, c: Candidate, now: nat, log: seq<Event>)
    requires Agrees(m, log) && Grantable(m, c)
    ensures Agrees(WithGrant(m, c.index, now), log)
    ensures !Holding(log) && LastEpoch(log) <= m.epoch
    ensures forall e :: e in log && e.Granted? ==> e.index != c.index && (e.byReceipt || e.index < c.index)
    ensures forall e :: e in log && e.Opened? ==> c.index !in e.live
  {
  }

  /** A grant given, saved and recorded, or not saved and taken back. */
  lemma GrantKeeps(s: QueueState, c: Candidate, now: nat, o: SaveOutcome)
    requires Good(s) && Grantable(s.mem, c)
    ensures Good(Grant(s, c, now, o).s)
  {
    var g := WithGrant(s.mem, c.index, now);
    GrantWellFormed(s.mem, c, now);
    GrantAgrees(s.mem, c, now, s.log);
    if o.Saved? {
      GrantSaved(s, c, now);
    } else {
      RollbackKeeps(s, g, o);
    }
  }

  /** Right after a successful write the file is the queue in memory. */
  lemma JustSaved(m: Durable, inspecting: bool, log: seq<Event>)
    requires WellFormed(m) && Agrees(m, log) && GoodLog(log) && Current(m, log)
    requires Unsettled(log) || Busy(log) ==> m.inFlight
    ensures Good(QueueState(m, inspecting, Some(m), log))
  {
  }

  /** The history after a successful write. */
  lemma SavedLog(s: QueueState, g: Durable)
    requires Good(s) && Agrees(g, s.log) && g.inFlight == s.mem.inFlight
    ensures var r := Save(s.(mem := g), Saved);
            && r == Outcome(QueueState(g, s.inspecting, Some(g), r.s.log), Ok(()))
            && GoodLog(r.s.log) && Agrees(g, r.s.log)
            && Holding(r.s.log) == Holding(s.log) && LastEpoch(r.s.log) == LastEpoch(s.log)
            && (Unsettled(r.s.log) || Busy(r.s.log) ==> g.inFlight)
            && (forall e :: e in r.s.log <==> e in s.log || (e == Settled && r.s.log != s.log))
  {
    Appended(s.log, Settled);
    AgreesAppended(g, s.log, Settled);
  }

  lemma GrantSaved(s: QueueState, c: Candidate, now: nat)
    requires Good(s) && Grantable(s.mem, c)
    ensures Good(Grant(s, c, now, Saved).s)
  {
    hide WellFormed, Agrees, GoodLog, Backed;
    var g := WithGrant(s.mem, c.index, now);
    GrantWellFormed(s.mem, c, now);
    GrantAgrees(s.mem, c, now, s.log);
    SavedLog(s, g);
    var log := Save(s.(mem := g), Saved).s.log;
    GrantRecorded(log, g, c);
    var e := Granted(c.index, g.epoch, c.byReceipt, CredentialsOf(s.mem.jobs[c.index]));
    Appended(log, e);
    JustSaved(g, s.inspecting, log + [e]);
  }

  lemma GrantRecorded(log: seq<Event>, g: Durable, c: Candidate)
    requires c.Candidate? && c.index < |g.jobs| && g.jobs[c.index].state.Active? && g.jobs[c.index].epoch == g.epoch
    requires WellFormed(g) && Agrees(g, log) && GoodLog(log) && !Holding(log) && LastEpoch(log) < g.epoch
    requires !c.byReceipt ==> forall j :: 0 <= j < c.index ==> !g.jobs[j].state.Queued?
    requires forall e :: e in log && e.Granted? ==> e.index != c.index && (e.byReceipt || e.index < c.index)
    requires forall e :: e in log && e.Opened? ==> c.index !in e.live
    ensures var log' := log + [Granted(c.index, g.epoch, c.byReceipt, CredentialsOf(g.jobs[c.index]))];
            GoodLog(log') && Agrees(g, log') && Current(g, log')
  {
    hide Agrees, GoodLog, Current, WellFormed;
    SubmissionIsRecorded(g, log, c.index);
    GrantIsAdmissible(log, g, c);
    GrantEventAgrees(log, g, c);
  }

  lemma SubmissionIsRecorded(d: Durable, log: seq<Event>, i: nat)
    requires Agrees(d, log) && i < |d.jobs|
    ensures SubmissionOf(d.jobs[i]) in log
  {
  }

  lemma GrantIsAdmissible(log: seq<Event>, g: Durable, c: Candidate)
    requires c.Candidate? && c.index < |g.jobs| && SubmissionOf(g.jobs[c.index]) in log
    requires GoodLog(log) && !Holding(log) && LastEpoch(log) < g.epoch
    requires forall e :: e in log && e.Granted? ==> e.index != c.index && (e.byReceipt || e.index < c.index)
    requires forall e :: e in log && e.Opened? ==> c.index !in e.live
    ensures GoodLog(log + [Granted(c.index, g.epoch, c.byReceipt, CredentialsOf(g.jobs[c.index]))])
  {
    Appended(log, Granted(c.index, g.epoch, c.byReceipt, CredentialsOf(g.jobs[c.index])));
  }

  lemma GrantEventAgrees(log: seq<Event>, g: Durable, c: Candidate)
    requires c.Candidate? && c.index < |g.jobs| && g.jobs[c.index].state.Active? && g.jobs[c.index].epoch == g.epoch
    requires WellFormed(g) && Agrees(g, log)
    requires !c.byReceipt ==> forall j :: 0 <= j < c.index ==> !g.jobs[j].state.Queued?
    ensures var log' := log + [Granted(c.index, g.epoch, c.byReceipt, CredentialsOf(g.jobs[c.index]))];
            Agrees(g, log') && Current(g, log')
  {
    Appended(log, Granted(c.index, g.epoch, c.byReceipt, CredentialsOf(g.jobs[c.index])));
    assert HasLive(g.jobs) by { assert g.jobs[c.index].state.Live(); }
  }

  /** A change whose write failed is taken back in memory. */
  lemma RollbackKeeps(s: QueueState, g: Durable, o: SaveOutcome)
    requires Good(s) && WellFormed(g) && Agrees(g, s.log) && Backed(s.mem, g)
    requires g.inFlight == s.mem.inFlight
    ensures Good(Save(s.(mem := g), o).s.(mem := s.mem))
  {
    if o.Written() && s.OnDisk().inFlight && !s.mem.inFlight {
      Appended(s.log, Settled);
      AgreesAppended(s.mem, s.log, Settled);
      AgreesAppended(g, s.log, Settled);
    }
  }

  lemma ClaimMarked(s: QueueState, i: nat, consumer: string)
    requires Good(s)
    requires i < |s.mem.jobs| && s.mem.jobs[i].state.Active?
    requires s.mem.jobs[i].claimedBy.None? || s.mem.jobs[i].claimedBy == Some(consumer)
    ensures var g := s.mem.(jobs := s.mem.jobs[i := s.mem.jobs[i].(claimedBy := Some(consumer))]);
            Good(s.(mem := g)) && Backed(s.mem, g)
  {
    hide WellFormed, Agrees, GoodLog;
    var job := s.mem.jobs[i].(claimedBy := Some(consumer));
    var g := s.mem.(jobs := s.mem.jobs[i := job]);
    assert HasLive(g.jobs) by { assert g.jobs[i].state.Live(); }
    ReplacedWellFormed(s.mem, i, job);
    ReplacedAgrees(s.mem, i, job, s.log);
  }

  lemma ClaimKeeps(s: QueueState, i: nat, consumer: string, o: SaveOutcome)
    requires Good(s)
    requires i < |s.mem.jobs| && s.mem.jobs[i].state.Active?
    requires s.mem.jobs[i].claimedBy.None? || s.mem.jobs[i].claimedBy == Some(consumer)
    ensures
      var saved := Save(s.(mem := s.mem.(jobs := s.mem.jobs[i := s.mem.jobs[i].(claimedBy := Some(consumer))])), o);
      Good(if saved.r.Err? then saved.s.(mem := s.mem)
           else saved.s.(log := saved.s.log + [ClaimOf(i, s.mem.jobs[i], consumer)]))
  {
    var g := s.mem.(jobs := s.mem.jobs[i := s.mem.jobs[i].(claimedBy := Some(consumer))]);
    ClaimMarked(s, i, consumer);
    if o.Saved? {
      SaveKeeps(s.(mem := g), o);
      ClaimRecorded(Save(s.(mem := g), o).s, i, consumer);
    } else {
      RollbackKeeps(s, g, o);
    }
  }

  lemma ClaimRecorded(s: QueueState, i: nat, consumer: string)
    requires Good(s) && s.OnDisk() == s.mem
    requires i < |s.mem.jobs| && s.mem.jobs[i].claimedBy == Some(consumer)
    ensures Good(s.(log := s.log + [ClaimOf(i, s.mem.jobs[i], consumer)]))
  {
    Appended(s.log, ClaimOf(i, s.mem.jobs[i], consumer));
  }
}
