/**
 The durable desktop admission queue as values: the queue in memory, the file
 that survives a crash, and one function per operation from the state before to
 the state after. Clock readings, the availability provider's file, the
 operator's receipt and the outcome of every file write are inputs.
 */
module DesktopModel {
  import opened Base

  datatype JobState = Queued | Active | Draining | Completed | Cancelled | Expired | Interrupted {
    /** A grant that has been given and not yet retired. */
    predicate Live() { Active? || Draining? }

    predicate Terminal() { Completed? || Cancelled? || Expired? || Interrupted? }
  }

  datatype Job = Job(
    id: string, owner: string, requestKey: string, token: string,
    state: JobState, epoch: nat, ttlMs: nat, submittedAt: nat, expiresAt: nat,
    requiresAvailability: bool, deadlineAt: Option<nat>, claimedBy: Option<string>)
  {
    predicate PastDeadline(now: nat) { deadlineAt.Some? && deadlineAt.value <= now }

    /** An active grant whose time to live and deadline have not passed. */
    predicate Usable(now: nat) { state.Active? && now < expiresAt && !PastDeadline(now) }
  }

  /** Everything that is written to the queue file. */
  datatype Durable = Durable(
    epoch: nat, jobs: seq<Job>, inFlight: bool, blocked: bool, bootId: Option<string>,
    maintenanceOwner: Option<string>, availabilityRequired: bool)

  const EMPTY := Durable(0, [], false, false, None, None, false)

  datatype Credentials = Credentials(owner: string, token: string)

  function CredentialsOf(job: Job): Credentials { Credentials(job.owner, job.token) }

  /** What the history of a queue records; nothing in the program reads it. */
  datatype Event =
    | Opened(verifiedRestart: bool, live: set<nat>)
    | Submitted(id: string, owner: string, requestKey: string, token: string)
    | Granted(index: nat, epoch: nat, byReceipt: bool, to: Credentials)
    | Released(cause: Cause, inFlight: bool)
    | Dispatched(session: Option<nat>, epoch: nat, presented: Option<Credentials>)
    | Ended(uncertain: bool)
    | Settled
    | ClaimSaved(index: nat, owner: string, requestKey: string, consumer: string)

  datatype Cause = Cleanup | Recovery | OsRestart

  /** The queue in memory, the file on disk, and the history so far. */
  datatype QueueState = QueueState(mem: Durable, inspecting: bool, file: Option<Durable>, log: seq<Event>) {
    /** What a restarted process would read: a missing file is an empty queue. */
    function OnDisk(): Durable { if file.Some? then file.value else EMPTY }
  }

  /** One file write: it succeeds, reports failure, or the process dies in it;
      in the last two cases the new content may or may not have been installed. */
  datatype SaveOutcome = Saved | Failed(written: bool) | Died(written: bool) {
    predicate Written() { Saved? || written }
  }

  datatype ErrorCode =
    | StateFailed | ProcessDied | InvalidParams | MaintenanceOwned | QueueFull | SessionInvalid
    | SessionInactive | Unavailable | AlreadyClaimed | RecoveryRequired | InspectBusy | UnknownAction
    | DesktopBusy | DesktopDraining | DesktopMaintenance | SessionRequired
    | InspectActionInvalid | InspectParamsInvalid

  datatype Outcome<T> = Outcome(s: QueueState, r: Result<T, ErrorCode>)

  // ----- Availability and operator receipts -----

  const AVAILABILITY_MAX_AGE_MS: nat := 10_000
  const AVAILABILITY_MAX_LIFETIME_MS: nat := 10_000
  const RECEIPT_MAX_LIFETIME_MS: nat := 900_000

  datatype Snapshot = Snapshot(
    schemaVersion: int, provider: string, state: string, generation: Option<string>,
    sequence: Option<int>, available: bool, observedAtMs: Option<nat>, expiresAtMs: Option<nat>)

  predicate SnapshotAllowsInput(v: Snapshot, now: nat) {
    && v.observedAtMs.Some? && v.expiresAtMs.Some?
    && v.schemaVersion == 1
    && v.provider == "away-guard"
    && v.state == "armed"
    && v.generation.Some? && 0 < |v.generation.value| <= 256
    && v.sequence.Some? && v.sequence.value > 0
    && v.available
    && v.observedAtMs.value <= now
    && now - v.observedAtMs.value <= AVAILABILITY_MAX_AGE_MS
    && now < v.expiresAtMs.value
    && v.expiresAtMs.value - v.observedAtMs.value <= AVAILABILITY_MAX_LIFETIME_MS
  }

  /** The operator's node-local receipt. `wellFormed` stands for the file checks
      (regular file, size, mode, owner, JSON, authorization id, reason); the token
      digest it carries is represented by the token it is the digest of. */
  datatype Receipt = Receipt(
    wellFormed: bool, source: string, jobId: string, owner: string, requestKey: string,
    token: string, bootId: Option<string>, grantedAtMs: nat, expiresAtMs: nat)

  predicate UserAuthorized(job: Job, bootId: Option<string>, receipt: Option<Receipt>, now: nat) {
    && (job.state.Queued? || job.state.Active?)
    && receipt.Some?
    && var v := receipt.value;
    && v.wellFormed
    && v.source == "explicit-user"
    && v.jobId == job.id && v.owner == job.owner && v.requestKey == job.requestKey && v.token == job.token
    && bootId.Some? && v.bootId == bootId
    && v.grantedAtMs <= now < v.expiresAtMs
    && v.expiresAtMs - v.grantedAtMs <= RECEIPT_MAX_LIFETIME_MS
  }

  /** What an operation observes of the node it runs on. */
  datatype Surroundings = Surroundings(now: nat, snapshot: Option<Snapshot>, receipt: Option<Receipt>) {
    predicate Available() { snapshot.Some? && SnapshotAllowsInput(snapshot.value, now) }
  }

  // ----- Searching -----

  /** The first index whose job satisfies `p`. */
  function Position(jobs: seq<Job>, p: Job -> bool): (r: Option<nat>)
    ensures r.Some? ==> r.value < |jobs| && p(jobs[r.value])
    ensures r.Some? ==> forall j :: 0 <= j < r.value ==> !p(jobs[j])
    ensures r.None? ==> forall j :: 0 <= j < |jobs| ==> !p(jobs[j])
  {
    if jobs == [] then None
    else if p(jobs[0]) then Some(0)
    else
      var rest := Position(jobs[1..], p);
      assert forall j :: 1 <= j < |jobs| ==> jobs[j] == jobs[1..][j - 1];
      if rest.Some? then Some(rest.value + 1) else None
  }

  function LiveIndex(jobs: seq<Job>): Option<nat> {
    Position(jobs, (j: Job) => j.state.Live())
  }

  predicate HasLive(jobs: seq<Job>) {
    exists i :: 0 <= i < |jobs| && jobs[i].state.Live()
  }

  function LiveSet(jobs: seq<Job>): set<nat> {
    set i: nat | i < |jobs| && jobs[i].state.Live()
  }

  // ----- Saving -----

  /** Write the queue in memory to the file. The first write that carries the end
      of a dispatch to the file is recorded. */
  function Save(s: QueueState, o: SaveOutcome): (r: Outcome<()>)
    ensures s.log <= r.s.log
    ensures r.s.mem == s.mem
    ensures r.r.Ok? ==> r.s.OnDisk() == s.mem
  {
    var installed :=
      if !o.Written() then s
      else if s.OnDisk().inFlight && !s.mem.inFlight then s.(file := Some(s.mem), log := s.log + [Settled])
      else s.(file := Some(s.mem));
    Outcome(installed, match o case Saved => Ok(()) case Failed(_) => Err(StateFailed) case Died(_) => Err(ProcessDied))
  }

  // ----- Opening after a start or a restart -----

  predicate VerifiedRestart(stored: Option<string>, current: Option<string>) {
    stored.Some? && current.Some? && stored.value != current.value
  }

  /** Retire every grant that was live when the operating system went down. */
  function InterruptLive(jobs: seq<Job>): (r: seq<Job>)
    ensures |r| == |jobs|
    ensures forall i :: 0 <= i < |jobs| ==>
      r[i] == if jobs[i].state.Live() then jobs[i].(state := Interrupted) else jobs[i]
  {
    seq(|jobs|, i requires 0 <= i < |jobs| =>
      if jobs[i].state.Live() then jobs[i].(state := Interrupted) else jobs[i])
  }

  function Reopened(d: Durable, bootId: Option<string>): Durable {
    var boot := if bootId.Some? then bootId else d.bootId;
    if VerifiedRestart(d.bootId, bootId) then
      d.(jobs := InterruptLive(d.jobs), blocked := false, inFlight := false, bootId := boot)
    else if d.inFlight || HasLive(d.jobs) then
      d.(blocked := true, inFlight := false, bootId := boot)
    else
      d.(bootId := boot)
  }

  function Open(s: QueueState, bootId: Option<string>, o: SaveOutcome): (r: Outcome<()>)
    ensures s.log <= r.s.log
  {
    var d := s.OnDisk();
    var restarted := VerifiedRestart(d.bootId, bootId);
    var retired := restarted && HasLive(d.jobs);
    var log := s.log + [Opened(restarted, LiveSet(d.jobs))] + (if retired then [Released(OsRestart, false)] else []);
    Save(QueueState(Reopened(d, bootId), false, s.file, log), o)
  }

  // ----- Promotion -----

  /** The inputs of one promotion: what is observed, a later clock reading for the
      grant, whether a provider file exists, and its three possible writes. */
  datatype PromoteInput = PromoteInput(
    around: Surroundings, grantNow: nat, providerPresent: bool,
    policySave: SaveOutcome, expirySave: SaveOutcome, grantSave: SaveOutcome)

  function RefreshPolicy(s: QueueState, providerPresent: bool, o: SaveOutcome): (r: Outcome<()>)
    ensures s.log <= r.s.log
    ensures |r.s.mem.jobs| == |s.mem.jobs|
  {
    if !s.mem.availabilityRequired && providerPresent then
      Save(s.(mem := s.mem.(availabilityRequired := true)), o)
    else Outcome(s, Ok(()))
  }

  function ExpireQueued(jobs: seq<Job>, now: nat): (r: seq<Job>)
    ensures |r| == |jobs|
    ensures forall i :: 0 <= i < |jobs| ==>
      r[i] == if jobs[i].state.Queued? && jobs[i].PastDeadline(now) then jobs[i].(state := Expired) else jobs[i]
  {
    seq(|jobs|, i requires 0 <= i < |jobs| =>
      if jobs[i].state.Queued? && jobs[i].PastDeadline(now) then jobs[i].(state := Expired) else jobs[i])
  }

  datatype Candidate = NoCandidate | Candidate(index: nat, byReceipt: bool)

  /** The head of the queue when its gate is open, otherwise the first queued job
      that the operator's receipt names. */
  function PickCandidate(m: Durable, around: Surroundings): (c: Candidate)
    ensures c.Candidate? ==> c.index < |m.jobs| && m.jobs[c.index].state.Queued?
    ensures c.Candidate? && !c.byReceipt ==> forall j :: 0 <= j < c.index ==> !m.jobs[j].state.Queued?
    ensures c.Candidate? && c.byReceipt ==>
      UserAuthorized(m.jobs[c.index], m.bootId, around.receipt, around.now)
  {
    var head := Position(m.jobs, (j: Job) => j.state.Queued?);
    if head.Some? && (!(m.jobs[head.value].requiresAvailability || m.availabilityRequired) || around.Available()) then
      Candidate(head.value, false)
    else
      var named := Position(m.jobs, (j: Job) =>
        j.state.Queued? && UserAuthorized(j, m.bootId, around.receipt, around.now));
      if named.Some? then Candidate(named.value, true) else NoCandidate
  }

  predicate Admitting(m: Durable) {
    m.maintenanceOwner.None? && !m.blocked && !m.inFlight && LiveIndex(m.jobs).None?
  }

  function WithGrant(m: Durable, i: nat, now: nat): Durable
    requires i < |m.jobs|
  {
    var job := m.jobs[i];
    m.(epoch := m.epoch + 1,
       jobs := m.jobs[i := job.(epoch := m.epoch + 1, state := Active, expiresAt := SaturatingAdd(now, job.ttlMs))])
  }

  /** Grant and save; a grant that could not be saved is taken back in memory. */
  function Grant(s: QueueState, c: Candidate, now: nat, o: SaveOutcome): (r: Outcome<()>)
    requires c.Candidate? && c.index < |s.mem.jobs|
    ensures s.log <= r.s.log
    ensures |r.s.mem.jobs| == |s.mem.jobs|
  {
    var granted := WithGrant(s.mem, c.index, now);
    var saved := Save(s.(mem := granted), o);
    if saved.r.Err? then Outcome(saved.s.(mem := s.mem), saved.r)
    else
      var event := Granted(c.index, granted.epoch, c.byReceipt, CredentialsOf(s.mem.jobs[c.index]));
      Outcome(saved.s.(log := saved.s.log + [event]), saved.r)
  }

  /** Expire queued jobs past their deadline, saving only when one expired. */
  function Expire(s: QueueState, now: nat, o: SaveOutcome): (r: Outcome<()>)
    ensures s.log <= r.s.log
    ensures |r.s.mem.jobs| == |s.mem.jobs|
  {
    var jobs := ExpireQueued(s.mem.jobs, now);
    if jobs == s.mem.jobs then Outcome(s, Ok(())) else Save(s.(mem := s.mem.(jobs := jobs)), o)
  }

  function Admit(s: QueueState, e: PromoteInput): (r: Outcome<()>)
    ensures s.log <= r.s.log
    ensures |r.s.mem.jobs| == |s.mem.jobs|
  {
    var c := PickCandidate(s.mem, e.around);
    if Admitting(s.mem) && c.Candidate? then Grant(s, c, e.grantNow, e.grantSave) else Outcome(s, Ok(()))
  }

  function Promote(s: QueueState, e: PromoteInput): (r: Outcome<()>)
    ensures s.log <= r.s.log
    ensures |r.s.mem.jobs| == |s.mem.jobs|
  {
    if s.inspecting then Outcome(s, Ok(()))
    else
      var refreshed := RefreshPolicy(s, e.providerPresent, e.policySave);
      if refreshed.r.Err? then refreshed
      else
        var expired := Expire(refreshed.s, e.around.now, e.expirySave);
        if expired.r.Err? then expired else Admit(expired.s, e)
  }

  // ----- Cleanup after a session -----

  function NeedsCleanup(s: QueueState, now: nat): (QueueState, bool) {
    var live := LiveIndex(s.mem.jobs);
    if s.mem.inFlight || live.None? then (s, false)
    else
      var job := s.mem.jobs[live.value];
      var drained :=
        if job.expiresAt <= now || job.PastDeadline(now) then s.(mem := s.mem.(jobs := s.mem.jobs[live.value := job.(state := Draining)]))
        else s;
      (drained, drained.mem.jobs[live.value].state.Draining?)
  }

  /** What stopping the session's helpers makes of its job. */
  function RetiredState(m: Durable, job: Job, now: nat): JobState {
    if m.blocked then Interrupted else if job.expiresAt <= now then Expired else Completed
  }

  /** The queue in memory once its helpers were stopped, or could not be. */
  function CleanedUp(s: QueueState, success: bool, now: nat): QueueState {
    var live := LiveIndex(s.mem.jobs);
    if !success then s.(mem := s.mem.(blocked := true))
    else if live.None? then s
    else
      var job := s.mem.jobs[live.value];
      s.(mem := s.mem.(jobs := s.mem.jobs[live.value := job.(state := RetiredState(s.mem, job, now))]),
         log := s.log + [Released(Cleanup, s.mem.inFlight)])
  }

  function CleanupDone(s: QueueState, success: bool, now: nat, o: SaveOutcome, e: PromoteInput): (r: Outcome<()>)
    ensures s.log <= r.s.log
  {
    var saved := Save(CleanedUp(s, success, now), o);
    if saved.r.Err? then saved else Promote(saved.s, e)
  }

  // ----- Commands -----

  datatype Param<T> = Absent | Malformed | Given(value: T)

  datatype Action =
    | Maintenance(owner: string, enabled: Param<bool>)
    | Submit(owner: string, requestKey: string, ttlMs: Param<nat>, requiresAvailability: Param<bool>,
             deadlineAt: Param<nat>, newId: string, newToken: string)
    | List(includeTerminal: Param<bool>)
    | Claim(owner: string, token: string, consumer: string)
    | Get(owner: string, token: string)
    | Renew(owner: string, token: string)
    | Finish(owner: string, token: string)
    | Cancel(owner: string, token: string)
    | Recover(confirmed: bool)
    | Unknown

  /** The inputs of one command: the promotion every command starts with, what the
      command itself observes, its own write, and the promotions that follow it. */
  datatype Call = Call(before: PromoteInput, around: Surroundings, save: SaveOutcome, after: PromoteInput, last: PromoteInput)

  datatype Reply =
    | JobReply(job: Job, inputAllowed: Option<bool>, userAuthorized: bool)
    | ListReply(shown: seq<Reply>, historyCount: nat, totalCount: nat, historyIncluded: bool,
                availabilityRequired: bool, available: bool, blocked: bool, inFlight: bool,
                maintenanceOwner: Option<string>, safePoint: bool)
    | ClaimReply(id: string)
    | Recovered

  const MAX_JOBS: nat := 10_000

  predicate FieldOk(v: string) { 0 < |v| <= 256 }

  predicate Gated(m: Durable, job: Job) { job.requiresAvailability || m.availabilityRequired }

  predicate Permitted(m: Durable, job: Job, around: Surroundings) {
    around.Available() || UserAuthorized(job, m.bootId, around.receipt, around.now)
  }

  function JobValue(m: Durable, job: Job, around: Surroundings): Reply {
    var authorized := UserAuthorized(job, m.bootId, around.receipt, around.now);
    if Gated(m, job) then
      JobReply(job.(requiresAvailability := true),
               Some(job.Usable(around.now) && !m.blocked && Permitted(m, job, around)), authorized)
    else JobReply(job, None, authorized)
  }

  predicate SafePoint(m: Durable) {
    m.maintenanceOwner.Some? && !m.blocked && !m.inFlight && LiveIndex(m.jobs).None?
  }

  /** What a listing says of a job: the same as a status read, without the token. */
  function Listed(m: Durable, job: Job, around: Surroundings): Reply {
    var value := JobValue(m, job, around);
    value.(job := value.job.(token := ""))
  }

  /** The jobs a listing shows, in queue order. */
  function Shown(m: Durable, jobs: seq<Job>, includeTerminal: bool, around: Surroundings): seq<Reply> {
    if jobs == [] then []
    else
      (if includeTerminal || !jobs[0].state.Terminal() then [Listed(m, jobs[0], around)] else [])
      + Shown(m, jobs[1..], includeTerminal, around)
  }

  function TerminalCount(jobs: seq<Job>): nat {
    if jobs == [] then 0 else (if jobs[0].state.Terminal() then 1 else 0) + TerminalCount(jobs[1..])
  }

  function DoList(s: QueueState, includeTerminal: Param<bool>, around: Surroundings): (r: Outcome<Reply>)
    ensures s.log <= r.s.log
  {
    if includeTerminal.Malformed? then Outcome(s, Err(InvalidParams))
    else
      var all := includeTerminal.Absent? || includeTerminal.value;
      Outcome(s, Ok(ListReply(Shown(s.mem, s.mem.jobs, all, around), TerminalCount(s.mem.jobs), |s.mem.jobs|, all,
                              s.mem.availabilityRequired, around.Available(), s.mem.blocked, s.mem.inFlight, s.mem.maintenanceOwner, SafePoint(s.mem))))
  }

  function DoMaintenance(s: QueueState, owner: string, enabled: Param<bool>, c: Call): (r: Outcome<Reply>)
    ensures s.log <= r.s.log
  {
    if !FieldOk(owner) || !enabled.Given? then Outcome(s, Err(InvalidParams))
    else if s.mem.maintenanceOwner.Some? && s.mem.maintenanceOwner.value != owner then
      Outcome(s, Err(MaintenanceOwned))
    else
      var owned := s.(mem := s.mem.(maintenanceOwner := if enabled.value then Some(owner) else None));
      var saved := Save(owned, c.save);
      if saved.r.Err? then Outcome(saved.s, Err(saved.r.error))
      else
        var promoted := Promote(saved.s, c.after);
        if promoted.r.Err? then Outcome(promoted.s, Err(promoted.r.error))
        else
          var again := Promote(promoted.s, c.last);
          if again.r.Err? then Outcome(again.s, Err(again.r.error)) else DoList(again.s, Given(false), c.around)
  }

  function NewJob(m: Durable, a: Action, now: nat): Job
    requires a.Submit?
  {
    Job(a.newId, a.owner, a.requestKey, a.newToken, Queued, 0,
        if a.ttlMs.Given? then a.ttlMs.value else 900_000, now, 0,
        (a.requiresAvailability.Given? && a.requiresAvailability.value) || m.availabilityRequired,
        if a.deadlineAt.Given? then Some(a.deadlineAt.value) else None, None)
  }

  predicate SubmitOk(a: Action, now: nat)
    requires a.Submit?
  {
    && 1000 <= (if a.ttlMs.Given? then a.ttlMs.value else 900_000) <= 3_600_000
    && !a.requiresAvailability.Malformed?
    && !a.deadlineAt.Malformed?
    && (a.deadlineAt.Given? ==> now < a.deadlineAt.value)
  }

  function RequestIndex(jobs: seq<Job>, owner: string, requestKey: string): Option<nat> {
    Position(jobs, (j: Job) => j.owner == owner && j.requestKey == requestKey)
  }

  /** The queue with one more job at its end. */
  function Added(s: QueueState, job: Job): QueueState {
    s.(mem := s.mem.(jobs := s.mem.jobs + [job]),
       log := s.log + [Submitted(job.id, job.owner, job.requestKey, job.token)])
  }

  function DoSubmit(s: QueueState, a: Action, c: Call): (r: Outcome<Reply>)
    requires a.Submit?
    ensures s.log <= r.s.log
  {
    var known := RequestIndex(s.mem.jobs, a.owner, a.requestKey);
    if !FieldOk(a.owner) || !FieldOk(a.requestKey) then Outcome(s, Err(InvalidParams))
    else if known.Some? then Outcome(s, Ok(JobValue(s.mem, s.mem.jobs[known.value], c.around)))
    else if |s.mem.jobs| >= MAX_JOBS then Outcome(s, Err(QueueFull))
    else if !SubmitOk(a, c.around.now) then Outcome(s, Err(InvalidParams))
    else
      var saved := Save(Added(s, NewJob(s.mem, a, c.around.now)), c.save);
      if saved.r.Err? then Outcome(saved.s, Err(saved.r.error))
      else
        var promoted := Promote(saved.s, c.after);
        if promoted.r.Err? then Outcome(promoted.s, Err(promoted.r.error))
        else
          var m := promoted.s.mem;
          Outcome(promoted.s, Ok(JobValue(m, m.jobs[|m.jobs| - 1], c.around)))
  }

  function CredentialIndex(jobs: seq<Job>, owner: string, token: string): Option<nat> {
    Position(jobs, (j: Job) => j.owner == owner && j.token == token)
  }

  function ClaimOf(index: nat, job: Job, consumer: string): Event {
    ClaimSaved(index, job.owner, job.requestKey, consumer)
  }

  /** Note the consumer and save; a note that could not be saved is taken back in memory. */
  function MarkClaim(s: QueueState, i: nat, consumer: string, o: SaveOutcome): (r: Outcome<()>)
    requires i < |s.mem.jobs|
    ensures s.log <= r.s.log
  {
    var job := s.mem.jobs[i];
    var claimed := s.(mem := s.mem.(jobs := s.mem.jobs[i := job.(claimedBy := Some(consumer))]));
    var saved := Save(claimed, o);
    if saved.r.Err? then Outcome(saved.s.(mem := s.mem), saved.r)
    else Outcome(saved.s.(log := saved.s.log + [ClaimOf(i, job, consumer)]), saved.r)
  }

  function DoClaim(s: QueueState, owner: string, token: string, consumer: string, c: Call): (r: Outcome<Reply>)
    ensures s.log <= r.s.log
  {
    var found := CredentialIndex(s.mem.jobs, owner, token);
    if !FieldOk(owner) || !FieldOk(token) || !FieldOk(consumer) then Outcome(s, Err(InvalidParams))
    else if found.None? then Outcome(s, Err(SessionInvalid))
    else
      var job := s.mem.jobs[found.value];
      if s.mem.blocked || !job.Usable(c.around.now) then Outcome(s, Err(SessionInactive))
      else if Gated(s.mem, job) && !Permitted(s.mem, job, c.around) then Outcome(s, Err(Unavailable))
      else if job.claimedBy.Some? && job.claimedBy.value != consumer then Outcome(s, Err(AlreadyClaimed))
      else
        var marked := MarkClaim(s, found.value, consumer, c.save);
        if marked.r.Err? then Outcome(marked.s, Err(marked.r.error)) else Outcome(marked.s, Ok(ClaimReply(job.id)))
  }

  /** The effect of a renewal, a finish or a cancellation on its own job. */
  function Touched(m: Durable, a: Action, job: Job, now: nat): Result<Job, ErrorCode> {
    match a
    case Renew(_, _) =>
      if job.Usable(now) && !m.blocked then Ok(job.(expiresAt := SaturatingAdd(now, job.ttlMs)))
      else Err(SessionInactive)
    case Finish(_, _) => Ok(Stopped(job))
    case Cancel(_, _) => Ok(Stopped(job))
    case _ => Ok(job)
  }

  function Stopped(job: Job): Job {
    if job.state.Queued? then job.(state := Cancelled)
    else if job.state.Active? then job.(state := Draining)
    else job
  }

  function DoTouch(s: QueueState, a: Action, owner: string, token: string, c: Call): (r: Outcome<Reply>)
    ensures s.log <= r.s.log
  {
    var found := CredentialIndex(s.mem.jobs, owner, token);
    if !FieldOk(token) || !FieldOk(owner) then Outcome(s, Err(InvalidParams))
    else if found.None? then Outcome(s, Err(SessionInvalid))
    else
      var t := Touched(s.mem, a, s.mem.jobs[found.value], c.around.now);
      if t.Err? then Outcome(s, Err(t.error))
      else
        var touched := s.(mem := s.mem.(jobs := s.mem.jobs[found.value := t.value]));
        var value := JobValue(touched.mem, t.value, c.around);
        if a.Get? then Outcome(touched, Ok(value))
        else
          var saved := Save(touched, c.save);
          if saved.r.Err? then Outcome(saved.s, Err(saved.r.error)) else Outcome(saved.s, Ok(value))
  }

  function DoRecover(s: QueueState, confirmed: bool, c: Call): (r: Outcome<Reply>)
    ensures s.log <= r.s.log
  {
    if !s.mem.blocked || s.mem.inFlight || !confirmed then Outcome(s, Err(RecoveryRequired))
    else
      var live := LiveIndex(s.mem.jobs);
      var reset :=
        if live.None? then s.(mem := s.mem.(blocked := false))
        else s.(mem := s.mem.(blocked := false,
                              jobs := s.mem.jobs[live.value := s.mem.jobs[live.value].(state := Interrupted)]),
                log := s.log + [Released(Recovery, s.mem.inFlight)]);
      var saved := Save(reset, c.save);
      if saved.r.Err? then Outcome(saved.s, Err(saved.r.error))
      else
        var promoted := Promote(saved.s, c.after);
        if promoted.r.Err? then Outcome(promoted.s, Err(promoted.r.error)) else Outcome(promoted.s, Ok(Recovered))
  }

  function Act(s: QueueState, a: Action, c: Call): (r: Outcome<Reply>)
    ensures s.log <= r.s.log
  {
    match a
    case Maintenance(owner, enabled) => DoMaintenance(s, owner, enabled, c)
    case Submit(_, _, _, _, _, _, _) => DoSubmit(s, a, c)
    case List(includeTerminal) => DoList(s, includeTerminal, c.around)
    case Claim(owner, token, consumer) => DoClaim(s, owner, token, consumer, c)
    case Get(owner, token) => DoTouch(s, a, owner, token, c)
    case Renew(owner, token) => DoTouch(s, a, owner, token, c)
    case Finish(owner, token) => DoTouch(s, a, owner, token, c)
    case Cancel(owner, token) => DoTouch(s, a, owner, token, c)
    case Recover(confirmed) => DoRecover(s, confirmed, c)
    case Unknown => Outcome(s, Err(UnknownAction))
  }

  /** Every command first advances an eligible queue; while a recovery inspection
      runs only the two reads are admitted. */
  function Command(s: QueueState, a: Action, c: Call): (r: Outcome<Reply>)
    ensures s.log <= r.s.log
  {
    if s.inspecting && !a.List? && !a.Get? then Outcome(s, Err(InspectBusy))
    else
      var promoted := Promote(s, c.before);
      if promoted.r.Err? then Outcome(promoted.s, Err(promoted.r.error)) else Act(promoted.s, a, c)
  }

  // ----- Recovery inspection -----

  /** The parameters of a recovery inspection, as far as they are looked at. */
  datatype InspectionInput = InspectionInput(
    nativeInspect: bool, isObject: bool, otherKeys: bool, recoveryInspection: Param<bool>,
    requestPermission: Param<bool>, applicationPath: Param<string>)

  /** Only an application path may be named, and no permission may be asked for. */
  function InspectionRefusal(p: InspectionInput): Option<ErrorCode> {
    if !p.nativeInspect then Some(InspectActionInvalid)
    else if !p.isObject then Some(InvalidParams)
    else if p.otherKeys || p.recoveryInspection != Given(true) || p.requestPermission != Given(false)
      || !p.applicationPath.Given? || p.applicationPath.value == "" then Some(InspectParamsInvalid)
    else None
  }

  function BeginInspection(s: QueueState, p: InspectionInput): Outcome<()> {
    if InspectionRefusal(p).Some? then Outcome(s, Err(InspectionRefusal(p).value))
    else if s.inspecting then Outcome(s, Err(InspectBusy))
    else if !s.mem.blocked || s.mem.inFlight then Outcome(s, Err(RecoveryRequired))
    else Outcome(s.(inspecting := true), Ok(()))
  }

  // ----- Dispatch -----

  datatype BeginInput = BeginInput(
    computerUse: bool, credentials: Option<Credentials>, around: Surroundings,
    providerPresent: bool, policySave: SaveOutcome, save: SaveOutcome)

  /** Why a dispatch is refused, given the policy is up to date; `None` admits it. */
  function Refusal(m: Durable, b: BeginInput): Option<ErrorCode> {
    var live := LiveIndex(m.jobs);
    if live.Some? then
      var job := m.jobs[live.value];
      if !job.Usable(b.around.now) then Some(DesktopDraining)
      else if b.credentials != Some(CredentialsOf(job)) then Some(DesktopBusy)
      else if Gated(m, job) && !Permitted(m, job, b.around) then Some(Unavailable)
      else None
    else if m.maintenanceOwner.Some? then Some(DesktopMaintenance)
    else if m.availabilityRequired || b.computerUse || b.credentials.Some? then Some(SessionRequired)
    else None
  }

  /** Admit a desktop action. The mark is kept in memory when its write fails. The
      result names the session a computer-use call runs in. */
  function Begin(s: QueueState, b: BeginInput): (r: Outcome<Option<(string, nat)>>)
    ensures s.log <= r.s.log
  {
    if s.mem.blocked then Outcome(s, Err(RecoveryRequired))
    else if s.mem.inFlight then Outcome(s, Err(DesktopBusy))
    else
      var refreshed := RefreshPolicy(s, b.providerPresent, b.policySave);
      var m := refreshed.s.mem;
      if refreshed.r.Err? then Outcome(refreshed.s, Err(refreshed.r.error))
      else if Refusal(m, b).Some? then Outcome(refreshed.s, Err(Refusal(m, b).value))
      else
        var live := LiveIndex(m.jobs);
        var saved := Save(refreshed.s.(mem := m.(inFlight := true)), b.save);
        if saved.r.Err? then Outcome(saved.s, Err(saved.r.error))
        else
          Outcome(saved.s.(log := saved.s.log + [Dispatched(live, m.epoch, b.credentials)]),
                  Ok(if live.Some? && b.computerUse
                     then Some((m.jobs[live.value].id, m.jobs[live.value].epoch)) else None))
  }

  function End(s: QueueState, uncertain: bool, o: SaveOutcome): (r: Outcome<()>)
    ensures s.log <= r.s.log
  {
    Save(s.(mem := s.mem.(inFlight := false, blocked := s.mem.blocked || uncertain),
            log := s.log + [Ended(uncertain)]), o)
  }
}
