/**
 The consumer of the desktop queue: any number of `desktop-run` processes, each
 with its receipt file, that submit a request, wait for its grant, claim it and
 start one child command. Processes, replies and the executor may fail anywhere.
 */
module DesktopRun {
  import opened Base
  import opened DesktopModel
  import opened DesktopInvariant
  import opened DesktopSystem
  import opened DesktopTheorems

  datatype Run = Run(executor: string, owner: string, requestKey: string, argv: seq<string>, deadlineAt: nat)

  datatype RunState = Submitting | Waiting | GaveUp | Starting | SpawnFailed | Started | Exited | Done

  /** The content of a receipt file; a child that was killed has no exit code. */
  datatype Record = Record(state: RunState, run: Run, consumerId: string, token: Option<string>, exitCode: Option<int>)

  /** Where a running process is; `Launching` has saved "starting" and has not spawned. */
  datatype Phase = NeedsJob | Polling | Claiming | Claimed | Launching | Supervising

  datatype Process = Process(phase: Phase, record: Record)

  datatype Launch = Launch(path: string, run: Run, consumerId: string)

  /** The executor, the receipt files, the processes (one per locked receipt), the
      consumer identifiers handed out so far, and the child commands started. */
  datatype Site = Site(w: World, receipts: map<string, Record>, processes: map<string, Process>,
                       used: set<string>, launches: seq<Launch>)

  predicate Early(s: RunState) { s.Submitting? || s.Waiting? }

  datatype SiteStep =
    | Other(step: Step)
    | Invoke(run: Run, newId: string, save: SaveOutcome)
    | SubmitRequest(c: Call, jobId: string, token: string, delivered: bool, answered: bool, save: SaveOutcome)
    | GiveUp(c: Call, delivered: bool, answered: bool, save: SaveOutcome)
    | Poll(c: Call, delivered: bool, answered: bool)
    | ClaimRequest(c: Call, delivered: bool, answered: bool)
    | SaveStarting(save: SaveOutcome)
    | Spawn(started: bool, save: SaveOutcome)
    | SaveProgress(next: RunState, exitCode: Option<int>, save: SaveOutcome)
    | Die

  // ----- Helpers -----

  /** Store a record; the process goes on in `next` only if the write succeeded. */
  function StoreRecord(z: Site, path: string, r: Record, o: SaveOutcome, next: Phase): Site {
    z.(receipts := if o.Written() then z.receipts[path := r] else z.receipts,
       processes := if o.Saved? then z.processes[path := Process(next, r)] else z.processes - {path})
  }

  function Leave(z: Site, path: string): Site { z.(processes := z.processes - {path}) }

  function Reach(z: Site, path: string, phase: Phase): Site
    requires path in z.processes
  {
    z.(processes := z.processes[path := z.processes[path].(phase := phase)])
  }

  /** One call to the executor, which may be down or never see it. */
  function Rpc(w: World, a: Action, c: Call, delivered: bool): (World, Result<Reply, ErrorCode>) {
    if w.up && delivered then (Take(w, Request(a, c)), Command(w.s, a, c).r) else (w, Err(StateFailed))
  }

  function SubmitOf(run: Run, jobId: string, token: string): Action {
    Submit(run.owner, run.requestKey, Given(900_000), Given(true), Given(run.deadlineAt), jobId, token)
  }

  /** What the reply to a status read makes of a waiting process. */
  datatype Verdict = KeepPolling | TryClaim | Stop

  function Judge(r: Result<Reply, ErrorCode>, consumerId: string): Verdict {
    if r.Err? || !r.value.JobReply? then KeepPolling
    else
      var job := r.value.job;
      if job.state.Queued? then KeepPolling
      else if job.state.Active? && r.value.inputAllowed == Some(true) then
        (if job.claimedBy.Some? && job.claimedBy.value != consumerId then Stop else TryClaim)
      else if job.state.Active? then KeepPolling
      else Stop
  }

  /** The states a supervising process stores after the child started, in order. */
  predicate Follows(a: RunState, b: RunState) {
    (a.Starting? && b.Started?) || (a.Started? && b.Exited?) || (a.Exited? && b.Done?)
  }

  /** The exit code is noted with the exit. */
  function Progressed(r: Record, next: RunState, exitCode: Option<int>): Record {
    r.(state := next, exitCode := if next.Exited? then exitCode else r.exitCode)
  }

  // ----- Steps -----

  ghost predicate CanTake(z: Site, path: string, t: SiteStep) {
    match t
    case Other(step) => Enabled(z.w, step)
    case Invoke(_, newId, _) => path !in z.processes && newId !in z.used
    case SubmitRequest(_, jobId, token, _, _, _) =>
      path in z.processes && z.processes[path].phase.NeedsJob? && Fresh(z.w.s.log, jobId, token)
    case GiveUp(_, _, _, _) => path in z.processes && z.processes[path].phase.Polling?
    case Poll(_, _, _) => path in z.processes && z.processes[path].phase.Polling?
    case ClaimRequest(_, _, _) => path in z.processes && z.processes[path].phase.Claiming?
    case SaveStarting(_) => path in z.processes && z.processes[path].phase.Claimed?
    case Spawn(_, _) => path in z.processes && z.processes[path].phase.Launching?
    case SaveProgress(next, _, _) =>
      path in z.processes && z.processes[path].phase.Supervising? && Follows(z.processes[path].record.state, next)
    case Die => path in z.processes
  }

  /** Read the receipt or make a new one, refuse a mismatch or a record that may
      already have been launched, and save before anything else. */
  function DoInvoke(z: Site, path: string, run: Run, newId: string, o: SaveOutcome): Site {
    var r := if path in z.receipts then z.receipts[path] else Record(Submitting, run, newId, None, None);
    if run.argv == [] || r.run != run || !Early(r.state) then z
    else StoreRecord(z.(used := z.used + {newId}), path, r, o, if r.token.Some? then Polling else NeedsJob)
  }

  function DoSubmitRequest(z: Site, path: string, t: SiteStep): Site
    requires t.SubmitRequest? && path in z.processes
  {
    var r := z.processes[path].record;
    var (w, reply) := Rpc(z.w, SubmitOf(r.run, t.jobId, t.token), t.c, t.delivered);
    if t.answered && reply.Ok? && reply.value.JobReply? then
      StoreRecord(z.(w := w), path, r.(token := Some(reply.value.job.token), state := Waiting), t.save, Polling)
    else Leave(z.(w := w), path)
  }

  function DoGiveUp(z: Site, path: string, t: SiteStep): Site
    requires t.GiveUp? && path in z.processes && z.processes[path].record.token.Some?
  {
    var r := z.processes[path].record;
    var (w, reply) := Rpc(z.w, Cancel(r.run.owner, r.token.value), t.c, t.delivered);
    if t.answered && reply.Ok? then
      Leave(StoreRecord(z.(w := w), path, r.(state := GaveUp), t.save, Polling), path)
    else Leave(z.(w := w), path)
  }

  function DoPoll(z: Site, path: string, t: SiteStep): Site
    requires t.Poll? && path in z.processes && z.processes[path].record.token.Some?
  {
    var r := z.processes[path].record;
    var (w, reply) := Rpc(z.w, Get(r.run.owner, r.token.value), t.c, t.delivered);
    match Judge(if t.answered then reply else Err(StateFailed), r.consumerId)
    case KeepPolling => z.(w := w)
    case TryClaim => Reach(z.(w := w), path, Claiming)
    case Stop => Leave(z.(w := w), path)
  }

  /** A lost reply is retried with the same durable consumer identifier. */
  function DoClaimRequest(z: Site, path: string, t: SiteStep): Site
    requires t.ClaimRequest? && path in z.processes && z.processes[path].record.token.Some?
  {
    var r := z.processes[path].record;
    var (w, reply) := Rpc(z.w, Claim(r.run.owner, r.token.value, r.consumerId), t.c, t.delivered);
    Reach(z.(w := w), path, if t.answered && reply.Ok? then Claimed else Polling)
  }

  function DoSpawn(z: Site, path: string, t: SiteStep): Site
    requires t.Spawn? && path in z.processes
  {
    var r := z.processes[path].record;
    if t.started then
      Reach(z.(launches := z.launches + [Launch(path, r.run, r.consumerId)]), path, Supervising)
    else Leave(StoreRecord(z, path, r.(state := SpawnFailed), t.save, Launching), path)
  }

  function TakeAt(z: Site, path: string, t: SiteStep): Site {
    match t
    case Other(step) => z.(w := Take(z.w, step))
    case Invoke(run, newId, save) => DoInvoke(z, path, run, newId, save)
    case SubmitRequest(_, _, _, _, _, _) => if path in z.processes then DoSubmitRequest(z, path, t) else z
    case GiveUp(_, _, _, _) =>
      if path in z.processes && z.processes[path].record.token.Some? then DoGiveUp(z, path, t) else z
    case Poll(_, _, _) =>
      if path in z.processes && z.processes[path].record.token.Some? then DoPoll(z, path, t) else z
    case ClaimRequest(_, _, _) =>
      if path in z.processes && z.processes[path].record.token.Some? then DoClaimRequest(z, path, t) else z
    case SaveStarting(save) =>
      if path in z.processes then StoreRecord(z, path, z.processes[path].record.(state := Starting), save, Launching) else z
    case Spawn(_, _) => if path in z.processes then DoSpawn(z, path, t) else z
    case SaveProgress(next, exitCode, save) =>
      if path in z.processes then StoreRecord(z, path, Progressed(z.processes[path].record, next, exitCode), save, Supervising)
      else z
    case Die => Leave(z, path)
  }

  datatype Move = Move(path: string, step: SiteStep)

  ghost predicate ValidMoves(z: Site, moves: seq<Move>)
    decreases |moves|
  {
    moves == [] ||
    (CanTake(z, moves[0].path, moves[0].step) && ValidMoves(TakeAt(z, moves[0].path, moves[0].step), moves[1..]))
  }

  function RunMoves(z: Site, moves: seq<Move>): Site
    decreases |moves|
  {
    if moves == [] then z else RunMoves(TakeAt(z, moves[0].path, moves[0].step), moves[1..])
  }

  const QUIET_SITE := Site(START, map[], map[], {}, [])

  // ----- What the executor's history says about requests and claims -----

  ghost predicate Issued(log: seq<Event>, run: Run, token: string) {
    exists e :: e in log && e.Submitted? && e.owner == run.owner && e.requestKey == run.requestKey && e.token == token
  }

  ghost predicate ClaimedFor(log: seq<Event>, run: Run, consumer: string) {
    exists e :: e in log && e.ClaimSaved? && e.owner == run.owner && e.requestKey == run.requestKey && e.consumer == consumer
  }

  lemma {:induction false} TokensAreUnique(log: seq<Event>, a: Event, b: Event)
    requires GoodLog(log) && a in log && b in log && a.Submitted? && b.Submitted? && a.token == b.token
    ensures a == b
  {
    var i :| 0 <= i < |log| && log[i] == a;
    var j :| 0 <= j < |log| && log[j] == b;
    if i < j {
      assert log[..j][i] == a;
      GoodPrefix(log, j);
    } else if j < i {
      assert log[..i][j] == b;
      GoodPrefix(log, i);
    }
  }

  /** All saved claims of one request name the same consumer. */
  lemma OneConsumerPerRequest(s: QueueState, run: Run, c1: string, c2: string)
    requires GoodDisk(s) && ClaimedFor(s.log, run, c1) && ClaimedFor(s.log, run, c2)
    ensures c1 == c2
  {
  }

  lemma PromoteKeepsIdentity(s: QueueState, e: PromoteInput)
    ensures |Promote(s, e).s.mem.jobs| == |s.mem.jobs|
    ensures forall i :: 0 <= i < |s.mem.jobs| ==> SameIdentity(s.mem.jobs[i], Promote(s, e).s.mem.jobs[i])
  {
    if !s.inspecting {
      var r := RefreshPolicy(s, e.providerPresent, e.policySave).s;
      assert r.mem.jobs == s.mem.jobs;
      var x := Expire(r, e.around.now, e.expirySave).s;
      assert x.mem.jobs == ExpireQueued(r.mem.jobs, e.around.now);
      AdmitKeepsIdentity(x, e);
    }
  }

  lemma AdmitKeepsIdentity(s: QueueState, e: PromoteInput)
    ensures forall i :: 0 <= i < |s.mem.jobs| ==> SameIdentity(s.mem.jobs[i], Admit(s, e).s.mem.jobs[i])
  {
    var c := PickCandidate(s.mem, e.around);
    if Admitting(s.mem) && c.Candidate? {
      var m := Grant(s, c, e.grantNow, e.grantSave).s.mem;
      assert m == s.mem || m == WithGrant(s.mem, c.index, e.grantNow);
    }
  }

  lemma SubmitReply(s: QueueState, a: Action, c: Call)
    requires Good(s) && a.Submit? && Fresh(s.log, a.newId, a.newToken)
    requires DoSubmit(s, a, c).r.Ok?
    ensures var r := DoSubmit(s, a, c);
            && r.r.value.JobReply? && r.r.value.job.owner == a.owner && r.r.value.job.requestKey == a.requestKey
            && SubmissionOf(r.r.value.job) in r.s.log
  {
    hide Good, Promote;
    DoSubmitKeeps(s, a, c);
    var known := RequestIndex(s.mem.jobs, a.owner, a.requestKey);
    var t := DoSubmit(s, a, c).s;
    if known.Some? {
      JobIsRecorded(t, known.value);
    } else {
      PromoteKeepsIdentity(Save(Added(s, NewJob(s.mem, a, c.around.now)), c.save).s, c.after);
      JobIsRecorded(t, |t.mem.jobs| - 1);
    }
  }

  /** Every job in memory was recorded when it was submitted. */
  lemma JobIsRecorded(s: QueueState, i: nat)
    requires Good(s) && i < |s.mem.jobs|
    ensures SubmissionOf(s.mem.jobs[i]) in s.log
  {
  }

  lemma SubmitIssues(s: QueueState, run: Run, jobId: string, token: string, c: Call)
    requires Good(s) && Fresh(s.log, jobId, token)
    requires Command(s, SubmitOf(run, jobId, token), c).r.Ok?
    ensures var r := Command(s, SubmitOf(run, jobId, token), c);
            r.r.value.JobReply? && Issued(r.s.log, run, r.r.value.job.token)
  {
    hide Good;
    var a := SubmitOf(run, jobId, token);
    PromoteKeeps(s, c.before);
    PromoteKeepsFresh(s, c.before, jobId, token);
    SubmitReply(Promote(s, c.before).s, a, c);
  }

  lemma ClaimReplyMeansClaimed(s: QueueState, run: Run, token: string, consumer: string, c: Call)
    requires Good(s) && Issued(s.log, run, token)
    requires DoClaim(s, run.owner, token, consumer, c).r.Ok?
    ensures ClaimedFor(DoClaim(s, run.owner, token, consumer, c).s.log, run, consumer)
  {
    var i := CredentialIndex(s.mem.jobs, run.owner, token).value;
    var job := s.mem.jobs[i];
    JobIsRecorded(s, i);
    var e :| e in s.log && e.Submitted? && e.owner == run.owner && e.requestKey == run.requestKey && e.token == token;
    TokensAreUnique(s.log, SubmissionOf(job), e);
    var log := DoClaim(s, run.owner, token, consumer, c).s.log;
    assert log[|log| - 1] == ClaimOf(i, job, consumer);
    assert ClaimOf(i, job, consumer) in log;
  }

  lemma ClaimSucceeds(s: QueueState, run: Run, token: string, consumer: string, c: Call)
    requires Good(s) && Issued(s.log, run, token)
    requires Command(s, Claim(run.owner, token, consumer), c).r.Ok?
    ensures ClaimedFor(Command(s, Claim(run.owner, token, consumer), c).s.log, run, consumer)
  {
    hide Good;
    PromoteKeeps(s, c.before);
    var p := Promote(s, c.before).s;
    IssuedStays(s.log, p.log, run, token);
    ClaimReplyMeansClaimed(p, run, token, consumer, c);
  }

  lemma IssuedStays(a: seq<Event>, b: seq<Event>, run: Run, token: string)
    requires a <= b && Issued(a, run, token)
    ensures Issued(b, run, token)
  {
    var e :| e in a && e.Submitted? && e.owner == run.owner && e.requestKey == run.requestKey && e.token == token;
    assert e in b;
  }

  lemma ClaimedStays(a: seq<Event>, b: seq<Event>, run: Run, consumer: string)
    requires a <= b && ClaimedFor(a, run, consumer)
    ensures ClaimedFor(b, run, consumer)
  {
    var e :| e in a && e.ClaimSaved? && e.owner == run.owner && e.requestKey == run.requestKey && e.consumer == consumer;
    assert e in b;
  }

  // ----- The invariant of the whole site -----

  ghost predicate GoodRecord(log: seq<Event>, used: set<string>, r: Record) {
    && r.consumerId in used
    && (r.token.Some? ==> Issued(log, r.run, r.token.value))
  }

  /** A process agrees with its receipt and is where its record allows it to be. */
  ghost predicate GoodProcess(log: seq<Event>, used: set<string>, p: Process, stored: Record) {
    && p.record == stored
    && GoodRecord(log, used, p.record)
    && (p.phase.NeedsJob? || p.phase.Polling? || p.phase.Claiming? || p.phase.Claimed? ==> Early(p.record.state))
    && (p.phase.Polling? || p.phase.Claiming? ==> p.record.token.Some?)
    && (p.phase.Launching? ==> p.record.state.Starting?)
    && (p.phase.Supervising? ==> !Early(p.record.state))
    && (p.phase.Claimed? || p.phase.Launching? ==> ClaimedFor(log, p.record.run, p.record.consumerId))
  }

  /** A child was started for the receipt's own claim, and its receipt says so. */
  ghost predicate GoodLaunch(log: seq<Event>, receipts: map<string, Record>, processes: map<string, Process>, l: Launch) {
    && l.path in receipts
    && receipts[l.path].run == l.run && receipts[l.path].consumerId == l.consumerId
    && !Early(receipts[l.path].state)
    && ClaimedFor(log, l.run, l.consumerId)
    && (l.path in processes ==> processes[l.path].phase.Supervising?)
  }

  ghost predicate GoodReceipts(log: seq<Event>, used: set<string>, receipts: map<string, Record>) {
    && (forall p :: p in receipts ==> GoodRecord(log, used, receipts[p]))
    && (forall p, q :: p in receipts && q in receipts && p != q ==> receipts[p].consumerId != receipts[q].consumerId)
  }

  ghost predicate GoodProcesses(log: seq<Event>, used: set<string>, receipts: map<string, Record>, processes: map<string, Process>) {
    forall p :: p in processes ==> p in receipts && GoodProcess(log, used, processes[p], receipts[p])
  }

  ghost predicate GoodLaunches(log: seq<Event>, receipts: map<string, Record>, processes: map<string, Process>, launches: seq<Launch>) {
    && (forall i :: 0 <= i < |launches| ==> GoodLaunch(log, receipts, processes, launches[i]))
    && (forall i, j :: 0 <= i < j < |launches| ==> launches[i].path != launches[j].path)
  }

  ghost predicate GoodSite(z: Site) {
    && Safe(z.w)
    && GoodReceipts(z.w.s.log, z.used, z.receipts)
    && GoodProcesses(z.w.s.log, z.used, z.receipts, z.processes)
    && GoodLaunches(z.w.s.log, z.receipts, z.processes, z.launches)
  }

  // ----- Every step keeps it -----

  lemma RecordStays(a: seq<Event>, b: seq<Event>, used: set<string>, r: Record)
    requires a <= b && GoodRecord(a, used, r)
    ensures GoodRecord(b, used, r)
  {
    if r.token.Some? {
      IssuedStays(a, b, r.run, r.token.value);
    }
  }

  lemma ProcessStays(a: seq<Event>, b: seq<Event>, used: set<string>, p: Process, r: Record)
    requires a <= b && GoodProcess(a, used, p, r)
    ensures GoodProcess(b, used, p, r)
  {
    RecordStays(a, b, used, p.record);
    if ClaimedFor(a, p.record.run, p.record.consumerId) {
      ClaimedStays(a, b, p.record.run, p.record.consumerId);
    }
  }

  /** Progress of the executor alone. */
  lemma ExecutorKeeps(z: Site, w: World)
    requires GoodSite(z) && Safe(w) && z.w.s.log <= w.s.log
    ensures GoodSite(z.(w := w))
  {
    hide Safe, GoodRecord, GoodProcess, ClaimedFor;
    forall p | p in z.receipts ensures GoodRecord(w.s.log, z.used, z.receipts[p]) {
      RecordStays(z.w.s.log, w.s.log, z.used, z.receipts[p]);
    }
    forall p | p in z.processes ensures GoodProcess(w.s.log, z.used, z.processes[p], z.receipts[p]) {
      ProcessStays(z.w.s.log, w.s.log, z.used, z.processes[p], z.receipts[p]);
    }
    forall i | 0 <= i < |z.launches| ensures GoodLaunch(w.s.log, z.receipts, z.processes, z.launches[i]) {
      ClaimedStays(z.w.s.log, w.s.log, z.launches[i].run, z.launches[i].consumerId);
    }
  }

  /** Launches stay good when receipts and processes that have one stay past it. */
  lemma LaunchesStay(log: seq<Event>, receipts: map<string, Record>, processes: map<string, Process>, launches: seq<Launch>,
                     path: string, receipts': map<string, Record>, processes': map<string, Process>)
    requires GoodLaunches(log, receipts, processes, launches)
    requires forall p :: p in receipts && p != path ==> p in receipts' && receipts'[p] == receipts[p]
    requires forall p :: p in processes' && p != path ==> p in processes && processes'[p] == processes[p]
    requires path in receipts && !Early(receipts[path].state) && (path in processes ==> processes[path].phase.Supervising?) ==>
      && path in receipts' && receipts'[path].run == receipts[path].run && receipts'[path].consumerId == receipts[path].consumerId
      && !Early(receipts'[path].state) && (path in processes' ==> processes'[path].phase.Supervising?)
    ensures GoodLaunches(log, receipts', processes', launches)
  {
    hide ClaimedFor;
    forall i | 0 <= i < |launches| ensures GoodLaunch(log, receipts', processes', launches[i]) {
      assert GoodLaunch(log, receipts, processes, launches[i]);
    }
  }

  lemma LeaveKeeps(z: Site, path: string)
    requires GoodSite(z)
    ensures GoodSite(Leave(z, path))
  {
    hide Safe, GoodReceipts, GoodLaunches, GoodProcess;
    LaunchesStay(z.w.s.log, z.receipts, z.processes, z.launches, path, z.receipts, z.processes - {path});
  }

  lemma ReceiptStored(log: seq<Event>, used: set<string>, receipts: map<string, Record>, path: string, r: Record)
    requires GoodReceipts(log, used, receipts) && GoodRecord(log, used, r)
    requires if path in receipts then receipts[path].consumerId == r.consumerId
             else forall p :: p in receipts ==> receipts[p].consumerId != r.consumerId
    ensures GoodReceipts(log, used, receipts[path := r])
  {
    hide GoodRecord;
  }

  /** A process replaces its receipt by a later version of it. */
  lemma StoreKeeps(z: Site, path: string, r: Record, o: SaveOutcome, next: Phase)
    requires GoodSite(z) && path in z.processes
    requires r.run == z.receipts[path].run && r.consumerId == z.receipts[path].consumerId
    requires z.processes[path].phase.Supervising? ==> next.Supervising?
    requires GoodProcess(z.w.s.log, z.used, Process(next, r), r)
    ensures GoodSite(StoreRecord(z, path, r, o, next))
  {
    hide Safe, GoodReceipts, GoodLaunches, GoodRecord, ClaimedFor;
    var z' := StoreRecord(z, path, r, o, next);
    ReceiptStored(z.w.s.log, z.used, z.receipts, path, r);
    LaunchesStay(z.w.s.log, z.receipts, z.processes, z.launches, path, z'.receipts, z'.processes);
  }

  lemma ReachKeeps(z: Site, path: string, phase: Phase)
    requires GoodSite(z) && path in z.processes && !z.processes[path].phase.Supervising?
    requires GoodProcess(z.w.s.log, z.used, z.processes[path].(phase := phase), z.receipts[path])
    ensures GoodSite(Reach(z, path, phase))
  {
    hide Safe, GoodReceipts, GoodLaunches, GoodProcess;
    LaunchesStay(z.w.s.log, z.receipts, z.processes, z.launches, path, z.receipts, Reach(z, path, phase).processes);
  }

  /** A final record is stored and the process ends. */
  lemma FinalStored(z: Site, path: string, r: Record, o: SaveOutcome, phase: Phase)
    requires GoodSite(z) && path in z.processes && !z.processes[path].phase.Supervising?
    requires r == z.processes[path].record.(state := r.state)
    ensures GoodSite(Leave(StoreRecord(z, path, r, o, phase), path))
  {
    hide Safe, GoodReceipts, GoodLaunches, ClaimedFor, Issued;
    var z' := Leave(StoreRecord(z, path, r, o, phase), path);
    ReceiptStored(z.w.s.log, z.used, z.receipts, path, r);
    LaunchesStay(z.w.s.log, z.receipts, z.processes, z.launches, path, z'.receipts, z'.processes);
  }

  lemma MoreUsed(log: seq<Event>, used: set<string>, more: set<string>, receipts: map<string, Record>, processes: map<string, Process>)
    requires used <= more
    ensures GoodReceipts(log, used, receipts) ==> GoodReceipts(log, more, receipts)
    ensures GoodProcesses(log, used, receipts, processes) ==> GoodProcesses(log, more, receipts, processes)
  {
    hide Issued, ClaimedFor;
    assert forall r :: GoodRecord(log, used, r) ==> GoodRecord(log, more, r);
    assert forall p, r :: GoodProcess(log, used, p, r) ==> GoodProcess(log, more, p, r);
  }

  /** A process starts on a receipt nobody holds, or stops before it started. */
  lemma ProcessStored(log: seq<Event>, used: set<string>, receipts: map<string, Record>, processes: map<string, Process>,
                      path: string, p: Process, r: Record)
    requires GoodProcesses(log, used, receipts, processes) && path !in processes && GoodProcess(log, used, p, r)
    ensures GoodProcesses(log, used, receipts[path := r], processes[path := p])
    ensures GoodProcesses(log, used, receipts[path := r], processes)
    ensures processes - {path} == processes
  {
    hide GoodProcess;
  }

  lemma InvokeKeeps(z: Site, path: string, run: Run, newId: string, o: SaveOutcome)
    requires GoodSite(z) && path !in z.processes && newId !in z.used
    ensures GoodSite(DoInvoke(z, path, run, newId, o))
  {
    hide Safe, GoodReceipts, GoodProcesses, GoodLaunches, GoodProcess, GoodRecord;
    var log, used := z.w.s.log, z.used + {newId};
    var r := if path in z.receipts then z.receipts[path] else Record(Submitting, run, newId, None, None);
    if r.run == run && Early(r.state) {
      MoreUsed(log, z.used, used, z.receipts, z.processes);
      InvokedRecord(z, path, r, newId);
      ReceiptStored(log, used, z.receipts, path, r);
      var p := Process(if r.token.Some? then Polling else NeedsJob, r);
      ProcessStored(log, used, z.receipts, z.processes, path, p, r);
      InvokedLaunches(z, path, r, p);
    }
  }

  /** No launch was made from a receipt that is still early. */
  lemma InvokedLaunches(z: Site, path: string, r: Record, p: Process)
    requires GoodSite(z) && path !in z.processes && (path in z.receipts ==> Early(z.receipts[path].state))
    ensures GoodLaunches(z.w.s.log, z.receipts, z.processes[path := p], z.launches)
    ensures GoodLaunches(z.w.s.log, z.receipts[path := r], z.processes[path := p], z.launches)
    ensures GoodLaunches(z.w.s.log, z.receipts[path := r], z.processes, z.launches)
  {
    hide Safe, GoodReceipts, GoodProcesses, GoodProcess, GoodRecord, GoodLaunches;
    LaunchesStay(z.w.s.log, z.receipts, z.processes, z.launches, path, z.receipts, z.processes[path := p]);
    LaunchesStay(z.w.s.log, z.receipts, z.processes, z.launches, path, z.receipts[path := r], z.processes[path := p]);
    LaunchesStay(z.w.s.log, z.receipts, z.processes, z.launches, path, z.receipts[path := r], z.processes);
  }

  lemma InvokedRecord(z: Site, path: string, r: Record, newId: string)
    requires GoodSite(z) && newId !in z.used && Early(r.state)
    requires if path in z.receipts then r == z.receipts[path] else r.consumerId == newId && r.token.None?
    ensures GoodRecord(z.w.s.log, z.used + {newId}, r)
    ensures GoodProcess(z.w.s.log, z.used + {newId}, Process(if r.token.Some? then Polling else NeedsJob, r), r)
    ensures path !in z.receipts ==> forall p :: p in z.receipts ==> z.receipts[p].consumerId != r.consumerId
  {
    hide Safe, Issued, ClaimedFor;
  }

  lemma RpcKeeps(z: Site, a: Action, c: Call, delivered: bool)
    requires GoodSite(z) && (a.Submit? ==> Fresh(z.w.s.log, a.newId, a.newToken))
    ensures GoodSite(z.(w := Rpc(z.w, a, c, delivered).0))
  {
    hide Safe, GoodReceipts, GoodProcesses, GoodLaunches;
    if z.w.up && delivered {
      StepKeeps(z.w, Request(a, c));
      StepGrows(z.w, Request(a, c));
      ExecutorKeeps(z, Take(z.w, Request(a, c)));
    }
  }

  lemma NewTokenRecord(z: Site, path: string, r: Record)
    requires GoodSite(z) && path in z.processes
    requires r.consumerId == z.processes[path].record.consumerId && r.token.Some? && Issued(z.w.s.log, r.run, r.token.value)
    ensures GoodRecord(z.w.s.log, z.used, r)
  {
    hide Safe, GoodReceipts, GoodLaunches, Issued;
  }

  lemma UpIsGood(w: World)
    requires Safe(w) && w.up
    ensures Good(w.s)
  {
  }

  lemma SubmitRequestKeeps(z: Site, path: string, t: SiteStep)
    requires GoodSite(z) && t.SubmitRequest? && CanTake(z, path, t)
    ensures GoodSite(DoSubmitRequest(z, path, t))
  {
    hide Safe, Good, GoodReceipts, GoodRecord, GoodLaunches, Issued, ClaimedFor;
    var r := z.processes[path].record;
    var a := SubmitOf(r.run, t.jobId, t.token);
    RpcKeeps(z, a, t.c, t.delivered);
    var (w, reply) := Rpc(z.w, a, t.c, t.delivered);
    var z1 := z.(w := w);
    if t.answered && reply.Ok? && reply.value.JobReply? {
      UpIsGood(z.w);
      SubmitIssues(z.w.s, r.run, t.jobId, t.token, t.c);
      var r' := r.(token := Some(reply.value.job.token), state := Waiting);
      NewTokenRecord(z1, path, r');
      StoreKeeps(z1, path, r', t.save, Polling);
    } else {
      LeaveKeeps(z1, path);
    }
  }

  lemma GiveUpKeeps(z: Site, path: string, t: SiteStep)
    requires GoodSite(z) && t.GiveUp? && CanTake(z, path, t) && z.processes[path].record.token.Some?
    ensures GoodSite(DoGiveUp(z, path, t))
  {
    hide GoodSite;
    var r := z.processes[path].record;
    var a := Cancel(r.run.owner, r.token.value);
    RpcKeeps(z, a, t.c, t.delivered);
    var z1 := z.(w := Rpc(z.w, a, t.c, t.delivered).0);
    LeaveKeeps(z1, path);
    FinalStored(z1, path, r.(state := GaveUp), t.save, Polling);
  }

  lemma PollKeeps(z: Site, path: string, t: SiteStep)
    requires GoodSite(z) && t.Poll? && CanTake(z, path, t) && z.processes[path].record.token.Some?
    ensures GoodSite(DoPoll(z, path, t))
  {
    hide Safe, GoodReceipts, GoodLaunches, GoodRecord, ClaimedFor;
    var r := z.processes[path].record;
    var a := Get(r.run.owner, r.token.value);
    RpcKeeps(z, a, t.c, t.delivered);
    var z1 := z.(w := Rpc(z.w, a, t.c, t.delivered).0);
    LeaveKeeps(z1, path);
    ReachKeeps(z1, path, Claiming);
  }

  lemma ClaimRequestKeeps(z: Site, path: string, t: SiteStep)
    requires GoodSite(z) && t.ClaimRequest? && CanTake(z, path, t) && z.processes[path].record.token.Some?
    ensures GoodSite(DoClaimRequest(z, path, t))
  {
    hide Safe, Good, GoodReceipts, GoodLaunches, Issued, ClaimedFor;
    var r := z.processes[path].record;
    var a := Claim(r.run.owner, r.token.value, r.consumerId);
    RpcKeeps(z, a, t.c, t.delivered);
    var (w, reply) := Rpc(z.w, a, t.c, t.delivered);
    if t.answered && reply.Ok? {
      UpIsGood(z.w);
      ClaimSucceeds(z.w.s, r.run, r.token.value, r.consumerId, t.c);
      ReachKeeps(z.(w := w), path, Claimed);
    } else {
      ReachKeeps(z.(w := w), path, Polling);
    }
  }

  /** The receipt of a process about to spawn belongs to no child yet. */
  lemma NotLaunchedYet(z: Site, path: string)
    requires GoodSite(z) && path in z.processes && !z.processes[path].phase.Supervising?
    ensures forall i :: 0 <= i < |z.launches| ==> z.launches[i].path != path
  {
    hide Safe, GoodReceipts, GoodProcesses, ClaimedFor;
    forall i | 0 <= i < |z.launches| ensures z.launches[i].path != path {
      assert GoodLaunch(z.w.s.log, z.receipts, z.processes, z.launches[i]);
    }
  }

  lemma SpawnKeeps(z: Site, path: string, t: SiteStep)
    requires GoodSite(z) && t.Spawn? && CanTake(z, path, t)
    ensures GoodSite(DoSpawn(z, path, t))
  {
    hide Safe, GoodReceipts, GoodRecord, ClaimedFor, GoodLaunches;
    var r := z.processes[path].record;
    if t.started {
      ReachKeeps(z, path, Supervising);
      NotLaunchedYet(z, path);
      LaunchAdded(Reach(z, path, Supervising), Launch(path, r.run, r.consumerId));
    } else {
      FinalStored(z, path, r.(state := SpawnFailed), t.save, Launching);
    }
  }

  lemma LaunchAdded(z: Site, l: Launch)
    requires GoodSite(z) && GoodLaunch(z.w.s.log, z.receipts, z.processes, l)
    requires forall i :: 0 <= i < |z.launches| ==> z.launches[i].path != l.path
    ensures GoodSite(z.(launches := z.launches + [l]))
  {
    hide Safe, GoodReceipts, GoodProcesses, GoodLaunch;
  }

  lemma SaveStartingKeeps(z: Site, path: string, o: SaveOutcome)
    requires GoodSite(z) && CanTake(z, path, SaveStarting(o))
    ensures GoodSite(TakeAt(z, path, SaveStarting(o)))
  {
    hide Safe, GoodReceipts, GoodLaunches, ClaimedFor, Issued;
    StoreKeeps(z, path, z.processes[path].record.(state := Starting), o, Launching);
  }

  lemma SaveProgressKeeps(z: Site, path: string, next: RunState, exitCode: Option<int>, o: SaveOutcome)
    requires GoodSite(z) && CanTake(z, path, SaveProgress(next, exitCode, o))
    ensures GoodSite(TakeAt(z, path, SaveProgress(next, exitCode, o)))
  {
    hide Safe, GoodReceipts, GoodLaunches, ClaimedFor, Issued;
    StoreKeeps(z, path, Progressed(z.processes[path].record, next, exitCode), o, Supervising);
  }

  lemma OtherKeeps(z: Site, step: Step)
    requires GoodSite(z) && Enabled(z.w, step)
    ensures GoodSite(z.(w := Take(z.w, step)))
  {
    hide Safe, GoodReceipts, GoodProcesses, GoodLaunches;
    StepKeeps(z.w, step);
    StepGrows(z.w, step);
    ExecutorKeeps(z, Take(z.w, step));
  }

  /** A process that waits for its grant knows the token of its job. */
  lemma KnowsToken(z: Site, path: string)
    requires GoodSite(z) && path in z.processes && (z.processes[path].phase.Polling? || z.processes[path].phase.Claiming?)
    ensures z.processes[path].record.token.Some?
  {
  }

  lemma SiteStepKeeps(z: Site, path: string, t: SiteStep)
    requires GoodSite(z) && CanTake(z, path, t)
    ensures GoodSite(TakeAt(z, path, t))
  {
    hide GoodSite;
    match t
    case Other(step) => OtherKeeps(z, step);
    case Invoke(run, newId, save) => InvokeKeeps(z, path, run, newId, save);
    case SubmitRequest(_, _, _, _, _, _) => SubmitRequestKeeps(z, path, t);
    case GiveUp(_, _, _, _) =>
      KnowsToken(z, path);
      GiveUpKeeps(z, path, t);
    case Poll(_, _, _) =>
      KnowsToken(z, path);
      PollKeeps(z, path, t);
    case ClaimRequest(_, _, _) =>
      KnowsToken(z, path);
      ClaimRequestKeeps(z, path, t);
    case SaveStarting(save) => SaveStartingKeeps(z, path, save);
    case Spawn(_, _) => SpawnKeeps(z, path, t);
    case SaveProgress(next, exitCode, save) => SaveProgressKeeps(z, path, next, exitCode, save);
    case Die => LeaveKeeps(z, path);
  }

  lemma {:induction false} MovesKeep(z: Site, moves: seq<Move>)
    requires GoodSite(z) && ValidMoves(z, moves)
    ensures GoodSite(RunMoves(z, moves))
    decreases |moves|
  {
    hide GoodSite;
    if moves != [] {
      SiteStepKeeps(z, moves[0].path, moves[0].step);
      MovesKeep(TakeAt(z, moves[0].path, moves[0].step), moves[1..]);
    }
  }

  // ----- At most one launch -----

  /** No two child commands were started for one owner and request key. */
  ghost predicate LaunchedOnce(launches: seq<Launch>) {
    forall i, j :: 0 <= i < j < |launches| ==>
      launches[i].run.owner != launches[j].run.owner || launches[i].run.requestKey != launches[j].run.requestKey
  }

  /** Whatever number of consumers, receipts, lost replies, failed writes, crashes
      and restarts there are, a request starts its command at most once. */
  lemma {:induction false} AtMostOneLaunch(moves: seq<Move>)
    requires ValidMoves(QUIET_SITE, moves)
    ensures LaunchedOnce(RunMoves(QUIET_SITE, moves).launches)
  {
    StartIsSafe();
    MovesKeep(QUIET_SITE, moves);
    var z := RunMoves(QUIET_SITE, moves);
    forall i, j | 0 <= i < j < |z.launches|
      ensures z.launches[i].run.owner != z.launches[j].run.owner || z.launches[i].run.requestKey != z.launches[j].run.requestKey
    {
      DistinctRequests(z, i, j);
    }
  }

  lemma DistinctRequests(z: Site, i: nat, j: nat)
    requires GoodSite(z) && i < j < |z.launches|
    ensures z.launches[i].run.owner != z.launches[j].run.owner || z.launches[i].run.requestKey != z.launches[j].run.requestKey
  {
    hide GoodDisk, Good, GoodProcesses, GoodRecord, ClaimedFor;
    var a, b := z.launches[i], z.launches[j];
    assert GoodLaunch(z.w.s.log, z.receipts, z.processes, a) && GoodLaunch(z.w.s.log, z.receipts, z.processes, b);
    DiskIsGood(z.w);
    if a.run.owner == b.run.owner && a.run.requestKey == b.run.requestKey {
      SameRequest(z.w.s, a, b);
    }
  }

  lemma DiskIsGood(w: World)
    requires Safe(w)
    ensures GoodDisk(w.s)
  {
  }

  lemma SameRequest(s: QueueState, a: Launch, b: Launch)
    requires GoodDisk(s) && a.run.owner == b.run.owner && a.run.requestKey == b.run.requestKey
    requires ClaimedFor(s.log, a.run, a.consumerId) && ClaimedFor(s.log, b.run, b.consumerId)
    ensures a.consumerId == b.consumerId
  {
    assert ClaimedFor(s.log, a.run, b.consumerId) by {
      var e :| e in s.log && e.ClaimSaved? && e.owner == b.run.owner && e.requestKey == b.run.requestKey && e.consumer == b.consumerId;
    }
    OneConsumerPerRequest(s, a.run, a.consumerId, b.consumerId);
  }
}
