/**
 The desktop queue as the object the executor holds: fields updated in place,
 loops over its jobs, a file that outlives the process. Each method is proved to
 do to the object what the function of the same name in DesktopModel does to the
 value, so the theorems about runs of those functions are about this object.
 */
module DesktopObject {
  import opened Base
  import opened DesktopModel

  class DesktopQueue {
    var epoch: nat
    var jobs: seq<Job>
    var inFlight: bool
    var blocked: bool
    var bootId: Option<string>
    var maintenanceOwner: Option<string>
    var availabilityRequired: bool
    var inspecting: bool
    /** The queue file. */
    var file: Option<Durable>
    ghost var history: seq<Event>

    /** What is serialised. */
    function Record(): Durable
      reads this
    {
      Durable(epoch, jobs, inFlight, blocked, bootId, maintenanceOwner, availabilityRequired)
    }

    ghost function View(): QueueState
      reads this
    {
      QueueState(Record(), inspecting, file, history)
    }

    /** A process that has not read its file yet. */
    constructor (disk: Option<Durable>)
      ensures View() == QueueState(EMPTY, false, disk, [])
    {
      epoch, jobs, inFlight, blocked, bootId := 0, [], false, false, None;
      maintenanceOwner, availabilityRequired, inspecting := None, false, false;
      file, history := disk, [];
    }

    method SaveFile(o: SaveOutcome) returns (r: Result<(), ErrorCode>)
      modifies this`file, this`history
      ensures Outcome(View(), r) == Save(old(View()), o)
    {
      if o.Written() {
        ghost var settles := View().OnDisk().inFlight && !inFlight;
        file := Some(Record());
        if settles {
          history := history + [Settled];
        }
      }
      match o
      case Saved => r := Ok(());
      case Failed(_) => r := Err(StateFailed);
      case Died(_) => r := Err(ProcessDied);
    }

    method FindLive() returns (r: Option<nat>)
      ensures r == LiveIndex(jobs)
    {
      var i := 0;
      while i < |jobs|
        invariant 0 <= i <= |jobs|
        invariant forall j :: 0 <= j < i ==> !jobs[j].state.Live()
      {
        if jobs[i].state.Live() {
          return Some(i);
        }
        i := i + 1;
      }
      r := None;
    }

    method FindCredentials(owner: string, token: string) returns (r: Option<nat>)
      ensures r == CredentialIndex(jobs, owner, token)
    {
      var i := 0;
      while i < |jobs|
        invariant 0 <= i <= |jobs|
        invariant forall j :: 0 <= j < i ==> !(jobs[j].owner == owner && jobs[j].token == token)
      {
        if jobs[i].owner == owner && jobs[i].token == token {
          return Some(i);
        }
        i := i + 1;
      }
      r := None;
    }

    method FindRequest(owner: string, requestKey: string) returns (r: Option<nat>)
      ensures r == RequestIndex(jobs, owner, requestKey)
    {
      var i := 0;
      while i < |jobs|
        invariant 0 <= i <= |jobs|
        invariant forall j :: 0 <= j < i ==> !(jobs[j].owner == owner && jobs[j].requestKey == requestKey)
      {
        if jobs[i].owner == owner && jobs[i].requestKey == requestKey {
          return Some(i);
        }
        i := i + 1;
      }
      r := None;
    }

    // ----- Opening -----

    method RetireLive()
      modifies this`jobs
      ensures jobs == InterruptLive(old(jobs))
    {
      var i := 0;
      while i < |jobs|
        invariant 0 <= i <= |jobs| == |old(jobs)|
        invariant forall j :: 0 <= j < i ==> jobs[j] == InterruptLive(old(jobs))[j]
        invariant forall j :: i <= j < |jobs| ==> jobs[j] == old(jobs)[j]
      {
        if jobs[i].state.Live() {
          jobs := jobs[i := jobs[i].(state := Interrupted)];
        }
        i := i + 1;
      }
    }

    method ReadFile()
      modifies this
      ensures View() == old(QueueState(View().OnDisk(), false, file, history))
    {
      var d := if file.Some? then file.value else EMPTY;
      epoch, jobs, inFlight, blocked, bootId := d.epoch, d.jobs, d.inFlight, d.blocked, d.bootId;
      maintenanceOwner, availabilityRequired, inspecting := d.maintenanceOwner, d.availabilityRequired, false;
    }

    method Reconcile(boot: Option<string>) returns (restarted: bool)
      modifies this`jobs, this`blocked, this`inFlight, this`bootId
      ensures Record() == Reopened(old(Record()), boot)
      ensures restarted == VerifiedRestart(old(bootId), boot)
    {
      restarted := VerifiedRestart(bootId, boot);
      var live := FindLive();
      assert live.Some? <==> HasLive(jobs);
      var interrupted := inFlight || live.Some?;
      if restarted {
        RetireLive();
        blocked := false;
        inFlight := false;
      } else if interrupted {
        blocked := true;
        inFlight := false;
      }
      if boot.Some? {
        bootId := boot;
      }
    }

    /** A file that cannot be read or decoded opens nothing. */
    method OpenFile(readable: bool, boot: Option<string>, o: SaveOutcome) returns (r: Result<(), ErrorCode>)
      modifies this
      ensures Outcome(View(), r) == if readable then Open(old(View()), boot, o) else Outcome(old(View()), Err(StateFailed))
    {
      if !readable {
        return Err(StateFailed);
      }
      ReadFile();
      ghost var read := jobs;
      var restarted := Reconcile(boot);
      history := history + [Opened(restarted, LiveSet(read))]
        + (if restarted && HasLive(read) then [Released(OsRestart, false)] else []);
      r := SaveFile(o);
    }

    // ----- Promotion -----

    method RefreshAvailabilityPolicy(provider: bool, o: SaveOutcome) returns (r: Result<(), ErrorCode>)
      modifies this`availabilityRequired, this`file, this`history
      ensures Outcome(View(), r) == RefreshPolicy(old(View()), provider, o)
    {
      r := Ok(());
      if !availabilityRequired && provider {
        availabilityRequired := true;
        r := SaveFile(o);
      }
    }

    method MarkExpired(now: nat) returns (expired: bool)
      modifies this`jobs
      ensures jobs == ExpireQueued(old(jobs), now)
      ensures expired <==> jobs != old(jobs)
    {
      ghost var target := ExpireQueued(jobs, now);
      expired := false;
      var i := 0;
      while i < |jobs|
        invariant 0 <= i <= |jobs| == |old(jobs)|
        invariant forall j :: 0 <= j < i ==> jobs[j] == target[j]
        invariant forall j :: i <= j < |jobs| ==> jobs[j] == old(jobs)[j]
        invariant expired <==> exists j :: 0 <= j < i && target[j] != old(jobs)[j]
      {
        if jobs[i].state.Queued? && jobs[i].PastDeadline(now) {
          jobs := jobs[i := jobs[i].(state := Expired)];
          expired := true;
        }
        i := i + 1;
      }
    }

    method ExpireWaiting(now: nat, o: SaveOutcome) returns (r: Result<(), ErrorCode>)
      modifies this`jobs, this`file, this`history
      ensures Outcome(View(), r) == Expire(old(View()), now, o)
    {
      var expired := MarkExpired(now);
      r := Ok(());
      if expired {
        r := SaveFile(o);
      }
    }

    method Candidates(around: Surroundings) returns (c: Candidate)
      ensures c == PickCandidate(Record(), around)
    {
      var i := 0;
      while i < |jobs| && !jobs[i].state.Queued?
        invariant 0 <= i <= |jobs|
        invariant forall j :: 0 <= j < i ==> !jobs[j].state.Queued?
      {
        i := i + 1;
      }
      if i < |jobs| && (!(jobs[i].requiresAvailability || availabilityRequired) || around.Available()) {
        return Candidate(i, false);
      }
      i := 0;
      while i < |jobs|
        invariant 0 <= i <= |jobs|
        invariant forall j :: 0 <= j < i ==>
          !(jobs[j].state.Queued? && UserAuthorized(jobs[j], bootId, around.receipt, around.now))
      {
        if jobs[i].state.Queued? && UserAuthorized(jobs[i], bootId, around.receipt, around.now) {
          return Candidate(i, true);
        }
        i := i + 1;
      }
      c := NoCandidate;
    }

    method GrantTo(c: Candidate, now: nat, o: SaveOutcome) returns (r: Result<(), ErrorCode>)
      requires c.Candidate? && c.index < |jobs|
      modifies this`epoch, this`jobs, this`file, this`history
      ensures Outcome(View(), r) == Grant(old(View()), c, now, o)
    {
      var oldJob := jobs[c.index];
      epoch := epoch + 1;
      jobs := jobs[c.index := oldJob.(epoch := epoch, state := Active, expiresAt := SaturatingAdd(now, oldJob.ttlMs))];
      r := SaveFile(o);
      if r.Err? {
        epoch := epoch - 1;
        jobs := jobs[c.index := oldJob];
        assert jobs == old(jobs);
      } else {
        history := history + [Granted(c.index, epoch, c.byReceipt, CredentialsOf(oldJob))];
      }
    }

    method PromoteNext(e: PromoteInput) returns (r: Result<(), ErrorCode>)
      modifies this
      ensures Outcome(View(), r) == Promote(old(View()), e)
    {
      if inspecting {
        return Ok(());
      }
      r := RefreshAvailabilityPolicy(e.providerPresent, e.policySave);
      if r.Err? {
        return;
      }
      r := ExpireWaiting(e.around.now, e.expirySave);
      if r.Err? {
        return;
      }
      var c := Candidates(e.around);
      var live := FindLive();
      if maintenanceOwner.None? && !blocked && !inFlight && live.None? && c.Candidate? {
        r := GrantTo(c, e.grantNow, e.grantSave);
      }
    }

    // ----- Cleanup -----

    method CheckCleanup(now: nat) returns (needed: bool)
      modifies this`jobs
      ensures (View(), needed) == NeedsCleanup(old(View()), now)
    {
      if inFlight {
        return false;
      }
      var live := FindLive();
      if live.None? {
        return false;
      }
      var i := live.value;
      if jobs[i].expiresAt <= now || jobs[i].PastDeadline(now) {
        jobs := jobs[i := jobs[i].(state := Draining)];
      }
      needed := jobs[i].state.Draining?;
    }

    method RetireCleaned(success: bool, now: nat)
      modifies this`jobs, this`blocked, this`history
      ensures View() == CleanedUp(old(View()), success, now)
    {
      if success {
        var live := FindLive();
        if live.Some? {
          var job := jobs[live.value];
          jobs := jobs[live.value := job.(state :=
            if blocked then Interrupted else if job.expiresAt <= now then Expired else Completed)];
          history := history + [Released(Cleanup, inFlight)];
        }
      } else {
        blocked := true;
      }
    }

    method FinishCleanup(success: bool, now: nat, o: SaveOutcome, e: PromoteInput) returns (r: Result<(), ErrorCode>)
      modifies this
      ensures Outcome(View(), r) == CleanupDone(old(View()), success, now, o, e)
    {
      RetireCleaned(success, now);
      r := SaveFile(o);
      if r.Ok? {
        r := PromoteNext(e);
      }
    }

    // ----- Commands -----

    method ListJobs(includeTerminal: Param<bool>, around: Surroundings) returns (r: Result<Reply, ErrorCode>)
      ensures Outcome(View(), r) == DoList(View(), includeTerminal, around)
    {
      if includeTerminal.Malformed? {
        return Err(InvalidParams);
      }
      var all := includeTerminal.Absent? || includeTerminal.value;
      var shown, terminal := [], 0;
      var i := |jobs|;
      while 0 < i
        invariant 0 <= i <= |jobs|
        invariant shown == Shown(Record(), jobs[i..], all, around)
        invariant terminal == TerminalCount(jobs[i..])
      {
        i := i - 1;
        assert jobs[i..][0] == jobs[i] && jobs[i..][1..] == jobs[i + 1..];
        if all || !jobs[i].state.Terminal() {
          var value := JobValue(Record(), jobs[i], around);
          shown := [value.(job := value.job.(token := ""))] + shown;
        }
        if jobs[i].state.Terminal() {
          terminal := terminal + 1;
        }
      }
      assert jobs[0..] == jobs;
      var live := FindLive();
      var safe := maintenanceOwner.Some? && !blocked && !inFlight && live.None?;
      r := Ok(ListReply(shown, terminal, |jobs|, all, availabilityRequired, around.Available(), blocked, inFlight,
                        maintenanceOwner, safe));
    }

    method SetMaintenance(owner: string, enabled: Param<bool>, c: Call) returns (r: Result<Reply, ErrorCode>)
      modifies this
      ensures Outcome(View(), r) == DoMaintenance(old(View()), owner, enabled, c)
    {
      if !FieldOk(owner) || !enabled.Given? {
        return Err(InvalidParams);
      }
      if maintenanceOwner.Some? && maintenanceOwner.value != owner {
        return Err(MaintenanceOwned);
      }
      maintenanceOwner := if enabled.value then Some(owner) else None;
      var saved := SaveFile(c.save);
      if saved.Err? {
        return Err(saved.error);
      }
      var promoted := PromoteNext(c.after);
      if promoted.Err? {
        return Err(promoted.error);
      }
      promoted := PromoteNext(c.last);
      if promoted.Err? {
        return Err(promoted.error);
      }
      r := ListJobs(Given(false), c.around);
    }

    method AddJob(job: Job, o: SaveOutcome) returns (r: Result<(), ErrorCode>)
      modifies this`jobs, this`file, this`history
      ensures Outcome(View(), r) == Save(Added(old(View()), job), o)
    {
      jobs := jobs + [job];
      history := history + [Submitted(job.id, job.owner, job.requestKey, job.token)];
      assert View() == Added(old(View()), job);
      r := SaveFile(o);
    }

    method SubmitJob(a: Action, c: Call) returns (r: Result<Reply, ErrorCode>)
      requires a.Submit?
      modifies this
      ensures Outcome(View(), r) == DoSubmit(old(View()), a, c)
    {
      hide FieldOk, SubmitOk, JobValue, Save, Promote, UserAuthorized, SnapshotAllowsInput;
      if !FieldOk(a.owner) || !FieldOk(a.requestKey) {
        return Err(InvalidParams);
      }
      var known := FindRequest(a.owner, a.requestKey);
      if known.Some? {
        return Ok(JobValue(Record(), jobs[known.value], c.around));
      }
      if |jobs| >= MAX_JOBS {
        return Err(QueueFull);
      }
      if !SubmitOk(a, c.around.now) {
        return Err(InvalidParams);
      }
      var saved := AddJob(NewJob(Record(), a, c.around.now), c.save);
      if saved.Err? {
        return Err(saved.error);
      }
      assert |jobs| == |old(jobs)| + 1;
      var promoted := PromoteNext(c.after);
      if promoted.Err? {
        return Err(promoted.error);
      }
      assert |View().mem.jobs| == |old(jobs)| + 1;
      r := Ok(JobValue(Record(), jobs[|jobs| - 1], c.around));
    }

    method SaveClaim(i: nat, consumer: string, o: SaveOutcome) returns (r: Result<(), ErrorCode>)
      requires i < |jobs|
      modifies this`jobs, this`file, this`history
      ensures Outcome(View(), r) == MarkClaim(old(View()), i, consumer, o)
    {
      var before := jobs[i].claimedBy;
      jobs := jobs[i := jobs[i].(claimedBy := Some(consumer))];
      r := SaveFile(o);
      if r.Err? {
        jobs := jobs[i := jobs[i].(claimedBy := before)];
        assert jobs == old(jobs);
      } else {
        history := history + [ClaimOf(i, jobs[i], consumer)];
      }
    }

    method ClaimJob(owner: string, token: string, consumer: string, c: Call) returns (r: Result<Reply, ErrorCode>)
      modifies this
      ensures Outcome(View(), r) == DoClaim(old(View()), owner, token, consumer, c)
    {
      hide FieldOk, Gated, Permitted, UserAuthorized, SnapshotAllowsInput;
      if !FieldOk(owner) || !FieldOk(token) || !FieldOk(consumer) {
        return Err(InvalidParams);
      }
      var found := FindCredentials(owner, token);
      if found.None? {
        return Err(SessionInvalid);
      }
      var i := found.value;
      if blocked || !jobs[i].Usable(c.around.now) {
        return Err(SessionInactive);
      }
      if Gated(Record(), jobs[i]) && !Permitted(Record(), jobs[i], c.around) {
        return Err(Unavailable);
      }
      if jobs[i].claimedBy.Some? && jobs[i].claimedBy.value != consumer {
        return Err(AlreadyClaimed);
      }
      ghost var id := jobs[i].id;
      var saved := SaveClaim(i, consumer, c.save);
      assert |jobs| == |old(jobs)| && jobs[i].id == id;
      if saved.Err? {
        return Err(saved.error);
      }
      r := Ok(ClaimReply(jobs[i].id));
    }

    method TouchJob(a: Action, owner: string, token: string, c: Call) returns (r: Result<Reply, ErrorCode>)
      modifies this
      ensures Outcome(View(), r) == DoTouch(old(View()), a, owner, token, c)
    {
      hide UserAuthorized, SnapshotAllowsInput;
      if !FieldOk(token) || !FieldOk(owner) {
        return Err(InvalidParams);
      }
      var found := FindCredentials(owner, token);
      if found.None? {
        return Err(SessionInvalid);
      }
      var i := found.value;
      var job := jobs[i];
      if a.Renew? {
        if !job.Usable(c.around.now) || blocked {
          return Err(SessionInactive);
        }
        job := job.(expiresAt := SaturatingAdd(c.around.now, job.ttlMs));
      } else if a.Finish? || a.Cancel? {
        if job.state.Queued? {
          job := job.(state := Cancelled);
        } else if job.state.Active? {
          job := job.(state := Draining);
        }
      }
      assert Touched(Record(), a, jobs[i], c.around.now) == Ok(job);
      jobs := jobs[i := job];
      var value := JobValue(Record(), jobs[i], c.around);
      if !a.Get? {
        var saved := SaveFile(c.save);
        if saved.Err? {
          return Err(saved.error);
        }
      }
      r := Ok(value);
    }

    method RecoverQueue(confirmed: bool, c: Call) returns (r: Result<Reply, ErrorCode>)
      modifies this
      ensures Outcome(View(), r) == DoRecover(old(View()), confirmed, c)
    {
      if !blocked || inFlight || !confirmed {
        return Err(RecoveryRequired);
      }
      var live := FindLive();
      if live.Some? {
        jobs := jobs[live.value := jobs[live.value].(state := Interrupted)];
        history := history + [Released(Recovery, inFlight)];
      }
      blocked := false;
      var saved := SaveFile(c.save);
      if saved.Err? {
        return Err(saved.error);
      }
      var promoted := PromoteNext(c.after);
      if promoted.Err? {
        return Err(promoted.error);
      }
      r := Ok(Recovered);
    }

    method Handle(a: Action, c: Call) returns (r: Result<Reply, ErrorCode>)
      modifies this
      ensures Outcome(View(), r) == Command(old(View()), a, c)
    {
      if inspecting && !a.List? && !a.Get? {
        return Err(InspectBusy);
      }
      var promoted := PromoteNext(c.before);
      if promoted.Err? {
        return Err(promoted.error);
      }
      match a
      case Maintenance(owner, enabled) => r := SetMaintenance(owner, enabled, c);
      case Submit(_, _, _, _, _, _, _) => r := SubmitJob(a, c);
      case List(includeTerminal) => r := ListJobs(includeTerminal, c.around);
      case Claim(owner, token, consumer) => r := ClaimJob(owner, token, consumer, c);
      case Get(owner, token) => r := TouchJob(a, owner, token, c);
      case Renew(owner, token) => r := TouchJob(a, owner, token, c);
      case Finish(owner, token) => r := TouchJob(a, owner, token, c);
      case Cancel(owner, token) => r := TouchJob(a, owner, token, c);
      case Recover(confirmed) => r := RecoverQueue(confirmed, c);
      case Unknown => r := Err(UnknownAction);
    }

    // ----- Inspection and dispatch -----

    method BeginRecoveryInspection(p: InspectionInput) returns (r: Result<(), ErrorCode>)
      modifies this`inspecting
      ensures Outcome(View(), r) == BeginInspection(old(View()), p)
    {
      if !p.nativeInspect {
        return Err(InspectActionInvalid);
      }
      if !p.isObject {
        return Err(InvalidParams);
      }
      if p.otherKeys || p.recoveryInspection != Given(true) || p.requestPermission != Given(false) {
        return Err(InspectParamsInvalid);
      }
      if !p.applicationPath.Given? || p.applicationPath.value == "" {
        return Err(InspectParamsInvalid);
      }
      if inspecting {
        return Err(InspectBusy);
      }
      if !blocked || inFlight {
        return Err(RecoveryRequired);
      }
      inspecting := true;
      r := Ok(());
    }

    method BeginDispatch(b: BeginInput) returns (r: Result<Option<(string, nat)>, ErrorCode>)
      modifies this
      ensures Outcome(View(), r) == Begin(old(View()), b)
    {
      hide UserAuthorized, SnapshotAllowsInput;
      if blocked {
        return Err(RecoveryRequired);
      }
      if inFlight {
        return Err(DesktopBusy);
      }
      var refreshed := RefreshAvailabilityPolicy(b.providerPresent, b.policySave);
      if refreshed.Err? {
        return Err(refreshed.error);
      }
      var live := FindLive();
      var session: Option<(string, nat)> := None;
      if live.Some? {
        var job := jobs[live.value];
        if !job.Usable(b.around.now) {
          return Err(DesktopDraining);
        }
        if b.credentials != Some(Credentials(job.owner, job.token)) {
          return Err(DesktopBusy);
        }
        if Gated(Record(), job) && !Permitted(Record(), job, b.around) {
          return Err(Unavailable);
        }
        if b.computerUse {
          session := Some((job.id, job.epoch));
        }
      } else if maintenanceOwner.Some? {
        return Err(DesktopMaintenance);
      } else if availabilityRequired || b.computerUse || b.credentials.Some? {
        return Err(SessionRequired);
      }
      inFlight := true;
      var saved := SaveFile(b.save);
      if saved.Err? {
        return Err(saved.error);
      }
      history := history + [Dispatched(live, epoch, b.credentials)];
      r := Ok(session);
    }

    method EndDispatch(uncertain: bool, o: SaveOutcome) returns (r: Result<(), ErrorCode>)
      modifies this
      ensures Outcome(View(), r) == End(old(View()), uncertain, o)
    {
      inFlight := false;
      blocked := blocked || uncertain;
      history := history + [Ended(uncertain)];
      r := SaveFile(o);
    }
  }
}
