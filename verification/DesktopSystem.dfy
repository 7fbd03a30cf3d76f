/**
 The executor around the queue: a process that may die at any write, the gate
 that serialises dispatch and cleanup, and every interleaving of worker wakes,
 commands, dispatches, cleanups, inspections, crashes and restarts.
 */
module DesktopSystem {
  import opened Base
  import opened DesktopModel
  import opened DesktopInvariant

  /** Who holds the executor's desktop gate. */
  datatype Gate = Idle | Dispatching | Cleaning

  datatype World = World(up: bool, gate: Gate, s: QueueState)

  const START := World(false, Idle, QueueState(EMPTY, false, None, []))

  datatype Step =
    | Crash
    | Start(bootId: Option<string>, save: SaveOutcome)
    | StartUnreadable
    | Wake(e: PromoteInput)
    | Request(a: Action, c: Call)
    | InspectionStart(p: InspectionInput)
    | InspectionStop
    | DispatchStart(b: BeginInput)
    | DispatchEnd(uncertain: bool, save: SaveOutcome)
    | CleanupStart(now: nat)
    | CleanupEnd(success: bool, now: nat, save: SaveOutcome, e: PromoteInput)

  /** The world after an operation of a running process, which may have died in it. */
  function After<T>(o: Outcome<T>, gate: Gate): World {
    if o.r == Err(ProcessDied) then World(false, Idle, o.s) else World(true, gate, o.s)
  }

  /** Whether a step can be taken. New identifiers are random and never repeat. */
  ghost predicate Enabled(w: World, step: Step) {
    match step
    case Crash => true
    case Start(_, _) => !w.up
    case StartUnreadable => !w.up
    case Wake(_) => w.up
    case Request(a, _) => w.up && (a.Submit? ==> Fresh(w.s.log, a.newId, a.newToken))
    case InspectionStart(_) => w.up && w.gate.Idle?
    case InspectionStop => w.up
    case DispatchStart(_) => w.up && w.gate.Idle?
    case DispatchEnd(_, _) => w.up && w.gate.Dispatching?
    case CleanupStart(_) => w.up && w.gate.Idle?
    case CleanupEnd(_, _, _, _) => w.up && w.gate.Cleaning?
  }

  function Take(w: World, step: Step): World {
    match step
    case Crash => World(false, Idle, w.s)
    case Start(bootId, save) =>
      var o := Open(w.s, bootId, save);
      World(o.r.Ok?, Idle, o.s)
    case StartUnreadable => w
    case Wake(e) => After(Promote(w.s, e), w.gate)
    case Request(a, c) => After(Command(w.s, a, c), w.gate)
    case InspectionStart(p) => World(true, w.gate, BeginInspection(w.s, p).s)
    case InspectionStop => World(true, w.gate, w.s.(inspecting := false))
    case DispatchStart(b) =>
      var o := Begin(w.s, b);
      After(o, if o.r.Ok? then Dispatching else Idle)
    case DispatchEnd(uncertain, save) => After(End(w.s, uncertain, save), Idle)
    case CleanupStart(now) =>
      var (s, needed) := NeedsCleanup(w.s, now);
      World(true, if needed then Cleaning else Idle, s)
    case CleanupEnd(success, now, save, e) => After(CleanupDone(w.s, success, now, save, e), Idle)
  }

  ghost predicate ValidRun(w: World, steps: seq<Step>)
    decreases |steps|
  {
    steps == [] || (Enabled(w, steps[0]) && ValidRun(Take(w, steps[0]), steps[1..]))
  }

  function Run(w: World, steps: seq<Step>): World
    decreases |steps|
  {
    if steps == [] then w else Run(Take(w, steps[0]), steps[1..])
  }

  /** The invariant of the whole executor. */
  ghost predicate Safe(w: World) {
    && (if w.up then Good(w.s) else GoodDisk(w.s) && w.gate.Idle?)
    && (w.gate.Dispatching? ==> w.s.mem.inFlight)
    && (w.gate.Cleaning? ==> !w.s.mem.inFlight)
  }

  // ----- Each operation keeps the invariant -----

  lemma RefreshKeeps(s: QueueState, provider: bool, o: SaveOutcome)
    requires Good(s)
    ensures Good(RefreshPolicy(s, provider, o).s)
    ensures RefreshPolicy(s, provider, o).s.mem.inFlight == s.mem.inFlight
  {
    hide Good;
    if !s.mem.availabilityRequired && provider {
      var m := s.mem.(availabilityRequired := true);
      QuietKeeps(s, m);
      SaveKeeps(s.(mem := m), o);
    }
  }

  lemma ExpireKeeps(s: QueueState, now: nat, o: SaveOutcome)
    requires Good(s)
    ensures Good(Expire(s, now, o).s)
    ensures Expire(s, now, o).s.mem.inFlight == s.mem.inFlight
  {
    hide Good;
    var m := s.mem.(jobs := ExpireQueued(s.mem.jobs, now));
    QuietKeeps(s, m);
    SaveKeeps(s.(mem := m), o);
  }

  lemma AdmitKeeps(s: QueueState, e: PromoteInput)
    requires Good(s)
    ensures Good(Admit(s, e).s)
    ensures Admit(s, e).s.mem.inFlight == s.mem.inFlight
  {
    hide Good;
    var c := PickCandidate(s.mem, e.around);
    if Admitting(s.mem) && c.Candidate? {
      GrantKeeps(s, c, e.grantNow, e.grantSave);
    }
  }

  lemma PromoteKeeps(s: QueueState, e: PromoteInput)
    requires Good(s)
    ensures Good(Promote(s, e).s)
    ensures Promote(s, e).s.mem.inFlight == s.mem.inFlight
  {
    hide Good;
    if !s.inspecting {
      var refreshed := RefreshPolicy(s, e.providerPresent, e.policySave);
      RefreshKeeps(s, e.providerPresent, e.policySave);
      if refreshed.r.Ok? {
        var expired := Expire(refreshed.s, e.around.now, e.expirySave);
        ExpireKeeps(refreshed.s, e.around.now, e.expirySave);
        if expired.r.Ok? {
          AdmitKeeps(expired.s, e);
        }
      }
    }
  }

  lemma MaintenanceKeeps(s: QueueState, owner: string, enabled: Param<bool>, c: Call)
    requires Good(s)
    ensures Good(DoMaintenance(s, owner, enabled, c).s)
    ensures DoMaintenance(s, owner, enabled, c).s.mem.inFlight == s.mem.inFlight
  {
    hide Good;
    if enabled.Given? {
      var m := s.mem.(maintenanceOwner := if enabled.value then Some(owner) else None);
      QuietKeeps(s, m);
      SaveKeeps(s.(mem := m), c.save);
      var saved := Save(s.(mem := m), c.save).s;
      PromoteKeeps(saved, c.after);
      PromoteKeeps(Promote(saved, c.after).s, c.last);
    }
  }

  lemma DoSubmitKeeps(s: QueueState, a: Action, c: Call)
    requires Good(s) && a.Submit? && Fresh(s.log, a.newId, a.newToken)
    ensures Good(DoSubmit(s, a, c).s)
    ensures DoSubmit(s, a, c).s.mem.inFlight == s.mem.inFlight
  {
    hide Good;
    var job := NewJob(s.mem, a, c.around.now);
    if RequestIndex(s.mem.jobs, a.owner, a.requestKey).None? {
      SubmitKeeps(s, job);
      SaveKeeps(Added(s, job), c.save);
      PromoteKeeps(Save(Added(s, job), c.save).s, c.after);
    }
  }

  lemma DoClaimKeeps(s: QueueState, owner: string, token: string, consumer: string, c: Call)
    requires Good(s)
    ensures Good(DoClaim(s, owner, token, consumer, c).s)
    ensures DoClaim(s, owner, token, consumer, c).s.mem.inFlight == s.mem.inFlight
  {
    hide Good;
    var found := CredentialIndex(s.mem.jobs, owner, token);
    if found.Some? {
      var job := s.mem.jobs[found.value];
      if job.state.Active? && (job.claimedBy.None? || job.claimedBy == Some(consumer)) {
        ClaimKeeps(s, found.value, consumer, c.save);
      }
    }
  }

  lemma DoTouchKeeps(s: QueueState, a: Action, owner: string, token: string, c: Call)
    requires Good(s)
    ensures Good(DoTouch(s, a, owner, token, c).s)
    ensures DoTouch(s, a, owner, token, c).s.mem.inFlight == s.mem.inFlight
  {
    hide Good;
    var found := CredentialIndex(s.mem.jobs, owner, token);
    if found.Some? {
      var t := Touched(s.mem, a, s.mem.jobs[found.value], c.around.now);
      if t.Ok? {
        var m := s.mem.(jobs := s.mem.jobs[found.value := t.value]);
        QuietKeeps(s, m);
        SaveKeeps(s.(mem := m), c.save);
      }
    }
  }

  lemma DoRecoverKeeps(s: QueueState, confirmed: bool, c: Call)
    requires Good(s)
    ensures Good(DoRecover(s, confirmed, c).s)
    ensures DoRecover(s, confirmed, c).s.mem.inFlight == s.mem.inFlight
  {
    hide Good;
    if s.mem.blocked && !s.mem.inFlight {
      var live := LiveIndex(s.mem.jobs);
      if live.None? {
        var m := s.mem.(blocked := false);
        QuietKeeps(s, m);
        SaveKeeps(s.(mem := m), c.save);
        PromoteKeeps(Save(s.(mem := m), c.save).s, c.after);
      } else {
        var i := live.value;
        RetireKeeps(s, i, Interrupted, Recovery, false);
        var t := s.(mem := s.mem.(blocked := false, jobs := s.mem.jobs[i := s.mem.jobs[i].(state := Interrupted)]),
                    log := s.log + [Released(Recovery, s.mem.inFlight)]);
        SaveKeeps(t, c.save);
        PromoteKeeps(Save(t, c.save).s, c.after);
      }
    }
  }

  lemma ActKeeps(s: QueueState, a: Action, c: Call)
    requires Good(s) && (a.Submit? ==> Fresh(s.log, a.newId, a.newToken))
    ensures Good(Act(s, a, c).s)
    ensures Act(s, a, c).s.mem.inFlight == s.mem.inFlight
  {
    hide Good;
    match a
    case Maintenance(owner, enabled) => MaintenanceKeeps(s, owner, enabled, c);
    case Submit(_, _, _, _, _, _, _) => DoSubmitKeeps(s, a, c);
    case List(_) =>
    case Claim(owner, token, consumer) => DoClaimKeeps(s, owner, token, consumer, c);
    case Get(owner, token) => DoTouchKeeps(s, a, owner, token, c);
    case Renew(owner, token) => DoTouchKeeps(s, a, owner, token, c);
    case Finish(owner, token) => DoTouchKeeps(s, a, owner, token, c);
    case Cancel(owner, token) => DoTouchKeeps(s, a, owner, token, c);
    case Recover(confirmed) => DoRecoverKeeps(s, confirmed, c);
    case Unknown =>
  }

  lemma SaveKeepsFresh(s: QueueState, o: SaveOutcome, id: string, token: string)
    requires Fresh(s.log, id, token)
    ensures Fresh(Save(s, o).s.log, id, token)
  {
  }

  lemma AdmitKeepsFresh(s: QueueState, e: PromoteInput, id: string, token: string)
    requires Fresh(s.log, id, token)
    ensures Fresh(Admit(s, e).s.log, id, token)
  {
    var c := PickCandidate(s.mem, e.around);
    if c.Candidate? {
      SaveKeepsFresh(s.(mem := WithGrant(s.mem, c.index, e.grantNow)), e.grantSave, id, token);
    }
  }

  /** Promotion never uses up an identifier. */
  lemma PromoteKeepsFresh(s: QueueState, e: PromoteInput, id: string, token: string)
    requires Fresh(s.log, id, token)
    ensures Fresh(Promote(s, e).s.log, id, token)
  {
    hide Fresh;
    var refreshed := RefreshPolicy(s, e.providerPresent, e.policySave);
    SaveKeepsFresh(s.(mem := s.mem.(availabilityRequired := true)), e.policySave, id, token);
    var t := refreshed.s.(mem := refreshed.s.mem.(jobs := ExpireQueued(refreshed.s.mem.jobs, e.around.now)));
    SaveKeepsFresh(t, e.expirySave, id, token);
    AdmitKeepsFresh(Expire(refreshed.s, e.around.now, e.expirySave).s, e, id, token);
  }

  lemma CommandKeeps(s: QueueState, a: Action, c: Call)
    requires Good(s) && (a.Submit? ==> Fresh(s.log, a.newId, a.newToken))
    ensures Good(Command(s, a, c).s)
    ensures Command(s, a, c).s.mem.inFlight == s.mem.inFlight
  {
    hide Good;
    PromoteKeeps(s, c.before);
    var promoted := Promote(s, c.before);
    if a.Submit? {
      PromoteKeepsFresh(s, c.before, a.newId, a.newToken);
    }
    if promoted.r.Ok? {
      ActKeeps(promoted.s, a, c);
    }
  }

  lemma BeginKeeps(s: QueueState, b: BeginInput)
    requires Good(s)
    ensures Good(Begin(s, b).s)
    ensures Begin(s, b).r.Ok? ==> Begin(s, b).s.mem.inFlight
  {
    hide Good;
    if !s.mem.blocked && !s.mem.inFlight {
      RefreshKeeps(s, b.providerPresent, b.policySave);
      var t := RefreshPolicy(s, b.providerPresent, b.policySave).s;
      if Refusal(t.mem, b).None? {
        NotBusy(t);
        var m := t.mem.(inFlight := true);
        QuietKeeps(t, m);
        SaveKeeps(t.(mem := m), b.save);
        if b.save.Saved? {
          DispatchRecorded(Save(t.(mem := m), b.save).s, t.mem, b.credentials);
        }
      }
    }
  }

  lemma NotBusy(s: QueueState)
    requires Good(s) && !s.mem.inFlight
    ensures !Busy(s.log)
  {
  }

  lemma DispatchRecorded(s: QueueState, before: Durable, presented: Option<Credentials>)
    requires Good(s) && s.OnDisk() == s.mem == before.(inFlight := true) && !before.blocked && !Busy(s.log)
    requires var live := LiveIndex(before.jobs); live.Some? ==> presented == Some(CredentialsOf(before.jobs[live.value]))
    ensures Good(s.(log := s.log + [Dispatched(LiveIndex(before.jobs), before.epoch, presented)]))
  {
    var live := LiveIndex(before.jobs);
    var e := Dispatched(live, before.epoch, presented);
    if live.Some? {
      var k := GrantIn(s.log, live.value, before.epoch);
      assert s.log[k] in s.log;
    }
    Appended(s.log, e);
    AgreesAppended(s.mem, s.log, e);
  }

  /** The grant of the running process that a live job has. */
  lemma {:induction false} GrantIn(log: seq<Event>, index: nat, epoch: nat) returns (k: nat)
    requires GrantedSinceOpen(log, index, epoch)
    ensures k < |log| && log[k].Granted? && log[k].index == index && log[k].epoch == epoch
    decreases |log|
  {
    var last := |log| - 1;
    if log[last].Granted? && log[last].index == index && log[last].epoch == epoch {
      k := last;
    } else {
      k := GrantIn(log[..last], index, epoch);
    }
  }

  lemma EndKeeps(s: QueueState, uncertain: bool, o: SaveOutcome)
    requires Good(s)
    ensures Good(End(s, uncertain, o).s)
  {
    hide WellFormed, Agrees, GoodLog;
    var e := Ended(uncertain);
    var m := s.mem.(inFlight := false, blocked := s.mem.blocked || uncertain);
    EndRecorded(s, e);
    QuietKeeps(s.(log := s.log + [e]), m);
    SaveKeeps(s.(mem := m, log := s.log + [e]), o);
  }

  lemma EndRecorded(s: QueueState, e: Event)
    requires Good(s) && e.Ended?
    ensures Good(s.(log := s.log + [e])) && !Busy(s.log + [e])
  {
    hide WellFormed, Agrees, GoodLog;
    Appended(s.log, e);
    AgreesAppended(s.mem, s.log, e);
    AgreesAppended(s.OnDisk(), s.log, e);
  }

  lemma NeedsCleanupKeeps(s: QueueState, now: nat)
    requires Good(s)
    ensures Good(NeedsCleanup(s, now).0)
    ensures NeedsCleanup(s, now).0.mem.inFlight == s.mem.inFlight
    ensures NeedsCleanup(s, now).1 ==> !s.mem.inFlight
  {
    hide Good;
    QuietKeeps(s, NeedsCleanup(s, now).0.mem);
  }

  lemma CleanupDoneKeeps(s: QueueState, success: bool, now: nat, o: SaveOutcome, e: PromoteInput)
    requires Good(s) && !s.mem.inFlight
    ensures Good(CleanupDone(s, success, now, o, e).s)
  {
    hide Good;
    var live := LiveIndex(s.mem.jobs);
    var t := s;
    if !success {
      t := s.(mem := s.mem.(blocked := true));
      QuietKeeps(s, t.mem);
    } else if live.Some? {
      var i := live.value;
      var job := s.mem.jobs[i];
      RetireKeeps(s, i, RetiredState(s.mem, job, now), Cleanup, s.mem.blocked);
      t := s.(mem := s.mem.(jobs := s.mem.jobs[i := job.(state := RetiredState(s.mem, job, now))]),
              log := s.log + [Released(Cleanup, s.mem.inFlight)]);
    }
    SaveKeeps(t, o);
    PromoteKeeps(Save(t, o).s, e);
  }

  // ----- Restarting -----

  lemma InterruptedWellFormed(d: Durable)
    requires WellFormed(d)
    ensures WellFormed(d.(jobs := InterruptLive(d.jobs)))
  {
  }

  lemma InterruptedAgrees(d: Durable, log: seq<Event>)
    requires Agrees(d, log) && !Holding(log)
    ensures Agrees(d.(jobs := InterruptLive(d.jobs)), log)
  {
    var jobs := InterruptLive(d.jobs);
    assert forall i :: 0 <= i < |jobs| ==> SubmissionOf(jobs[i]) == SubmissionOf(d.jobs[i]);
  }

  lemma ReopenedGood(d: Durable, bootId: Option<string>, file: Option<Durable>, log: seq<Event>)
    requires GoodDisk(QueueState(d, false, file, log)) && d == QueueState(d, false, file, log).OnDisk()
    requires WellFormed(Reopened(d, bootId)) && Agrees(Reopened(d, bootId), log)
    requires !Busy(log)
    ensures Good(QueueState(Reopened(d, bootId), false, file, log))
  {
    hide WellFormed, Agrees, GoodLog;
    var m := Reopened(d, bootId);
    assert !m.blocked ==> !HasLive(m.jobs);
  }

  /** The history a start records before it saves. */
  lemma StartRecorded(d: Durable, bootId: Option<string>, log: seq<Event>)
    requires WellFormed(d) && Agrees(d, log) && GoodLog(log)
    ensures
      var restarted := VerifiedRestart(d.bootId, bootId);
      var log' := log + [Opened(restarted, LiveSet(d.jobs))] + (if restarted && HasLive(d.jobs) then [Released(OsRestart, false)] else []);
      && Agrees(d, log') && GoodLog(log') && !Busy(log') && Unsettled(log') == Unsettled(log)
      && (restarted ==> !Holding(log'))
  {
    hide WellFormed, Agrees, GoodLog;
    var restarted := VerifiedRestart(d.bootId, bootId);
    var noted := log + [Opened(restarted, LiveSet(d.jobs))];
    Appended(log, Opened(restarted, LiveSet(d.jobs)));
    AgreesAppended(d, log, Opened(restarted, LiveSet(d.jobs)));
    if restarted && HasLive(d.jobs) {
      Appended(noted, Released(OsRestart, false));
      AgreesAppended(d, noted, Released(OsRestart, false));
    } else {
      assert noted + [] == noted;
      HeldIsLive(d, noted);
    }
  }

  lemma HeldIsLive(d: Durable, log: seq<Event>)
    requires Agrees(d, log)
    ensures Holding(log) ==> HasLive(d.jobs)
  {
  }

  lemma ReopenedFits(d: Durable, bootId: Option<string>, log: seq<Event>)
    requires WellFormed(d) && Agrees(d, log)
    requires VerifiedRestart(d.bootId, bootId) ==> !Holding(log)
    ensures WellFormed(Reopened(d, bootId)) && Agrees(Reopened(d, bootId), log)
  {
    hide WellFormed, Agrees;
    var retired := d.(jobs := InterruptLive(d.jobs));
    InterruptedWellFormed(d);
    if VerifiedRestart(d.bootId, bootId) {
      InterruptedAgrees(d, log);
    }
    SameJobs(d, Reopened(d, bootId).(jobs := d.jobs), log);
    SameJobs(retired, Reopened(d, bootId).(jobs := retired.jobs), log);
  }

  lemma OpenKeeps(s: QueueState, bootId: Option<string>, o: SaveOutcome)
    requires GoodDisk(s)
    ensures GoodDisk(Open(s, bootId, o).s)
    ensures Open(s, bootId, o).r.Ok? ==> Good(Open(s, bootId, o).s)
  {
    hide WellFormed, Agrees, GoodLog;
    var d := s.OnDisk();
    var restarted := VerifiedRestart(d.bootId, bootId);
    var log := s.log + [Opened(restarted, LiveSet(d.jobs))] + (if restarted && HasLive(d.jobs) then [Released(OsRestart, false)] else []);
    StartRecorded(d, bootId, s.log);
    ReopenedFits(d, bootId, log);
    ReopenedGood(d, bootId, s.file, log);
    SaveKeeps(QueueState(Reopened(d, bootId), false, s.file, log), o);
  }

  // ----- Whole runs -----

  lemma InspectingKeeps(s: QueueState, inspecting: bool)
    requires Good(s)
    ensures Good(s.(inspecting := inspecting)) && GoodDisk(s)
  {
    hide WellFormed, Agrees, GoodLog;
  }

  lemma StepKeeps(w: World, step: Step)
    requires Safe(w) && Enabled(w, step)
    ensures Safe(Take(w, step))
  {
    hide Good, GoodDisk;
    OperationKeeps(w, step);
    if !step.Crash? && !step.Start? && !step.StartUnreadable? {
      InspectingKeeps(Take(w, step).s, true);
    }
    if w.up {
      InspectingKeeps(w.s, true);
    }
  }

  lemma OperationKeeps(w: World, step: Step)
    requires Safe(w) && Enabled(w, step)
    ensures step.Crash? || step.StartUnreadable? ==> Take(w, step).s == w.s
    ensures step.Start? ==> Safe(Take(w, step))
    ensures !step.Crash? && !step.Start? && !step.StartUnreadable? ==> Good(Take(w, step).s)
    ensures Take(w, step).gate.Dispatching? ==> Take(w, step).s.mem.inFlight
    ensures Take(w, step).gate.Cleaning? ==> !Take(w, step).s.mem.inFlight
  {
    hide Good, GoodDisk;
    if Good(w.s) {
      InspectingKeeps(w.s, true);
      InspectingKeeps(w.s, false);
    }
    match step
    case Crash =>
    case Start(bootId, save) => OpenKeeps(w.s, bootId, save);
    case StartUnreadable =>
    case Wake(e) => PromoteKeeps(w.s, e);
    case Request(a, c) => CommandKeeps(w.s, a, c);
    case InspectionStart(_) =>
    case InspectionStop =>
    case DispatchStart(b) => BeginKeeps(w.s, b);
    case DispatchEnd(uncertain, save) => EndKeeps(w.s, uncertain, save);
    case CleanupStart(now) => NeedsCleanupKeeps(w.s, now);
    case CleanupEnd(success, now, save, e) => CleanupDoneKeeps(w.s, success, now, save, e);
  }

  lemma {:induction false} RunKeeps(w: World, steps: seq<Step>)
    requires Safe(w) && ValidRun(w, steps)
    ensures Safe(Run(w, steps))
    decreases |steps|
  {
    if steps != [] {
      StepKeeps(w, steps[0]);
      RunKeeps(Take(w, steps[0]), steps[1..]);
    }
  }

  lemma StartIsSafe()
    ensures Safe(START)
  {
  }
}
