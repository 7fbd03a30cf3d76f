/**
 Two states of the desktop queue that last: a quarantine, until an operator
 confirms a reset or the operating system verifiably restarts, and the safe point
 of a maintenance owner, until that owner releases it.
 */
module DesktopStanding {
  import opened Base
  import opened DesktopModel
  import opened DesktopInvariant
  import opened DesktopSystem

  /** Nothing is granted or dispatched between two points of the history. */
  ghost predicate Calm(a: seq<Event>, b: seq<Event>) {
    a <= b && forall k :: |a| <= k < |b| ==> !b[k].Granted? && !b[k].Dispatched?
  }

  lemma CalmTransitive(a: seq<Event>, b: seq<Event>, c: seq<Event>)
    requires Calm(a, b) && Calm(b, c)
    ensures Calm(a, c)
  {
  }

  /** Waiting jobs keep their order and credentials and change only by being
      cancelled or expiring; the others do not change state. */
  ghost predicate OnlyGivenUp(before: seq<Job>, after: seq<Job>) {
    && |before| <= |after|
    && forall i :: 0 <= i < |before| ==>
         && SameIdentity(before[i], after[i])
         && (after[i].state == before[i].state
             || (before[i].state.Queued? && (after[i].state.Cancelled? || after[i].state.Expired?)))
  }

  datatype Standing = Quarantine | Maintained(owner: string, jobs: seq<Job>)

  ghost predicate Stands(q: Standing, d: Durable) {
    match q
    case Quarantine => d.blocked
    case Maintained(owner, jobs) =>
      && d.maintenanceOwner == Some(owner) && !d.blocked && !d.inFlight && !HasLive(d.jobs)
      && OnlyGivenUp(jobs, d.jobs)
  }

  /** In memory and on disk. */
  ghost predicate Both(q: Standing, s: QueueState) {
    Stands(q, s.mem) && Stands(q, s.OnDisk())
  }

  /** On disk, and in memory while the process runs; a safe point also needs that
      no dispatch and no cleanup is running. */
  ghost predicate StandsIn(q: Standing, w: World) {
    && Stands(q, w.s.OnDisk())
    && (w.up ==> Stands(q, w.s.mem) && (q.Maintained? ==> w.gate.Idle?))
  }

  /** The steps that may end it. */
  ghost predicate Ends(q: Standing, w: World, step: Step) {
    match q
    case Quarantine =>
      || (step.Request? && step.a == Recover(true))
      || (step.Start? && VerifiedRestart(w.s.OnDisk().bootId, step.bootId))
    case Maintained(owner, _) => step.Request? && step.a == Maintenance(owner, Given(false))
  }

  // ----- Building blocks -----

  /** `t` is a later state of `s` in which nothing was admitted. */
  ghost predicate Held(q: Standing, s: QueueState, t: QueueState) {
    Both(q, t) && Calm(s.log, t.log)
  }

  lemma SaveHolds(q: Standing, s: QueueState, o: SaveOutcome)
    requires Both(q, s)
    ensures Held(q, s, Save(s, o).s)
  {
  }

  /** A changed queue in memory, then a write. */
  lemma ChangeHolds(q: Standing, s: QueueState, m: Durable, o: SaveOutcome)
    requires Both(q, s) && Stands(q, m)
    ensures Held(q, s, Save(s.(mem := m), o).s)
  {
    SaveHolds(q, s.(mem := m), o);
  }

  lemma HeldTransitive(q: Standing, r: QueueState, s: QueueState, t: QueueState)
    requires Held(q, r, s) && Held(q, s, t)
    ensures Held(q, r, t)
  {
    CalmTransitive(r.log, s.log, t.log);
  }

  lemma SameJobsStand(q: Standing, m: Durable, m': Durable)
    requires Stands(q, m) && m'.jobs == m.jobs && m'.blocked == m.blocked
    requires m'.maintenanceOwner == m.maintenanceOwner && m'.inFlight == m.inFlight
    ensures Stands(q, m')
  {
  }

  lemma ExpiryStands(q: Standing, m: Durable, now: nat)
    requires Stands(q, m)
    ensures Stands(q, m.(jobs := ExpireQueued(m.jobs, now)))
  {
  }

  lemma NothingAdmitted(q: Standing, m: Durable)
    requires Stands(q, m)
    ensures !Admitting(m)
  {
  }

  lemma PromoteHolds(q: Standing, s: QueueState, e: PromoteInput)
    requires Both(q, s)
    ensures Held(q, s, Promote(s, e).s)
  {
    hide Stands;
    if !s.inspecting {
      var policy := s.mem.(availabilityRequired := true);
      SameJobsStand(q, s.mem, policy);
      ChangeHolds(q, s, policy, e.policySave);
      var r := RefreshPolicy(s, e.providerPresent, e.policySave).s;
      ExpiryStands(q, r.mem, e.around.now);
      ChangeHolds(q, r, r.mem.(jobs := ExpireQueued(r.mem.jobs, e.around.now)), e.expirySave);
      var x := Expire(r, e.around.now, e.expirySave).s;
      HeldTransitive(q, s, r, x);
      NothingAdmitted(q, x.mem);
    }
  }

  // ----- Commands -----

  lemma MaintenanceHolds(q: Standing, s: QueueState, owner: string, enabled: Param<bool>, c: Call)
    requires Both(q, s)
    requires q.Maintained? && q.owner == owner ==> enabled != Given(false)
    ensures Held(q, s, DoMaintenance(s, owner, enabled, c).s)
  {
    if enabled.Given? && (s.mem.maintenanceOwner.None? || s.mem.maintenanceOwner == Some(owner)) {
      var m := s.mem.(maintenanceOwner := if enabled.value then Some(owner) else None);
      assert Stands(q, m);
      hide Stands;
      ChangeHolds(q, s, m, c.save);
      var saved := Save(s.(mem := m), c.save).s;
      PromoteHolds(q, saved, c.after);
      var promoted := Promote(saved, c.after).s;
      HeldTransitive(q, s, saved, promoted);
      PromoteHolds(q, promoted, c.last);
      HeldTransitive(q, s, promoted, Promote(promoted, c.last).s);
    }
  }

  lemma AddedStands(q: Standing, m: Durable, job: Job)
    requires Stands(q, m) && job.state.Queued?
    ensures Stands(q, m.(jobs := m.jobs + [job]))
  {
  }

  lemma SubmitHolds(q: Standing, s: QueueState, a: Action, c: Call)
    requires Both(q, s) && a.Submit?
    ensures Held(q, s, DoSubmit(s, a, c).s)
  {
    hide Stands;
    var job := NewJob(s.mem, a, c.around.now);
    AddedStands(q, s.mem, job);
    var added := Added(s, job);
    SaveHolds(q, added, c.save);
    var saved := Save(added, c.save).s;
    CalmTransitive(s.log, added.log, saved.log);
    PromoteHolds(q, saved, c.after);
    HeldTransitive(q, s, saved, Promote(saved, c.after).s);
  }

  lemma ClaimHolds(q: Standing, s: QueueState, owner: string, token: string, consumer: string, c: Call)
    requires Both(q, s)
    ensures Held(q, s, DoClaim(s, owner, token, consumer, c).s)
  {
    var found := CredentialIndex(s.mem.jobs, owner, token);
    if found.Some? && q.Maintained? {
      assert !s.mem.jobs[found.value].state.Live();
    }
  }

  lemma TouchStands(q: Standing, m: Durable, i: nat, a: Action, now: nat)
    requires Stands(q, m) && i < |m.jobs| && Touched(m, a, m.jobs[i], now).Ok?
    ensures Stands(q, m.(jobs := m.jobs[i := Touched(m, a, m.jobs[i], now).value]))
  {
    if q.Maintained? {
      assert !m.jobs[i].state.Live();
    }
  }

  lemma TouchHolds(q: Standing, s: QueueState, a: Action, owner: string, token: string, c: Call)
    requires Both(q, s)
    ensures Held(q, s, DoTouch(s, a, owner, token, c).s)
  {
    hide Stands;
    var found := CredentialIndex(s.mem.jobs, owner, token);
    if found.Some? && Touched(s.mem, a, s.mem.jobs[found.value], c.around.now).Ok? {
      TouchStands(q, s.mem, found.value, a, c.around.now);
      var job := Touched(s.mem, a, s.mem.jobs[found.value], c.around.now).value;
      ChangeHolds(q, s, s.mem.(jobs := s.mem.jobs[found.value := job]), c.save);
    }
  }

  lemma ActHolds(q: Standing, s: QueueState, a: Action, c: Call)
    requires Both(q, s)
    requires if q.Quarantine? then a != Recover(true) else a != Maintenance(q.owner, Given(false))
    ensures Held(q, s, Act(s, a, c).s)
  {
    match a
    case Maintenance(owner, enabled) => MaintenanceHolds(q, s, owner, enabled, c);
    case Submit(_, _, _, _, _, _, _) => SubmitHolds(q, s, a, c);
    case List(_) =>
    case Claim(owner, token, consumer) => ClaimHolds(q, s, owner, token, consumer, c);
    case Get(owner, token) => TouchHolds(q, s, a, owner, token, c);
    case Renew(owner, token) => TouchHolds(q, s, a, owner, token, c);
    case Finish(owner, token) => TouchHolds(q, s, a, owner, token, c);
    case Cancel(owner, token) => TouchHolds(q, s, a, owner, token, c);
    case Recover(_) =>
    case Unknown =>
  }

  lemma CommandHolds(q: Standing, s: QueueState, a: Action, c: Call)
    requires Both(q, s)
    requires if q.Quarantine? then a != Recover(true) else a != Maintenance(q.owner, Given(false))
    ensures Held(q, s, Command(s, a, c).s)
  {
    hide Stands;
    PromoteHolds(q, s, c.before);
    var promoted := Promote(s, c.before).s;
    ActHolds(q, promoted, a, c);
    HeldTransitive(q, s, promoted, Act(promoted, a, c).s);
  }

  // ----- Dispatch, cleanup, restart -----

  lemma BeginHolds(q: Standing, s: QueueState, b: BeginInput)
    requires Both(q, s)
    ensures Held(q, s, Begin(s, b).s)
    ensures Begin(s, b).r.Err?
  {
    if q.Maintained? {
      var policy := s.mem.(availabilityRequired := true);
      ChangeHolds(q, s, policy, b.policySave);
      var t := RefreshPolicy(s, b.providerPresent, b.policySave).s;
      assert t.mem.jobs == s.mem.jobs && LiveIndex(s.mem.jobs).None?;
    }
  }

  lemma EndHolds(s: QueueState, uncertain: bool, o: SaveOutcome)
    requires Both(Quarantine, s)
    ensures Held(Quarantine, s, End(s, uncertain, o).s)
  {
    var t := s.(log := s.log + [Ended(uncertain)]);
    var m := s.mem.(inFlight := false, blocked := s.mem.blocked || uncertain);
    ChangeHolds(Quarantine, t, m, o);
    CalmTransitive(s.log, t.log, Save(t.(mem := m), o).s.log);
  }

  lemma NeedsCleanupHolds(q: Standing, s: QueueState, now: nat)
    requires Both(q, s)
    ensures Held(q, s, NeedsCleanup(s, now).0)
    ensures q.Maintained? ==> !NeedsCleanup(s, now).1
  {
  }

  lemma CleanupDoneHolds(s: QueueState, success: bool, now: nat, o: SaveOutcome, e: PromoteInput)
    requires Both(Quarantine, s)
    ensures Held(Quarantine, s, CleanupDone(s, success, now, o, e).s)
  {
    var live := LiveIndex(s.mem.jobs);
    if !success {
      SavedAndPromoted(Quarantine, s, s.(mem := s.mem.(blocked := true)), o, e);
    } else if live.Some? {
      var job := s.mem.jobs[live.value];
      var m := s.mem.(jobs := s.mem.jobs[live.value := job.(state := RetiredState(s.mem, job, now))]);
      SavedAndPromoted(Quarantine, s, s.(mem := m, log := s.log + [Released(Cleanup, s.mem.inFlight)]), o, e);
    } else {
      SavedAndPromoted(Quarantine, s, s, o, e);
    }
  }

  lemma SavedAndPromoted(q: Standing, s: QueueState, t: QueueState, o: SaveOutcome, e: PromoteInput)
    requires Held(q, s, t)
    ensures Held(q, s, Save(t, o).s) && Held(q, s, Promote(Save(t, o).s, e).s)
  {
    hide Stands;
    var saved := Save(t, o).s;
    SaveHolds(q, t, o);
    HeldTransitive(q, s, t, saved);
    PromoteHolds(q, saved, e);
    HeldTransitive(q, s, saved, Promote(saved, e).s);
  }

  lemma OpenHolds(q: Standing, s: QueueState, bootId: Option<string>, o: SaveOutcome)
    requires Stands(q, s.OnDisk())
    requires q.Quarantine? ==> !VerifiedRestart(s.OnDisk().bootId, bootId)
    ensures Held(q, s, Open(s, bootId, o).s)
  {
    var d := s.OnDisk();
    var restarted := VerifiedRestart(d.bootId, bootId);
    var log := s.log + [Opened(restarted, LiveSet(d.jobs))] + (if restarted && HasLive(d.jobs) then [Released(OsRestart, false)] else []);
    var t := QueueState(Reopened(d, bootId), false, s.file, log);
    assert Held(q, s, t);
    SaveHolds(q, t, o);
    CalmTransitive(s.log, t.log, Save(t, o).s.log);
  }

  // ----- Whole runs -----

  lemma StepHolds(q: Standing, w: World, step: Step)
    requires StandsIn(q, w) && Enabled(w, step) && !Ends(q, w, step)
    ensures StandsIn(q, Take(w, step)) && Calm(w.s.log, Take(w, step).s.log)
  {
    hide Stands, Calm;
    match step
    case Crash => CalmSelf(w.s.log);
    case Start(bootId, save) => OpenHolds(q, w.s, bootId, save);
    case StartUnreadable => CalmSelf(w.s.log);
    case Wake(e) => PromoteHolds(q, w.s, e);
    case Request(a, c) => CommandHolds(q, w.s, a, c);
    case InspectionStart(_) => CalmSelf(w.s.log);
    case InspectionStop => CalmSelf(w.s.log);
    case DispatchStart(b) => BeginHolds(q, w.s, b);
    case DispatchEnd(uncertain, save) => EndHolds(w.s, uncertain, save);
    case CleanupStart(now) => NeedsCleanupHolds(q, w.s, now);
    case CleanupEnd(success, now, save, e) => CleanupDoneHolds(w.s, success, now, save, e);
  }

  lemma CalmSelf(log: seq<Event>)
    ensures Calm(log, log)
  {
  }

  ghost predicate Undisturbed(q: Standing, w: World, steps: seq<Step>)
    decreases |steps|
  {
    steps == [] || (!Ends(q, w, steps[0]) && Undisturbed(q, Take(w, steps[0]), steps[1..]))
  }

  /** However long the run and whatever its writes, crashes and restarts, the
      quarantine or the safe point stands and nothing is granted or dispatched. */
  lemma {:induction false} StandsThroughout(q: Standing, w: World, steps: seq<Step>)
    requires StandsIn(q, w) && ValidRun(w, steps) && Undisturbed(q, w, steps)
    ensures StandsIn(q, Run(w, steps)) && Calm(w.s.log, Run(w, steps).s.log)
    decreases |steps|
  {
    if steps != [] {
      var next := Take(w, steps[0]);
      StepHolds(q, w, steps[0]);
      StandsThroughout(q, next, steps[1..]);
      CalmTransitive(w.s.log, next.s.log, Run(w, steps).s.log);
    }
  }

  /** A safe point survives every step but its release exactly when no cleanup is
      running: the end of a failed cleanup puts the queue in quarantine. */
  lemma SafePointLastsIffNoCleanup(w: World, owner: string, e: PromoteInput)
    requires w.up && !w.gate.Dispatching?
    requires Both(Maintained(owner, w.s.OnDisk().jobs), w.s)
    ensures
      var q := Maintained(owner, w.s.OnDisk().jobs);
      w.gate.Idle? <==>
        forall step :: Enabled(w, step) && !Ends(q, w, step) ==> Stands(q, Take(w, step).s.OnDisk())
  {
    var q := Maintained(owner, w.s.OnDisk().jobs);
    if w.gate.Idle? {
      forall step | Enabled(w, step) && !Ends(q, w, step) ensures Stands(q, Take(w, step).s.OnDisk()) {
        StepHolds(q, w, step);
      }
    } else {
      var step := CleanupEnd(false, 0, Saved, e);
      var t := Save(w.s.(mem := w.s.mem.(blocked := true)), Saved).s;
      PromoteHolds(Quarantine, t, e);
      assert Take(w, step).s.OnDisk().blocked;
      assert Enabled(w, step) && !Ends(q, w, step);
    }
  }

  // ----- Taking a safe point -----

  lemma SavedPromote(s: QueueState, e: PromoteInput)
    requires s.OnDisk() == s.mem && Promote(s, e).r.Ok?
    ensures Promote(s, e).s.OnDisk() == Promote(s, e).s.mem
  {
    var r := RefreshPolicy(s, e.providerPresent, e.policySave).s;
    if !s.inspecting {
      SavedExpireAndAdmit(r, e);
    }
  }

  lemma SavedExpireAndAdmit(s: QueueState, e: PromoteInput)
    requires s.OnDisk() == s.mem
    ensures var x := Expire(s, e.around.now, e.expirySave);
            x.r.Ok? ==> x.s.OnDisk() == x.s.mem && (Admit(x.s, e).r.Ok? ==> Admit(x.s, e).s.OnDisk() == Admit(x.s, e).s.mem)
  {
  }

  /** When taking maintenance is answered with a safe point, it is already durable. */
  lemma SafePointReplyIsDurable(s: QueueState, owner: string, c: Call)
    requires var r := DoMaintenance(s, owner, Given(true), c); r.r.Ok? && r.r.value.ListReply? && r.r.value.safePoint
    ensures var t := DoMaintenance(s, owner, Given(true), c).s; t.OnDisk() == t.mem && Both(Maintained(owner, t.mem.jobs), t)
  {
    var m := s.mem.(maintenanceOwner := Some(owner));
    var saved := Save(s.(mem := m), c.save).s;
    SavedPromote(saved, c.after);
    SavedPromote(Promote(saved, c.after).s, c.last);
    OwnerStays(saved, c.after);
    OwnerStays(Promote(saved, c.after).s, c.last);
  }

  lemma OwnerStays(s: QueueState, e: PromoteInput)
    ensures Promote(s, e).s.mem.maintenanceOwner == s.mem.maintenanceOwner
  {
    hide PickCandidate;
    if !s.inspecting {
      var r := RefreshPolicy(s, e.providerPresent, e.policySave).s;
      assert r.mem.maintenanceOwner == s.mem.maintenanceOwner;
      var x := Expire(r, e.around.now, e.expirySave).s;
      assert x.mem.maintenanceOwner == s.mem.maintenanceOwner;
    }
  }

  // ----- A dispatch whose start could not be saved -----

  /** Nothing but its own write can still refuse the dispatch. */
  predicate ReachesItsSave(s: QueueState, b: BeginInput) {
    var refreshed := RefreshPolicy(s, b.providerPresent, b.policySave);
    !s.mem.blocked && refreshed.r.Ok? && Refusal(refreshed.s.mem, b).None?
  }

  /** From a queue with nothing in flight, a dispatch is refused and leaves the mark set
      exactly when it got as far as its write and that did not succeed. */
  lemma FailedBeginLeavesMark(s: QueueState, b: BeginInput)
    requires !s.mem.inFlight
    ensures Begin(s, b).r.Err? && Begin(s, b).s.mem.inFlight <==> ReachesItsSave(s, b) && !b.save.Saved?
    ensures ReachesItsSave(s, b) ==> Begin(s, b).s.mem.inFlight && (Begin(s, b).r.Err? <==> !b.save.Saved?)
    ensures Begin(s, b).r.Err? ==> Calm(s.log, Begin(s, b).s.log)
  {
  }

  /** The mark is set in memory and no dispatch is running that would clear it. */
  predicate Stuck(w: World) { w.up ==> w.gate.Idle? && w.s.mem.inFlight }

  /** `t` is a later state of `s` with the mark still set, in which nothing was admitted. */
  ghost predicate StillMarked(s: QueueState, t: QueueState) {
    t.mem.inFlight && Calm(s.log, t.log)
  }

  lemma StillMarkedTransitive(r: QueueState, s: QueueState, t: QueueState)
    requires StillMarked(r, s) && StillMarked(s, t)
    ensures StillMarked(r, t)
  {
    CalmTransitive(r.log, s.log, t.log);
  }

  lemma SaveStillMarked(s: QueueState, m: Durable, o: SaveOutcome)
    requires m.inFlight
    ensures StillMarked(s, Save(s.(mem := m), o).s)
  {
  }

  lemma PromoteStillMarked(s: QueueState, e: PromoteInput)
    requires s.mem.inFlight
    ensures StillMarked(s, Promote(s, e).s)
  {
    CalmSelf(s.log);
    if !s.inspecting {
      SaveStillMarked(s, s.mem.(availabilityRequired := true), e.policySave);
      var r := RefreshPolicy(s, e.providerPresent, e.policySave).s;
      SaveStillMarked(r, r.mem.(jobs := ExpireQueued(r.mem.jobs, e.around.now)), e.expirySave);
      CalmSelf(r.log);
      var x := Expire(r, e.around.now, e.expirySave).s;
      StillMarkedTransitive(s, r, x);
      assert !Admitting(x.mem);
    }
  }

  lemma SavedPromoteStillMarked(s: QueueState, t: QueueState, e: PromoteInput)
    requires StillMarked(s, t)
    ensures StillMarked(s, Promote(t, e).s)
  {
    hide Promote;
    PromoteStillMarked(t, e);
    StillMarkedTransitive(s, t, Promote(t, e).s);
  }

  lemma MaintenanceStillMarked(s: QueueState, owner: string, enabled: Param<bool>, c: Call)
    requires s.mem.inFlight
    ensures StillMarked(s, DoMaintenance(s, owner, enabled, c).s)
  {
    hide Promote;
    CalmSelf(s.log);
    if enabled.Given? {
      var m := s.mem.(maintenanceOwner := if enabled.value then Some(owner) else None);
      SaveStillMarked(s, m, c.save);
      var saved := Save(s.(mem := m), c.save).s;
      SavedPromoteStillMarked(s, saved, c.after);
      SavedPromoteStillMarked(s, Promote(saved, c.after).s, c.last);
    }
  }

  lemma SubmitStillMarked(s: QueueState, a: Action, c: Call)
    requires s.mem.inFlight && a.Submit?
    ensures StillMarked(s, DoSubmit(s, a, c).s)
  {
    hide Promote;
    CalmSelf(s.log);
    var added := Added(s, NewJob(s.mem, a, c.around.now));
    SaveStillMarked(added, added.mem, c.save);
    var saved := Save(added, c.save).s;
    CalmTransitive(s.log, added.log, saved.log);
    SavedPromoteStillMarked(s, saved, c.after);
  }

  lemma ClaimStillMarked(s: QueueState, owner: string, token: string, consumer: string, c: Call)
    requires s.mem.inFlight
    ensures StillMarked(s, DoClaim(s, owner, token, consumer, c).s)
  {
  }

  lemma TouchStillMarked(s: QueueState, a: Action, owner: string, token: string, c: Call)
    requires s.mem.inFlight
    ensures StillMarked(s, DoTouch(s, a, owner, token, c).s)
  {
  }

  lemma ActStillMarked(s: QueueState, a: Action, c: Call)
    requires s.mem.inFlight
    ensures StillMarked(s, Act(s, a, c).s)
  {
    hide Promote, DoMaintenance, DoSubmit, DoClaim, DoTouch;
    CalmSelf(s.log);
    match a
    case Maintenance(owner, enabled) => MaintenanceStillMarked(s, owner, enabled, c);
    case Submit(_, _, _, _, _, _, _) => SubmitStillMarked(s, a, c);
    case List(_) =>
    case Claim(owner, token, consumer) => ClaimStillMarked(s, owner, token, consumer, c);
    case Get(owner, token) => TouchStillMarked(s, a, owner, token, c);
    case Renew(owner, token) => TouchStillMarked(s, a, owner, token, c);
    case Finish(owner, token) => TouchStillMarked(s, a, owner, token, c);
    case Cancel(owner, token) => TouchStillMarked(s, a, owner, token, c);
    case Recover(_) =>
    case Unknown =>
  }

  lemma CommandStillMarked(s: QueueState, a: Action, c: Call)
    requires s.mem.inFlight
    ensures StillMarked(s, Command(s, a, c).s)
  {
    hide Promote, Act;
    CalmSelf(s.log);
    PromoteStillMarked(s, c.before);
    var promoted := Promote(s, c.before).s;
    ActStillMarked(promoted, a, c);
    StillMarkedTransitive(s, promoted, Act(promoted, a, c).s);
  }

  lemma StuckStep(w: World, step: Step)
    requires Stuck(w) && Enabled(w, step) && !step.Start?
    ensures Stuck(Take(w, step)) && Calm(w.s.log, Take(w, step).s.log)
  {
    hide Promote, Command, Calm;
    CalmSelf(w.s.log);
    match step
    case Wake(e) => PromoteStillMarked(w.s, e);
    case Request(a, c) => CommandStillMarked(w.s, a, c);
    case _ =>
  }

  /** Until the process is started again the mark stays, whatever is asked for and
      whatever the writes do: nothing is granted, and every dispatch is refused. */
  lemma {:induction false} StuckUntilRestart(w: World, steps: seq<Step>, b: BeginInput)
    requires Stuck(w) && ValidRun(w, steps) && forall step :: step in steps ==> !step.Start?
    ensures var t := Run(w, steps); Stuck(t) && Calm(w.s.log, t.s.log) && (t.up ==> Begin(t.s, b).r.Err?)
    decreases |steps|
  {
    hide Calm, Take;
    if steps == [] {
      CalmSelf(w.s.log);
    } else {
      StuckStep(w, steps[0]);
      StuckUntilRestart(Take(w, steps[0]), steps[1..], b);
      CalmTransitive(w.s.log, Take(w, steps[0]).s.log, Run(w, steps).s.log);
    }
  }

  /** A started process never has the mark set. */
  lemma RestartClearsMark(s: QueueState, bootId: Option<string>, o: SaveOutcome)
    ensures !Open(s, bootId, o).s.mem.inFlight
  {
  }
}
