/**
 How long a grant lasts: over every run of one process, a granted job keeps its state, its
 expiry and its deadline until a step that ends it, so it is usable exactly until its time
 to live or its deadline is over. And a desktop that once required availability always does.
 */
module DesktopGrants {
  import opened Base
  import opened DesktopModel
  import opened DesktopSystem
  import opened DesktopAnswers

  /** A step that ends or extends the session of `job`. */
  ghost predicate Ends(step: Step, job: Job) {
    match step
    case Start(_, _) => true
    case Request(a, _) =>
      || a.Recover?
      || ((a.Renew? || a.Finish? || a.Cancel?) && a.owner == job.owner && a.token == job.token)
    case CleanupStart(now) => !(now < job.expiresAt && BeforeDeadline(job, now))
    case CleanupEnd(success, _, _, _) => success
    case _ => false
  }

  /** Availability is required in memory and on disk. */
  ghost predicate Barred(s: QueueState) { s.mem.availabilityRequired && s.OnDisk().availabilityRequired }

  /** Job `i` is as it was, except that a consumer may have claimed it. */
  ghost predicate SameJob(a: seq<Job>, b: seq<Job>, i: nat) {
    i < |a| ==> i < |b| && b[i].(claimedBy := a[i].claimedBy) == a[i]
  }

  ghost predicate Lasts(s: QueueState, t: QueueState, i: nat) {
    (Barred(s) ==> Barred(t)) && SameJob(s.mem.jobs, t.mem.jobs, i)
  }

  predicate Holds(s: QueueState, i: nat) { i < |s.mem.jobs| && s.mem.jobs[i].state.Active? }

  lemma PromoteLasts(s: QueueState, e: PromoteInput, i: nat)
    ensures Barred(s) ==> Barred(Promote(s, e).s)
    ensures Holds(s, i) ==> Lasts(s, Promote(s, e).s, i) && Promote(s, e).s.mem.jobs[i] == s.mem.jobs[i]
  {
    hide PickCandidate;
    if !s.inspecting {
      var refreshed := RefreshPolicy(s, e.providerPresent, e.policySave);
      assert Barred(s) ==> Barred(refreshed.s);
      assert refreshed.s.mem.jobs == s.mem.jobs;
      if refreshed.r.Ok? {
        var expired := Expire(refreshed.s, e.around.now, e.expirySave);
        assert Barred(s) ==> Barred(expired.s);
        assert Holds(s, i) ==> expired.s.mem.jobs[i] == s.mem.jobs[i];
        if expired.r.Ok? {
          AdmitLasts(expired.s, e, i);
        }
      }
    }
  }

  lemma AdmitLasts(s: QueueState, e: PromoteInput, i: nat)
    ensures Barred(s) ==> Barred(Admit(s, e).s)
    ensures Holds(s, i) ==> Admit(s, e).s == s
  {
    hide PickCandidate;
    if Holds(s, i) {
      assert s.mem.jobs[i].state.Live();
      assert LiveIndex(s.mem.jobs).Some?;
    }
  }

  lemma MaintenanceLasts(s: QueueState, owner: string, enabled: Param<bool>, c: Call, i: nat)
    requires Holds(s, i)
    ensures Lasts(s, DoMaintenance(s, owner, enabled, c).s, i)
  {
    hide Promote, Shown;
    if FieldOk(owner) && enabled.Given? {
      var owned := s.(mem := s.mem.(maintenanceOwner := if enabled.value then Some(owner) else None));
      var saved := Save(owned, c.save).s;
      PromoteLasts(saved, c.after, i);
      PromoteLasts(Promote(saved, c.after).s, c.last, i);
    }
  }

  lemma SubmitLasts(s: QueueState, a: Action, c: Call, i: nat)
    requires a.Submit? && Holds(s, i)
    ensures Lasts(s, DoSubmit(s, a, c).s, i)
  {
    hide Promote, JobValue;
    var saved := Save(Added(s, NewJob(s.mem, a, c.around.now)), c.save).s;
    assert saved.mem.jobs[i] == s.mem.jobs[i];
    PromoteLasts(saved, c.after, i);
  }

  lemma ClaimLasts(s: QueueState, owner: string, token: string, consumer: string, c: Call, i: nat)
    ensures Lasts(s, DoClaim(s, owner, token, consumer, c).s, i)
  {
    hide UserAuthorized, SnapshotAllowsInput;
  }

  lemma TouchLasts(s: QueueState, a: Action, owner: string, token: string, c: Call, i: nat)
    requires Holds(s, i)
    requires a.Get? || s.mem.jobs[i].owner != owner || s.mem.jobs[i].token != token
    ensures Lasts(s, DoTouch(s, a, owner, token, c).s, i)
  {
    hide JobValue;
    var found := CredentialIndex(s.mem.jobs, owner, token);
    assert a.Get? || found != Some(i);
  }

  lemma ActLasts(s: QueueState, a: Action, c: Call, i: nat)
    requires Holds(s, i) && !Ends(Request(a, c), s.mem.jobs[i])
    ensures Lasts(s, Act(s, a, c).s, i)
  {
    hide DoMaintenance, DoSubmit, DoClaim, DoTouch, DoRecover, DoList, Lasts;
    LastsItself(s, i);
    match a
    case Maintenance(owner, enabled) => MaintenanceLasts(s, owner, enabled, c, i);
    case Submit(_, _, _, _, _, _, _) => SubmitLasts(s, a, c, i);
    case Claim(owner, token, consumer) => ClaimLasts(s, owner, token, consumer, c, i);
    case List(p) => ListAnswered(s, p, c.around);
    case Get(owner, token) => TouchLasts(s, a, owner, token, c, i);
    case Renew(owner, token) => TouchLasts(s, a, owner, token, c, i);
    case Finish(owner, token) => TouchLasts(s, a, owner, token, c, i);
    case Cancel(owner, token) => TouchLasts(s, a, owner, token, c, i);
    case _ =>
  }

  lemma LastsItself(s: QueueState, i: nat)
    ensures Lasts(s, s, i)
  {
  }

  lemma CommandLasts(s: QueueState, a: Action, c: Call, i: nat)
    requires Holds(s, i) && !Ends(Request(a, c), s.mem.jobs[i])
    ensures Lasts(s, Command(s, a, c).s, i)
  {
    hide Promote, Act;
    PromoteLasts(s, c.before, i);
    var promoted := Promote(s, c.before);
    if promoted.r.Ok? && (!s.inspecting || a.List? || a.Get?) {
      ActLasts(promoted.s, a, c, i);
    }
  }

  lemma BeginLasts(s: QueueState, b: BeginInput, i: nat)
    ensures Lasts(s, Begin(s, b).s, i)
  {
    hide Refusal;
  }

  lemma CleanupStartLasts(s: QueueState, now: nat, i: nat)
    requires Holds(s, i) && !Ends(CleanupStart(now), s.mem.jobs[i])
    ensures Lasts(s, NeedsCleanup(s, now).0, i)
  {
  }

  lemma CleanupEndLasts(s: QueueState, now: nat, o: SaveOutcome, e: PromoteInput, i: nat)
    requires Holds(s, i)
    ensures Lasts(s, CleanupDone(s, false, now, o, e).s, i)
  {
    hide Promote;
    PromoteLasts(Save(CleanedUp(s, false, now), o).s, e, i);
  }

  lemma StepLasts(w: World, step: Step, i: nat)
    requires w.up && Holds(w.s, i) && Enabled(w, step) && !Ends(step, w.s.mem.jobs[i])
    ensures Lasts(w.s, Take(w, step).s, i)
  {
    hide Promote, Command, Begin, CleanupDone, NeedsCleanup, Lasts;
    LastsItself(w.s, i);
    match step
    case Wake(e) => PromoteLasts(w.s, e, i);
    case Request(a, c) => CommandLasts(w.s, a, c, i);
    case DispatchStart(b) => BeginLasts(w.s, b, i);
    case CleanupStart(now) => CleanupStartLasts(w.s, now, i);
    case CleanupEnd(success, now, o, e) => CleanupEndLasts(w.s, now, o, e, i);
    case _ => PlainStepLasts(w, step, i);
  }

  lemma PlainStepLasts(w: World, step: Step, i: nat)
    requires w.up && Enabled(w, step)
    requires step.Crash? || step.StartUnreadable? || step.InspectionStart? || step.InspectionStop? || step.DispatchEnd?
    ensures Lasts(w.s, Take(w, step).s, i)
  {
  }

  /** No step of the run ends the session of `job`. */
  ghost predicate Unended(steps: seq<Step>, job: Job) {
    forall k :: 0 <= k < |steps| ==> !Ends(steps[k], job)
  }

  /** Over every run that does not end it, a granted job stays as it was granted. */
  lemma {:induction false} GrantLasts(w: World, steps: seq<Step>, i: nat)
    requires Holds(w.s, i) && ValidRun(w, steps) && Unended(steps, w.s.mem.jobs[i])
    ensures Run(w, steps).up ==> SameJob(w.s.mem.jobs, Run(w, steps).s.mem.jobs, i)
    decreases |steps|
  {
    hide Take, Enabled;
    if steps != [] {
      if w.up {
        var next := Take(w, steps[0]);
        StepLasts(w, steps[0], i);
        GrantLasts(next, steps[1..], i);
      } else {
        DownStays(w, steps);
      }
    }
  }

  /** A process that is down stays down until it is started. */
  lemma {:induction false} DownStays(w: World, steps: seq<Step>)
    requires !w.up && ValidRun(w, steps) && forall k :: 0 <= k < |steps| ==> !steps[k].Start?
    ensures !Run(w, steps).up
    decreases |steps|
  {
    if steps != [] {
      assert !Take(w, steps[0]).up by {
        assert !steps[0].Start?;
      }
      DownStays(Take(w, steps[0]), steps[1..]);
    }
  }

  /** A job granted by a promotion is usable, at every later time in that process that no
      step ended it, exactly until its time to live or its deadline is over. */
  lemma GrantedUntil(w: World, e: PromoteInput, i: nat, steps: seq<Step>, t: nat)
    requires w.up && !w.s.inspecting && AllSaved(e) && Vacant(w.s.mem)
    requires HeadMayGo(w.s.mem, i, e) || NamedMayGo(w.s.mem, i, e)
    requires ValidRun(w, [Wake(e)] + steps) && Unended(steps, Take(w, Wake(e)).s.mem.jobs[i])
    requires Run(w, [Wake(e)] + steps).up
    ensures
      var job := w.s.mem.jobs[i];
      var later := Run(w, [Wake(e)] + steps).s.mem.jobs;
      && i < |later|
      && (later[i].Usable(t) <==> t < SaturatingAdd(e.grantNow, job.ttlMs) && BeforeDeadline(job, t))
  {
    hide Promote, HeadMayGo, NamedMayGo, Vacant;
    PromotionGrantsIff(w.s, e);
    var next := Take(w, Wake(e));
    assert ([Wake(e)] + steps)[1..] == steps;
    GrantLasts(next, steps, i);
  }

  // ----- The availability gate -----

  lemma MaintenanceBars(s: QueueState, owner: string, enabled: Param<bool>, c: Call)
    requires Barred(s)
    ensures Barred(DoMaintenance(s, owner, enabled, c).s)
  {
    hide Promote, Shown;
    if FieldOk(owner) && enabled.Given? {
      var saved := Save(s.(mem := s.mem.(maintenanceOwner := if enabled.value then Some(owner) else None)), c.save).s;
      PromoteLasts(saved, c.after, 0);
      PromoteLasts(Promote(saved, c.after).s, c.last, 0);
    }
  }

  lemma SubmitBars(s: QueueState, a: Action, c: Call)
    requires a.Submit? && Barred(s)
    ensures Barred(DoSubmit(s, a, c).s)
  {
    hide Promote, JobValue;
    PromoteLasts(Save(Added(s, NewJob(s.mem, a, c.around.now)), c.save).s, c.after, 0);
  }

  lemma RecoverBars(s: QueueState, confirmed: bool, c: Call)
    requires Barred(s)
    ensures Barred(DoRecover(s, confirmed, c).s)
  {
    hide Promote;
    forall t: QueueState ensures Barred(t) ==> Barred(Promote(t, c.after).s) {
      PromoteLasts(t, c.after, 0);
    }
  }

  lemma TouchBars(s: QueueState, a: Action, owner: string, token: string, c: Call)
    requires Barred(s)
    ensures Barred(DoTouch(s, a, owner, token, c).s)
  {
    hide JobValue;
  }

  lemma CommandBars(s: QueueState, a: Action, c: Call)
    requires Barred(s)
    ensures Barred(Command(s, a, c).s)
  {
    hide Promote, DoMaintenance, DoSubmit, DoClaim, DoTouch, DoRecover, DoList, Barred;
    PromoteLasts(s, c.before, 0);
    var p := Promote(s, c.before).s;
    match a
    case Maintenance(owner, enabled) => MaintenanceBars(p, owner, enabled, c);
    case Submit(_, _, _, _, _, _, _) => SubmitBars(p, a, c);
    case Claim(owner, token, consumer) => ClaimLasts(p, owner, token, consumer, c, 0);
    case List(x) => ListAnswered(p, x, c.around);
    case Get(owner, token) => TouchBars(p, a, owner, token, c);
    case Renew(owner, token) => TouchBars(p, a, owner, token, c);
    case Finish(owner, token) => TouchBars(p, a, owner, token, c);
    case Cancel(owner, token) => TouchBars(p, a, owner, token, c);
    case Recover(confirmed) => RecoverBars(p, confirmed, c);
    case Unknown =>
  }

  /** Every step, a restart included, leaves the gate closed. */
  lemma StepBars(w: World, step: Step)
    requires Enabled(w, step) && w.s.OnDisk().availabilityRequired && (w.up ==> Barred(w.s))
    ensures Take(w, step).s.OnDisk().availabilityRequired && (Take(w, step).up ==> Barred(Take(w, step).s))
  {
    hide Promote, Command, Begin, Barred, Lasts;
    match step
    case Wake(e) => PromoteLasts(w.s, e, 0);
      BarredOnDisk(Take(w, step).s);
    case Request(a, c) => CommandBars(w.s, a, c);
      BarredOnDisk(Take(w, step).s);
    case DispatchStart(b) => BeginBars(w.s, b);
      BarredOnDisk(Take(w, step).s);
    case CleanupEnd(success, now, o, e) => CleanupEndBars(w.s, success, now, o, e);
      BarredOnDisk(Take(w, step).s);
    case _ => PlainStepBars(w, step);
  }

  lemma BarredOnDisk(s: QueueState)
    requires Barred(s)
    ensures s.OnDisk().availabilityRequired
  {
  }

  lemma BeginBars(s: QueueState, b: BeginInput)
    requires Barred(s)
    ensures Barred(Begin(s, b).s)
  {
    BeginLasts(s, b, 0);
  }

  lemma CleanupEndBars(s: QueueState, success: bool, now: nat, o: SaveOutcome, e: PromoteInput)
    requires Barred(s)
    ensures Barred(CleanupDone(s, success, now, o, e).s)
  {
    hide Promote;
    PromoteLasts(Save(CleanedUp(s, success, now), o).s, e, 0);
  }

  lemma PlainStepBars(w: World, step: Step)
    requires Enabled(w, step) && w.s.OnDisk().availabilityRequired && (w.up ==> Barred(w.s))
    requires !step.Wake? && !step.Request? && !step.DispatchStart? && !step.CleanupEnd?
    ensures Take(w, step).s.OnDisk().availabilityRequired && (Take(w, step).up ==> Barred(Take(w, step).s))
  {
  }

  /** Once the file requires availability, every later state of every run does: no grant
      and no dispatch is ever ungated again. */
  lemma {:induction false} GateStaysClosed(w: World, steps: seq<Step>)
    requires ValidRun(w, steps) && w.s.OnDisk().availabilityRequired && (w.up ==> Barred(w.s))
    ensures Run(w, steps).s.OnDisk().availabilityRequired && (Run(w, steps).up ==> Barred(Run(w, steps).s))
    decreases |steps|
  {
    hide Take, Enabled, Barred;
    if steps != [] {
      StepBars(w, steps[0]);
      GateStaysClosed(Take(w, steps[0]), steps[1..]);
    }
  }
}
