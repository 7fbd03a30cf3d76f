/**
 What every run of the executor's desktop queue guarantees: exclusive grants and
 clean handover, sound dispatches, first come first served with one exception, and
 quarantine after a crash.
 */
module DesktopTheorems {
  import opened Base
  import opened DesktopModel
  import opened DesktopInvariant
  import opened DesktopSystem

  // ----- Good histories -----

  lemma {:induction false} GoodPrefix(log: seq<Event>, k: nat)
    requires GoodLog(log) && k <= |log|
    ensures GoodLog(log[..k])
    ensures k < |log| ==> Admissible(log[..k], log[k])
    decreases |log|
  {
    if k == |log| {
      assert log[..k] == log;
    } else {
      var shorter := log[..|log| - 1];
      assert k <= |shorter| && shorter[..k] == log[..k];
      GoodPrefix(shorter, k);
      if k == |log| - 1 {
        assert log[..k] == shorter;
      }
    }
  }

  /** No grant has a larger epoch than the latest one. */
  lemma {:induction false} LatestGrantIsLargest(log: seq<Event>, i: nat)
    requires GoodLog(log) && i < |log| && log[i].Granted?
    ensures log[i].epoch <= LastEpoch(log)
    decreases |log|
  {
    if i < |log| - 1 {
      LatestGrantIsLargest(log[..|log| - 1], i);
    }
  }

  /** Later grants have larger epochs and other jobs, and a job that came up as the
      head of the queue is never followed by one submitted before it. */
  lemma GrantsInOrder(log: seq<Event>, i: nat, j: nat)
    requires GoodLog(log) && i < j < |log| && log[i].Granted? && log[j].Granted?
    ensures log[i].epoch < log[j].epoch
    ensures log[i].index != log[j].index
    ensures log[i].byReceipt || log[i].index < log[j].index
  {
    GoodPrefix(log, j);
    assert log[..j][i] == log[i];
    LatestGrantIsLargest(log[..j], i);
  }

  /** A release with nothing in flight, at position `k`. */
  ghost predicate CleanRelease(log: seq<Event>, k: nat) {
    k < |log| && log[k].Released? && !log[k].inFlight && !Busy(log[..k])
  }

  lemma {:induction false} GrantIsReleased(log: seq<Event>, i: nat) returns (k: nat)
    requires GoodLog(log) && i < |log| && log[i].Granted? && !Holding(log)
    ensures i < k && CleanRelease(log, k)
    decreases |log|
  {
    var last := |log| - 1;
    if log[last].Released? {
      k := last;
    } else {
      k := GrantIsReleased(log[..last], i);
      assert log[..last][..k] == log[..k];
    }
  }

  lemma RunHistory(steps: seq<Step>)
    requires ValidRun(START, steps)
    ensures GoodLog(Run(START, steps).s.log)
  {
    hide WellFormed, Agrees, GoodLog, ValidRun, Run;
    StartIsSafe();
    RunKeeps(START, steps);
  }

  // ----- Exclusive grants and clean handover -----

  /** At most one grant is live, it carries the queue's epoch, and no two jobs
      were ever granted the same epoch. */
  ghost predicate Exclusive(d: Durable) {
    && (forall i, j :: 0 <= i < j < |d.jobs| ==>
          && !(d.jobs[i].state.Live() && d.jobs[j].state.Live())
          && (d.jobs[i].epoch == d.jobs[j].epoch ==> d.jobs[i].epoch == 0))
    && (forall i :: 0 <= i < |d.jobs| && d.jobs[i].state.Live() ==> d.jobs[i].epoch == d.epoch > 0)
  }

  ghost predicate CleanHandovers(log: seq<Event>) {
    forall i, j :: 0 <= i < j < |log| && log[i].Granted? && log[j].Granted? ==>
      log[i].epoch < log[j].epoch && exists k :: i < k < j && CleanRelease(log, k)
  }

  lemma {:induction false} HandoverIsClean(log: seq<Event>)
    requires GoodLog(log)
    ensures CleanHandovers(log)
  {
    forall i, j | 0 <= i < j < |log| && log[i].Granted? && log[j].Granted?
      ensures log[i].epoch < log[j].epoch && exists k :: i < k < j && CleanRelease(log, k)
    {
      GrantsInOrder(log, i, j);
      GoodPrefix(log, j);
      var k := GrantIsReleased(log[..j], i);
      assert log[..j][..k] == log[..k];
      assert CleanRelease(log, k);
    }
  }

  /** In every reachable state grants are exclusive, in memory and on disk, and
      between two grants there is always a release with nothing in flight. */
  lemma ExclusiveGrants(steps: seq<Step>)
    requires ValidRun(START, steps)
    ensures var w := Run(START, steps);
            && Exclusive(w.s.OnDisk()) && (w.up ==> Exclusive(w.s.mem))
            && CleanHandovers(w.s.log)
  {
    StartIsSafe();
    RunKeeps(START, steps);
    HandoverIsClean(Run(START, steps).s.log);
  }

  /** Every dispatch runs alone, and one made for a session is made for the latest
      grant, given by the running process and not yet released. */
  ghost predicate SoundDispatches(log: seq<Event>) {
    forall k :: 0 <= k < |log| && log[k].Dispatched? ==>
      && !Busy(log[..k])
      && (log[k].session.None? ==> !Holding(log[..k]))
      && (log[k].session.Some? ==>
            && Holding(log[..k]) && LastEpoch(log[..k]) == log[k].epoch
            && GrantedSinceOpen(log[..k], log[k].session.value, log[k].epoch))
  }

  lemma {:induction false} DispatchesAreSound(steps: seq<Step>)
    requires ValidRun(START, steps)
    ensures SoundDispatches(Run(START, steps).s.log)
  {
    RunHistory(steps);
    var log := Run(START, steps).s.log;
    forall k | 0 <= k < |log| {
      GoodPrefix(log, k);
    }
  }

  /** A live grant in memory is live, with the same epoch, in the last saved file. */
  lemma LiveGrantIsDurable(steps: seq<Step>, i: nat)
    requires ValidRun(START, steps)
    requires var w := Run(START, steps); w.up && i < |w.s.mem.jobs| && w.s.mem.jobs[i].state.Live()
    ensures var w := Run(START, steps); var f := w.s.OnDisk();
            i < |f.jobs| && f.jobs[i].state.Live() && f.jobs[i].epoch == w.s.mem.jobs[i].epoch == f.epoch
            && SameIdentity(f.jobs[i], w.s.mem.jobs[i])
  {
    StartIsSafe();
    RunKeeps(START, steps);
  }

  // ----- First come, first served -----

  /** A job granted as the head of the queue has a larger epoch than every job
      submitted before it that was ever granted. */
  ghost predicate Fifo(log: seq<Event>) {
    forall a, b :: a in log && b in log && a.Granted? && b.Granted? && a.index < b.index && !b.byReceipt ==>
      a.epoch < b.epoch
  }

  lemma {:induction false} FirstComeFirstServed(steps: seq<Step>)
    requires ValidRun(START, steps)
    ensures Fifo(Run(START, steps).s.log)
  {
    RunHistory(steps);
    var log := Run(START, steps).s.log;
    forall a, b | a in log && b in log && a.Granted? && b.Granted? && a.index < b.index && !b.byReceipt
      ensures a.epoch < b.epoch
    {
      var i :| 0 <= i < |log| && log[i] == a;
      var j :| 0 <= j < |log| && log[j] == b;
      if i < j {
        GrantsInOrder(log, i, j);
      } else {
        GrantsInOrder(log, j, i);
      }
    }
  }

  /** How a grant recorded by one promotion came about: the head of the queue with
      its gate open, or a job the operator's receipt names. */
  ghost predicate RouteOf(s: QueueState, e: PromoteInput, g: Event) {
    && g.Granted? && g.index < |s.mem.jobs| && s.mem.jobs[g.index].state.Queued?
    && !s.mem.jobs[g.index].PastDeadline(e.around.now)
    && (if g.byReceipt then UserAuthorized(s.mem.jobs[g.index], s.mem.bootId, e.around.receipt, e.around.now)
        else
          && (forall j :: 0 <= j < g.index && s.mem.jobs[j].state.Queued? ==> s.mem.jobs[j].PastDeadline(e.around.now))
          && (s.mem.jobs[g.index].requiresAvailability || s.mem.availabilityRequired ==> e.around.Available()))
  }

  lemma SavedEvents(s: QueueState, o: SaveOutcome, g: Event)
    ensures g in Save(s, o).s.log ==> g in s.log || g == Settled
  {
  }

  lemma AdmittedEvents(s: QueueState, e: PromoteInput, g: Event)
    requires g in Admit(s, e).s.log && g.Granted?
    ensures g in s.log ||
            (g.index < |s.mem.jobs| && PickCandidate(s.mem, e.around) == Candidate(g.index, g.byReceipt) && Admitting(s.mem))
  {
    var c := PickCandidate(s.mem, e.around);
    if Admitting(s.mem) && c.Candidate? {
      SavedEvents(s.(mem := WithGrant(s.mem, c.index, e.grantNow)), e.grantSave, g);
    }
  }

  /** Every grant a promotion records was admitted by one of the two routes. */
  lemma GrantHasRoute(s: QueueState, e: PromoteInput, g: Event)
    requires g in Promote(s, e).s.log && g.Granted?
    ensures g in s.log || (RouteOf(s, e, g) && Admitting(s.mem))
  {
    if !s.inspecting {
      SavedEvents(s.(mem := s.mem.(availabilityRequired := true)), e.policySave, g);
      var refreshed := RefreshPolicy(s, e.providerPresent, e.policySave);
      if refreshed.r.Ok? {
        RefreshedRoute(refreshed.s, e, g);
      }
    }
  }

  lemma RefreshedRoute(s: QueueState, e: PromoteInput, g: Event)
    requires g.Granted?
    requires var expired := Expire(s, e.around.now, e.expirySave);
             g in (if expired.r.Err? then expired.s.log else Admit(expired.s, e).s.log)
    ensures g in s.log || (RouteOf(s, e, g) && Admitting(s.mem))
  {
    hide SnapshotAllowsInput, UserAuthorized;
    var waiting := ExpireQueued(s.mem.jobs, e.around.now);
    SavedEvents(s.(mem := s.mem.(jobs := waiting)), e.expirySave, g);
    var expired := Expire(s, e.around.now, e.expirySave);
    assert expired.s.mem == s.mem.(jobs := waiting);
    SameLive(s.mem.jobs, waiting);
    if expired.r.Ok? && g !in expired.s.log {
      AdmittedEvents(expired.s, e, g);
    }
  }

  lemma SameLive(a: seq<Job>, b: seq<Job>)
    requires |a| == |b| && forall i :: 0 <= i < |a| ==> a[i].state.Live() == b[i].state.Live()
    ensures LiveIndex(a).None? <==> LiveIndex(b).None?
  {
  }

  // ----- Quarantine after a crash -----

  lemma StepGrows(w: World, step: Step)
    ensures w.s.log <= Take(w, step).s.log
  {
  }

  lemma {:induction false} RunGrows(w: World, steps: seq<Step>)
    ensures w.s.log <= Run(w, steps).s.log
    decreases |steps|
  {
    if steps != [] {
      StepGrows(w, steps[0]);
      RunGrows(Take(w, steps[0]), steps[1..]);
    }
  }

  /** What a stopped executor records first is the start that reads its file. */
  lemma {:induction false} FirstIsOpened(w: World, steps: seq<Step>)
    requires !w.up && ValidRun(w, steps)
    ensures var log := Run(w, steps).s.log;
            |w.s.log| < |log| ==> log[|w.s.log|].Opened? && log[|w.s.log|].live == LiveSet(w.s.OnDisk().jobs)
    decreases |steps|
  {
    if steps != [] {
      var next := Take(w, steps[0]);
      RunGrows(next, steps[1..]);
      if steps[0].Crash? || steps[0].StartUnreadable? {
        FirstIsOpened(next, steps[1..]);
      } else {
        var d := w.s.OnDisk();
        var noted := w.s.log + [Opened(VerifiedRestart(d.bootId, steps[0].bootId), LiveSet(d.jobs))];
        assert noted <= next.s.log;
        assert next.s.log[|w.s.log|] == noted[|w.s.log|];
      }
    }
  }

  /** A grant of the running process was recorded after the latest start. */
  lemma {:induction false} GrantFound(log: seq<Event>, index: nat, epoch: nat) returns (k: nat)
    requires GrantedSinceOpen(log, index, epoch)
    ensures k < |log| && log[k].Granted? && log[k].index == index
    ensures forall j :: k < j < |log| ==> !log[j].Opened?
    decreases |log|
  {
    var last := |log| - 1;
    if log[last].Granted? && log[last].index == index {
      k := last;
    } else {
      k := GrantFound(log[..last], index, epoch);
    }
  }

  /** After a start, no dispatch is made for a job that was live when it happened. */
  lemma NeverDispatchedAgain(log: seq<Event>, p: nat, k: nat)
    requires GoodLog(log) && p < k < |log| && log[p].Opened?
    requires log[k].Dispatched? && log[k].session.Some?
    ensures log[k].session.value !in log[p].live
  {
    GoodPrefix(log, k);
    var g := GrantFound(log[..k], log[k].session.value, log[k].epoch);
    assert p < g;
    GoodPrefix(log, g);
    assert log[..g][p] == log[p];
  }

  /** After a crash anywhere, no job that was live in memory or on disk is ever
      dispatched again, whatever happens later. */
  lemma {:induction false} CrashNeverReplays(before: seq<Step>, later: seq<Step>)
    requires ValidRun(START, before)
    requires ValidRun(Take(Run(START, before), Crash), later)
    ensures
      var w := Run(START, before);
      var log := Run(Take(w, Crash), later).s.log;
      && w.s.log <= log
      && forall k :: |w.s.log| <= k < |log| && log[k].Dispatched? && log[k].session.Some? ==>
           log[k].session.value !in LiveSet(w.s.OnDisk().jobs) &&
           (w.up ==> log[k].session.value !in LiveSet(w.s.mem.jobs))
  {
    hide WellFormed, Agrees, GoodLog, Admissible, ValidRun, Run;
    StartIsSafe();
    RunKeeps(START, before);
    var w := Run(START, before);
    var down := Take(w, Crash);
    StepKeeps(w, Crash);
    RunKeeps(down, later);
    RunGrows(down, later);
    FirstIsOpened(down, later);
    var log := Run(down, later).s.log;
    forall k | |w.s.log| <= k < |log| && log[k].Dispatched? && log[k].session.Some?
      ensures log[k].session.value !in LiveSet(w.s.OnDisk().jobs)
    {
      NeverDispatchedAgain(log, |w.s.log|, k);
    }
    assert w.up ==> LiveSet(w.s.mem.jobs) <= LiveSet(w.s.OnDisk().jobs);
  }

  /** Whatever is live, in flight or quarantined in the file when a process starts is put
      in quarantine, unless two known and different boot identities prove that the
      operating system restarted; then it is retired. */
  lemma ReopenQuarantines(before: seq<Step>, bootId: Option<string>, o: SaveOutcome)
    requires ValidRun(START, before) && !Run(START, before).up
    ensures
      var s := Run(START, before).s;
      var d := s.OnDisk();
      var r := Open(s, bootId, o);
      r.r.Ok? ==>
        && r.s.OnDisk() == r.s.mem && !r.s.mem.inFlight
        && (!VerifiedRestart(d.bootId, bootId) && (Unsettled(s.log) || HasLive(d.jobs) || d.blocked) ==> r.s.mem.blocked)
        && (VerifiedRestart(d.bootId, bootId) ==>
              && !r.s.mem.blocked && !HasLive(r.s.mem.jobs)
              && forall i :: 0 <= i < |d.jobs| && d.jobs[i].state.Live() ==> r.s.mem.jobs[i].state.Interrupted?)
  {
    StartIsSafe();
    RunKeeps(START, before);
  }

  /** A dispatch counts as settled only once a file that shows its end is written. */
  lemma SettledBySavedEnd(s: QueueState, uncertain: bool, o: SaveOutcome)
    requires Good(s)
    ensures End(s, uncertain, o).r.Ok? ==> !Unsettled(End(s, uncertain, o).s.log)
    ensures !o.Written() && Unsettled(s.log) ==> Unsettled(End(s, uncertain, o).s.log)
  {
    EndKeeps(s, uncertain, o);
    Appended(s.log, Ended(uncertain));
  }
}
