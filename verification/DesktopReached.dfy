/**
 Two runs of the desktop queue, step by step, that reach what `DesktopStanding` speaks
 of: a mark left behind by a failed write, and a safe point that a cleanup takes away.
 */
module DesktopReached {
  import opened Base
  import opened DesktopModel
  import opened DesktopInvariant
  import opened DesktopSystem
  import opened DesktopStanding

  /** Time zero, no provider, no receipt, and every write succeeds. */
  const NOTHING_AROUND := Surroundings(0, None, None)
  const PROMOTION := PromoteInput(NOTHING_AROUND, 0, false, Saved, Saved, Saved)
  const CALL := Call(PROMOTION, NOTHING_AROUND, Saved, PROMOTION, PROMOTION)

  /** A running process whose memory is saved. */
  predicate At(w: World, gate: Gate, m: Durable) {
    w.up && w.gate == gate && w.s.mem == m && w.s.file == Some(m) && !w.s.inspecting
  }

  lemma FirstStart()
    ensures At(Take(START, Start(None, Saved)), Idle, EMPTY)
    ensures Take(START, Start(None, Saved)).s.log == [Opened(false, {})]
  {
    assert LiveSet(EMPTY.jobs) == {};
  }

  // ----- A failed write leaves the mark -----

  const UNSAVED := BeginInput(false, None, NOTHING_AROUND, false, Saved, Failed(false))

  /** A first start, then a dispatch outside a session whose write fails. */
  const STUCK_RUN := [Start(None, Saved), DispatchStart(UNSAVED)]

  lemma StuckIsReached()
    ensures ValidRun(START, STUCK_RUN)
    ensures var w := Run(START, STUCK_RUN);
            Stuck(w) && w.up && w.s.mem.inFlight && !w.s.OnDisk().inFlight && !w.s.mem.blocked
  {
    FirstStart();
    var w1 := Take(START, STUCK_RUN[0]);
    var w2 := Take(w1, STUCK_RUN[1]);
    assert STUCK_RUN[1..] == [STUCK_RUN[1]] && STUCK_RUN[1..][1..] == [];
    assert ValidRun(w2, []) && ValidRun(w1, STUCK_RUN[1..]);
    assert Run(START, STUCK_RUN) == Run(w1, STUCK_RUN[1..]) == Run(w2, []) == w2;
  }

  // ----- A failed cleanup takes a safe point away -----

  function TheJob(state: JobState, epoch: nat, expiresAt: nat): Job {
    Job("j", "o", "k", "t", state, epoch, 900_000, 0, expiresAt, false, None, None)
  }

  /** The queue once its one job was granted. */
  function OneJob(state: JobState, inFlight: bool, blocked: bool, owner: Option<string>): Durable {
    Durable(1, [TheJob(state, 1, 900_000)], inFlight, blocked, None, owner, false)
  }

  const SUBMIT := Submit("o", "k", Absent, Absent, Absent, "j", "t")
  const IN_SESSION := BeginInput(false, Some(Credentials("o", "t")), NOTHING_AROUND, false, Saved, Saved)

  const SAFE_POINT_RUN := [
    Start(None, Saved), Request(SUBMIT, CALL), DispatchStart(IN_SESSION), DispatchEnd(true, Saved),
    Request(Finish("o", "t"), CALL), CleanupStart(0), Request(Maintenance("m", Given(true)), CALL),
    Request(Recover(true), CALL)]

  const FAILED_CLEANUP := CleanupEnd(false, 0, Saved, PROMOTION)

  /** A promotion that finds nothing to expire and nothing to grant. */
  lemma IdlePromotion(s: QueueState)
    requires forall i :: 0 <= i < |s.mem.jobs| ==> s.mem.jobs[i].deadlineAt.None?
    requires !Admitting(s.mem) || forall i :: 0 <= i < |s.mem.jobs| ==> !s.mem.jobs[i].state.Queued?
    ensures Promote(s, PROMOTION) == Outcome(s, Ok(()))
  {
    assert ExpireQueued(s.mem.jobs, 0) == s.mem.jobs;
    assert Admitting(s.mem) ==> PickCandidate(s.mem, NOTHING_AROUND).NoCandidate?;
  }

  /** A promotion that grants the one queued job. */
  lemma GrantingPromotion(s: QueueState)
    requires !s.inspecting && s.mem == EMPTY.(jobs := [TheJob(Queued, 0, 0)])
    ensures var r := Promote(s, PROMOTION);
            r.r.Ok? && r.s.mem == OneJob(Active, false, false, None) && r.s.file == Some(r.s.mem) && !r.s.inspecting
  {
    assert ExpireQueued(s.mem.jobs, 0) == s.mem.jobs;
    assert Admitting(s.mem);
    assert PickCandidate(s.mem, NOTHING_AROUND) == Candidate(0, false);
    assert WithGrant(s.mem, 0, 0) == OneJob(Active, false, false, None);
  }

  lemma SubmitGrants(w: World)
    requires At(w, Idle, EMPTY) && Fresh(w.s.log, "j", "t")
    ensures Enabled(w, Request(SUBMIT, CALL)) && At(Take(w, Request(SUBMIT, CALL)), Idle, OneJob(Active, false, false, None))
  {
    hide Promote;
    IdlePromotion(w.s);
    var job := TheJob(Queued, 0, 0);
    assert NewJob(EMPTY, SUBMIT, 0) == job;
    var added := Added(w.s, job);
    assert added.mem == EMPTY.(jobs := [job]);
    GrantingPromotion(Save(added, Saved).s);
  }

  lemma DispatchMarks(w: World)
    requires At(w, Idle, OneJob(Active, false, false, None))
    ensures At(Take(w, DispatchStart(IN_SESSION)), Dispatching, OneJob(Active, true, false, None))
  {
    assert LiveIndex(w.s.mem.jobs) == Some(0);
  }

  lemma EndBlocks(w: World)
    requires At(w, Dispatching, OneJob(Active, true, false, None))
    ensures At(Take(w, DispatchEnd(true, Saved)), Idle, OneJob(Active, false, true, None))
  {
  }

  lemma FinishDrains(w: World)
    requires At(w, Idle, OneJob(Active, false, true, None))
    ensures At(Take(w, Request(Finish("o", "t"), CALL)), Idle, OneJob(Draining, false, true, None))
  {
    hide Promote;
    IdlePromotion(w.s);
    assert CredentialIndex(w.s.mem.jobs, "o", "t") == Some(0);
  }

  lemma CleanupBegins(w: World)
    requires At(w, Idle, OneJob(Draining, false, true, None))
    ensures At(Take(w, CleanupStart(0)), Cleaning, OneJob(Draining, false, true, None))
  {
    assert LiveIndex(w.s.mem.jobs) == Some(0);
  }

  lemma MaintenanceTaken(w: World)
    requires At(w, Cleaning, OneJob(Draining, false, true, None))
    ensures At(Take(w, Request(Maintenance("m", Given(true)), CALL)), Cleaning, OneJob(Draining, false, true, Some("m")))
  {
    hide Promote;
    IdlePromotion(w.s);
    IdlePromotion(Save(w.s.(mem := OneJob(Draining, false, true, Some("m"))), Saved).s);
  }

  lemma RecoveryOpens(w: World)
    requires At(w, Cleaning, OneJob(Draining, false, true, Some("m")))
    ensures At(Take(w, Request(Recover(true), CALL)), Cleaning, OneJob(Interrupted, false, false, Some("m")))
  {
    hide Promote;
    IdlePromotion(w.s);
    assert LiveIndex(w.s.mem.jobs) == Some(0);
    var m := OneJob(Interrupted, false, false, Some("m"));
    assert w.s.mem.jobs[0 := w.s.mem.jobs[0].(state := Interrupted)] == m.jobs;
    IdlePromotion(Save(w.s.(mem := m, log := w.s.log + [Released(Recovery, false)]), Saved).s);
  }

  /** The world after the first `n` steps. */
  function WorldAfter(n: nat): World
    requires n <= |SAFE_POINT_RUN|
  {
    if n == 0 then START else Take(WorldAfter(n - 1), SAFE_POINT_RUN[n - 1])
  }

  lemma {:induction false} RunFrom(n: nat)
    requires n <= |SAFE_POINT_RUN|
    requires forall i :: n <= i < |SAFE_POINT_RUN| ==> Enabled(WorldAfter(i), SAFE_POINT_RUN[i])
    ensures ValidRun(WorldAfter(n), SAFE_POINT_RUN[n..])
    ensures Run(WorldAfter(n), SAFE_POINT_RUN[n..]) == WorldAfter(|SAFE_POINT_RUN|)
    decreases |SAFE_POINT_RUN| - n
  {
    hide Take, Enabled;
    if n < |SAFE_POINT_RUN| {
      assert SAFE_POINT_RUN[n..][0] == SAFE_POINT_RUN[n] && SAFE_POINT_RUN[n..][1..] == SAFE_POINT_RUN[n + 1..];
      RunFrom(n + 1);
    }
  }

  /** A dispatch of uncertain outcome, a finish, and then maintenance and a recovery while
      the cleanup runs reach a safe point; the cleanup's failure blocks the queue. */
  lemma SafePointIsLost()
    ensures ValidRun(START, SAFE_POINT_RUN)
    ensures
      var w := Run(START, SAFE_POINT_RUN);
      var q := Maintained("m", w.s.OnDisk().jobs);
      && w.up && w.gate.Cleaning? && Both(q, w.s)
      && Enabled(w, FAILED_CLEANUP) && !Ends(q, w, FAILED_CLEANUP)
      && Take(w, FAILED_CLEANUP).s.OnDisk().blocked && !Stands(q, Take(w, FAILED_CLEANUP).s.OnDisk())
  {
    var w := StepsReached();
    RunFrom(0);
    assert SAFE_POINT_RUN[0..] == SAFE_POINT_RUN;
    CleanupBlocks(w);
  }

  lemma StepsReached() returns (w: World)
    ensures w == WorldAfter(|SAFE_POINT_RUN|) && At(w, Cleaning, OneJob(Interrupted, false, false, Some("m")))
    ensures forall i :: 0 <= i < |SAFE_POINT_RUN| ==> Enabled(WorldAfter(i), SAFE_POINT_RUN[i])
  {
    hide Take, TheJob, OneJob;
    assert Enabled(START, SAFE_POINT_RUN[0]);
    FirstStart();
    var w1 := Take(START, SAFE_POINT_RUN[0]);
    SubmitGrants(w1);
    var w2 := Take(w1, SAFE_POINT_RUN[1]);
    DispatchMarks(w2);
    var w3 := Take(w2, SAFE_POINT_RUN[2]);
    EndBlocks(w3);
    var w4 := Take(w3, SAFE_POINT_RUN[3]);
    FinishDrains(w4);
    var w5 := Take(w4, SAFE_POINT_RUN[4]);
    CleanupBegins(w5);
    var w6 := Take(w5, SAFE_POINT_RUN[5]);
    MaintenanceTaken(w6);
    var w7 := Take(w6, SAFE_POINT_RUN[6]);
    RecoveryOpens(w7);
    w := Take(w7, SAFE_POINT_RUN[7]);
    assert WorldAfter(1) == w1;
    assert WorldAfter(2) == w2;
    assert WorldAfter(3) == w3;
    assert WorldAfter(4) == w4;
    assert WorldAfter(5) == w5;
    assert WorldAfter(6) == w6;
    assert WorldAfter(7) == w7;
    assert WorldAfter(8) == w;
  }

  lemma CleanupBlocks(w: World)
    requires At(w, Cleaning, OneJob(Interrupted, false, false, Some("m")))
    ensures Both(Maintained("m", w.s.OnDisk().jobs), w.s)
    ensures Take(w, FAILED_CLEANUP).s.OnDisk().blocked
  {
    hide Promote;
    var m := OneJob(Interrupted, false, true, Some("m"));
    IdlePromotion(Save(w.s.(mem := m), Saved).s);
  }
}
