/**
 A consumer gets to start its command: while its job is granted, in time and permitted, one
 status read and one claim are enough, and "starting" and a spawn then add one launch.
 */
module DesktopProgress {
  import opened Base
  import opened DesktopModel
  import opened DesktopInvariant
  import opened DesktopSystem
  import opened DesktopTheorems
  import opened DesktopAnswers
  import opened DesktopGrants
  import opened DesktopRun

  /** Job `i` is granted to these credentials, gated and cleared for input, and not claimed
      by another consumer. */
  ghost predicate Runnable(s: QueueState, i: nat, owner: string, token: string, consumer: string, around: Surroundings) {
    && Good(s) && !s.inspecting && !s.mem.blocked
    && i < |s.mem.jobs| && s.mem.jobs[i].owner == owner && s.mem.jobs[i].token == token
    && InTime(s.mem.jobs[i], around.now)
    && (s.mem.jobs[i].requiresAvailability || s.mem.availabilityRequired)
    && (around.Available() || UserAuthorized(s.mem.jobs[i], s.mem.bootId, around.receipt, around.now))
    && (s.mem.jobs[i].claimedBy == None || s.mem.jobs[i].claimedBy == Some(consumer))
  }

  /** What a promotion leaves as it is. */
  lemma PromoteFrame(s: QueueState, e: PromoteInput)
    ensures var t := Promote(s, e).s;
      && t.inspecting == s.inspecting && t.mem.blocked == s.mem.blocked && t.mem.bootId == s.mem.bootId
      && t.mem.maintenanceOwner == s.mem.maintenanceOwner
      && (s.mem.availabilityRequired ==> t.mem.availabilityRequired)
      && t.mem.inFlight == s.mem.inFlight
  {
    hide PickCandidate;
    if !s.inspecting {
      var refreshed := RefreshPolicy(s, e.providerPresent, e.policySave);
      assert refreshed.s.mem == s.mem.(availabilityRequired := refreshed.s.mem.availabilityRequired);
      if refreshed.r.Ok? {
        var expired := Expire(refreshed.s, e.around.now, e.expirySave);
        assert expired.s.mem == refreshed.s.mem.(jobs := expired.s.mem.jobs) && expired.s.inspecting == s.inspecting;
        if expired.r.Ok? {
          AdmitFrame(expired.s, e);
        }
      }
    }
  }

  lemma AdmitFrame(s: QueueState, e: PromoteInput)
    ensures var t := Admit(s, e).s;
      t.inspecting == s.inspecting && t.mem == s.mem.(jobs := t.mem.jobs, epoch := t.mem.epoch)
  {
    hide PickCandidate;
  }

  lemma PromoteKeepsRunnable(s: QueueState, e: PromoteInput, i: nat, owner: string, token: string, consumer: string, around: Surroundings)
    requires Runnable(s, i, owner, token, consumer, around)
    ensures Runnable(Promote(s, e).s, i, owner, token, consumer, around)
    ensures Promote(s, e).s.mem.jobs[i] == s.mem.jobs[i]
  {
    hide Good, Promote, UserAuthorized, SnapshotAllowsInput;
    PromoteKeeps(s, e);
    PromoteFrame(s, e);
    PromoteLasts(s, e, i);
  }

  // ----- The two calls -----

  /** A status read says that the job may be claimed, and changes nothing but what its
      promotion does. */
  lemma GetAllows(s: QueueState, i: nat, owner: string, token: string, consumer: string, c: Call)
    requires Runnable(s, i, owner, token, consumer, c.around) && Named(owner) && Named(token) && AllSaved(c.before)
    ensures
      var o := Command(s, Get(owner, token), c);
      && o.s == Promote(s, c.before).s && o.r.Ok?
      && o.r.value.JobReply? && o.r.value.job.state == Active && o.r.value.inputAllowed == Some(true)
      && o.r.value.job.claimedBy == s.mem.jobs[i].claimedBy
  {
    hide Good, Promote, UserAuthorized, SnapshotAllowsInput;
    PromoteKeepsRunnable(s, c.before, i, owner, token, consumer, c.around);
    PromoteKeepsOwner(s, c.before);
    var p := Promote(s, c.before).s;
    GoodIsWellFormed(p);
    FoundByCredentials(p.mem, i);
    assert p.mem.jobs[i := p.mem.jobs[i]] == p.mem.jobs;
  }

  lemma GoodIsWellFormed(s: QueueState)
    requires Good(s)
    ensures WellFormed(s.mem)
  {
  }

  /** The claim is answered and on disk. */
  lemma ClaimIsAnswered(s: QueueState, i: nat, owner: string, token: string, consumer: string, c: Call)
    requires Runnable(s, i, owner, token, consumer, c.around) && AllSaved(c.before) && c.save.Saved?
    requires Named(owner) && Named(token) && Named(consumer)
    ensures
      var o := Command(s, Claim(owner, token, consumer), c);
      && o.r.Ok? && i < |o.s.mem.jobs| && o.s.mem.jobs[i].claimedBy == Some(consumer) && o.s.OnDisk() == o.s.mem
  {
    hide Good, Promote, DoClaim, UserAuthorized, SnapshotAllowsInput;
    PromoteKeepsRunnable(s, c.before, i, owner, token, consumer, c.around);
    PromoteKeepsOwner(s, c.before);
    var p := Promote(s, c.before).s;
    GoodIsWellFormed(p);
    assert Claimable(p.mem, i, owner, token, consumer, c.around);
    ClaimAnsweredIff(p, owner, token, consumer, c);
  }

  // ----- One consumer -----

  /** A process that polls for a job it holds the token of. */
  predicate Polls(z: Site, path: string) {
    path in z.processes && z.processes[path].phase == Polling && z.processes[path].record.token.Some?
  }

  ghost predicate RunnableFor(z: Site, path: string, i: nat, around: Surroundings)
    requires Polls(z, path)
  {
    var r := z.processes[path].record;
    z.w.up && Runnable(z.w.s, i, r.run.owner, r.token.value, r.consumerId, around)
  }

  predicate Proper(r: Record)
    requires r.token.Some?
  {
    Named(r.run.owner) && Named(r.token.value) && Named(r.consumerId)
  }

  lemma PollReachesClaiming(z: Site, path: string, i: nat, c: Call)
    requires Polls(z, path) && RunnableFor(z, path, i, c.around) && Proper(z.processes[path].record) && AllSaved(c.before)
    ensures CanTake(z, path, Poll(c, true, true))
    ensures TakeAt(z, path, Poll(c, true, true)) ==
      z.(w := z.w.(s := Promote(z.w.s, c.before).s), processes := z.processes[path := z.processes[path].(phase := Claiming)])
  {
    hide Good, Runnable, Promote, Command;
    var r := z.processes[path].record;
    GetAllows(z.w.s, i, r.run.owner, r.token.value, r.consumerId, c);
    RunnableIsFree(z.w.s, i, r.run.owner, r.token.value, r.consumerId, c.around);
    assert z.w.(s := Promote(z.w.s, c.before).s) == World(true, z.w.gate, Promote(z.w.s, c.before).s);
  }

  /** What a status read can do to a waiting process: go on to a claim when the job is active
      and allowed and not another's; stop when it is another's or no longer runnable; and
      otherwise, or when nothing was answered, wait on. */
  lemma PollDecides(z: Site, path: string, c: Call, delivered: bool, answered: bool)
    requires Polls(z, path)
    ensures
      var r := z.processes[path].record;
      var o := Command(z.w.s, Get(r.run.owner, r.token.value), c).r;
      var t := TakeAt(z, path, Poll(c, delivered, answered));
      var told := z.w.up && delivered && answered && o.Ok? && o.value.JobReply?;
      var allowed := told && o.value.job.state == Active && o.value.inputAllowed == Some(true);
      var others := told && o.value.job.claimedBy.Some? && o.value.job.claimedBy != Some(r.consumerId);
      && t.receipts == z.receipts && t.launches == z.launches
      && t.processes == if allowed && !others then z.processes[path := Process(Claiming, r)]
                        else if (allowed && others) || (told && o.value.job.state !in {Queued, Active}) then z.processes - {path}
                        else z.processes
  {
    hide Take, Command;
  }

  lemma RunnableIsFree(s: QueueState, i: nat, owner: string, token: string, consumer: string, around: Surroundings)
    requires Runnable(s, i, owner, token, consumer, around)
    ensures i < |s.mem.jobs| && (s.mem.jobs[i].claimedBy == None || s.mem.jobs[i].claimedBy == Some(consumer))
  {
  }

  lemma ClaimReachesClaimed(z: Site, path: string, i: nat, c: Call)
    requires path in z.processes && z.processes[path].phase == Claiming && z.w.up && z.processes[path].record.token.Some?
    requires var r := z.processes[path].record;
      Proper(r) && Runnable(z.w.s, i, r.run.owner, r.token.value, r.consumerId, c.around)
    requires AllSaved(c.before) && c.save.Saved?
    ensures CanTake(z, path, ClaimRequest(c, true, true))
    ensures
      var t := TakeAt(z, path, ClaimRequest(c, true, true));
      && t == z.(w := t.w, processes := z.processes[path := z.processes[path].(phase := Claimed)])
      && i < |t.w.s.mem.jobs| && t.w.s.mem.jobs[i].claimedBy == Some(z.processes[path].record.consumerId)
      && t.w.s.OnDisk() == t.w.s.mem
  {
    hide Good, Runnable, Promote, Command;
    var r := z.processes[path].record;
    ClaimIsAnswered(z.w.s, i, r.run.owner, r.token.value, r.consumerId, c);
  }

  /** The four steps of a consumer whose job is runnable. */
  function FourMoves(path: string, poll: Call, claim: Call): seq<Move> {
    [Move(path, Poll(poll, true, true)), Move(path, ClaimRequest(claim, true, true)),
     Move(path, SaveStarting(Saved)), Move(path, Spawn(true, Saved))]
  }

  /** From every site: a polling consumer whose job is granted, in time, permitted and not
      claimed by another, with the executor up and replies and writes made, reaches its
      claim by one status read and one claim, and then starts its command exactly once. */
  lemma RunnableIsLaunched(z: Site, path: string, i: nat, poll: Call, claim: Call)
    requires Polls(z, path) && Proper(z.processes[path].record)
    requires RunnableFor(z, path, i, poll.around) && RunnableFor(z, path, i, claim.around)
    requires AllSaved(poll.before) && AllSaved(claim.before) && claim.save.Saved?
    ensures
      var r := z.processes[path].record;
      var moves := FourMoves(path, poll, claim);
      && ValidMoves(z, moves)
      && RunMoves(z, moves[..2]).processes == z.processes[path := Process(Claimed, r)]
      && RunMoves(z, moves).launches == z.launches + [Launch(path, r.run, r.consumerId)]
      && RunMoves(z, moves).receipts == z.receipts[path := r.(state := Starting)]
  {
    hide Good, Promote, Command, Take, CanTake, TakeAt, RunMoves, ValidMoves, Runnable;
    var r := z.processes[path].record;
    var moves := FourMoves(path, poll, claim);
    PollReachesClaiming(z, path, i, poll);
    var z1 := TakeAt(z, path, moves[0].step);
    PromoteKeepsRunnable(z.w.s, poll.before, i, r.run.owner, r.token.value, r.consumerId, claim.around);
    ClaimReachesClaimed(z1, path, i, claim);
    var z2 := TakeAt(z1, path, moves[1].step);
    assert z2.processes == z.processes[path := Process(Claimed, r)];
    ClaimedIsLaunched(z2, path);
    TwoMoves(z, moves[0], moves[1]);
    assert moves[..2] == [moves[0], moves[1]];
    var rest := [moves[2], moves[3]];
    OneMoveThen(z1, moves[1], rest);
    OneMoveThen(z, moves[0], [moves[1]] + rest);
    assert moves == [moves[0]] + ([moves[1]] + rest);
  }

  lemma OneMoveThen(z: Site, m: Move, rest: seq<Move>)
    requires CanTake(z, m.path, m.step) && ValidMoves(TakeAt(z, m.path, m.step), rest)
    ensures ValidMoves(z, [m] + rest) && RunMoves(z, [m] + rest) == RunMoves(TakeAt(z, m.path, m.step), rest)
  {
    hide CanTake, TakeAt;
    assert ([m] + rest)[1..] == rest;
  }

  lemma TwoMoves(z: Site, a: Move, b: Move)
    requires CanTake(z, a.path, a.step) && CanTake(TakeAt(z, a.path, a.step), b.path, b.step)
    ensures ValidMoves(z, [a, b]) && RunMoves(z, [a, b]) == TakeAt(TakeAt(z, a.path, a.step), b.path, b.step)
  {
    hide CanTake, TakeAt;
    var z1 := TakeAt(z, a.path, a.step);
    assert [a, b][1..] == [b] && [b][1..] == [];
    assert ValidMoves(z1, [b]) && RunMoves(z1, [b]) == TakeAt(z1, b.path, b.step);
  }

  lemma ClaimedIsLaunched(z: Site, path: string)
    requires path in z.processes && z.processes[path].phase == Claimed
    ensures
      var r := z.processes[path].record;
      var moves := [Move(path, SaveStarting(Saved)), Move(path, Spawn(true, Saved))];
      && ValidMoves(z, moves)
      && RunMoves(z, moves).launches == z.launches + [Launch(path, r.run, r.consumerId)]
      && RunMoves(z, moves).receipts == z.receipts[path := r.(state := Starting)]
  {
    hide Take, Command, ValidMoves, RunMoves;
    TwoMoves(z, Move(path, SaveStarting(Saved)), Move(path, Spawn(true, Saved)));
  }

  /** A submission that is answered and stored gives the process the job's token and lets it
      wait; without an answer, or when the receipt cannot be written, the process ends. */
  lemma SubmitDecides(z: Site, path: string, c: Call, jobId: string, token: string, delivered: bool, answered: bool, save: SaveOutcome)
    requires path in z.processes
    ensures
      var r := z.processes[path].record;
      var o := Command(z.w.s, SubmitOf(r.run, jobId, token), c).r;
      var t := TakeAt(z, path, SubmitRequest(c, jobId, token, delivered, answered, save));
      var told := z.w.up && delivered && answered && o.Ok? && o.value.JobReply?;
      && t.launches == z.launches
      && (told && save.Saved? ==>
            && t.processes == z.processes[path := Process(Polling, r.(token := Some(o.value.job.token), state := Waiting))]
            && t.receipts == z.receipts[path := t.processes[path].record])
      && (!(told && save.Saved?) ==> t.processes == z.processes - {path})
      && (!told ==> t.receipts == z.receipts)
  {
    hide Take, Command, SubmitOf;
  }

  /** A command that cannot be started is noted as such, starts nothing, and ends the process. */
  lemma FailedSpawnIsNoted(z: Site, path: string, save: SaveOutcome)
    requires path in z.processes
    ensures
      var t := TakeAt(z, path, Spawn(false, save));
      && t.launches == z.launches && t.processes == z.processes - {path}
      && t.receipts == if save.Written() then z.receipts[path := z.processes[path].record.(state := SpawnFailed)] else z.receipts
  {
    hide Take, Command;
  }

  /** A launched command is accounted for: its start, its exit and its end are stored one
      after the other, and the receipt keeps the exit code. */
  lemma LaunchedIsFinished(z: Site, path: string, code: Option<int>)
    requires path in z.processes && z.processes[path].phase == Supervising && z.processes[path].record.state == Starting
    ensures
      var moves := [Move(path, SaveProgress(Started, None, Saved)), Move(path, SaveProgress(Exited, code, Saved)),
                    Move(path, SaveProgress(Done, None, Saved))];
      var end := z.processes[path].record.(state := Done, exitCode := code);
      && ValidMoves(z, moves)
      && RunMoves(z, moves) == z.(receipts := z.receipts[path := end], processes := z.processes[path := Process(Supervising, end)])
  {
    hide Take, Command, ValidMoves, RunMoves;
    var r := z.processes[path].record;
    var a, b, c := Move(path, SaveProgress(Started, None, Saved)), Move(path, SaveProgress(Exited, code, Saved)),
                   Move(path, SaveProgress(Done, None, Saved));
    var z1 := TakeAt(z, path, a.step);
    assert z1.processes[path] == Process(Supervising, r.(state := Started));
    var z2 := TakeAt(z1, path, b.step);
    assert z2.processes[path] == Process(Supervising, r.(state := Exited, exitCode := code));
    var z3 := TakeAt(z2, path, c.step);
    assert z3 == z.(receipts := z3.receipts, processes := z3.processes);
    TwoMoves(z1, b, c);
    OneMoveThen(z, a, [b, c]);
    assert [a, b, c] == [a] + [b, c];
  }

  /** A consumer that gives up cancels its job and notes that, and ends; without an answer
      it ends and its receipt stays, so that it can be tried again. */
  lemma GiveUpCancels(z: Site, path: string, i: nat, c: Call, delivered: bool, answered: bool, save: SaveOutcome)
    requires Polls(z, path) && Good(z.w.s) && z.w.up && !z.w.s.inspecting && AllSaved(c.before) && c.save.Saved?
    requires Proper(z.processes[path].record)
    requires var r := z.processes[path].record;
      var p := Promote(z.w.s, c.before).s;
      i < |p.mem.jobs| && p.mem.jobs[i].owner == r.run.owner && p.mem.jobs[i].token == r.token.value
    ensures
      var r := z.processes[path].record;
      var t := TakeAt(z, path, SiteStep.GiveUp(c, delivered, answered, save));
      var jobs := Promote(z.w.s, c.before).s.mem.jobs;
      && path !in t.processes && t.launches == z.launches
      && (delivered ==> t.w.s.mem.jobs == jobs[i := jobs[i].(state := EndedState(jobs[i].state))])
      && (!delivered ==> t.w == z.w)
      && t.receipts == if delivered && answered && save.Written() then z.receipts[path := r.(state := GaveUp)] else z.receipts
  {
    hide Good, Promote, DoTouch;
    var r := z.processes[path].record;
    PromoteKeeps(z.w.s, c.before);
    PromoteKeepsOwner(z.w.s, c.before);
    var p := Promote(z.w.s, c.before).s;
    GoodIsWellFormed(p);
    FinishAnswered(p, i, true, c);
  }

  // ----- A run that launches -----

  const SOON := Snapshot(1, "away-guard", "armed", Some("g"), Some(1), true, Some(10), Some(1_000))

  const AROUND := Surroundings(10, Some(SOON), None)

  const QUIET_PROMOTION := PromoteInput(AROUND, 10, false, Saved, Saved, Saved)

  const QUIET_CALL := Call(QUIET_PROMOTION, AROUND, Saved, QUIET_PROMOTION, QUIET_PROMOTION)

  const THE_RUN := Run("e", "alice", "k", ["cmd"], 5_000)

  function LaunchingRun(): seq<Move> {
    [Move("p", Other(Start(None, Saved))), Move("p", Invoke(THE_RUN, "c", Saved)),
     Move("p", SubmitRequest(QUIET_CALL, "j", "t", true, true, Saved))]
    + FourMoves("p", QUIET_CALL, QUIET_CALL)
  }

  function TheJob(): Job {
    Job("j", "alice", "k", "t", Active, 1, 900_000, 10, 900_010, true, Some(5_000), None)
  }

  /** The first start of an executor. */
  lemma Starts()
    ensures var w := Take(START, Start(None, Saved));
      && w.up && w.gate.Idle? && !w.s.inspecting && w.s.mem == EMPTY && Good(w.s)
      && w.s.log == [Opened(false, {})]
  {
    hide Good;
    StartIsSafe();
    StepKeeps(START, Start(None, Saved));
    assert LiveSet([]) == {};
  }

  lemma EmptyPromotion(s: QueueState)
    requires !s.inspecting && s.mem == EMPTY
    ensures Promote(s, QUIET_PROMOTION) == Outcome(s, Ok(()))
  {
    hide UserAuthorized, SnapshotAllowsInput;
    assert ExpireQueued([], 10) == [];
    assert PickCandidate(EMPTY, AROUND).NoCandidate?;
  }

  /** The submitted job is granted at once: it is the head and the desktop is available. */
  lemma FirstSubmitGrants(s: QueueState)
    requires !s.inspecting && s.mem == EMPTY
    ensures
      var o := Command(s, SubmitOf(THE_RUN, "j", "t"), QUIET_CALL);
      && o.r.Ok? && o.r.value.JobReply? && o.r.value.job.token == "t"
      && o.s.mem.jobs == [TheJob()] && !o.s.inspecting && !o.s.mem.blocked
  {
    hide Promote, HeadMayGo, NamedMayGo, JobValue;
    var a := SubmitOf(THE_RUN, "j", "t");
    EmptyPromotion(s);
    var added := Added(s, Requested(a, false, 10));
    var saved := Save(added, Saved).s;
    assert a.Submit? && Named(a.owner) && Named(a.requestKey);
    SubmitAnsweredIff(s, a, QUIET_CALL);
    HeadIsFirst(saved.mem);
    VacantWithOneQueued(saved.mem);
    PromotionGrantsIff(saved, QUIET_PROMOTION);
    PromoteFrame(saved, QUIET_PROMOTION);
    var t := Promote(saved, QUIET_PROMOTION).s;
    assert GrantedIn(saved.mem, 0, QUIET_PROMOTION, t.mem);
    assert t.mem.jobs == [TheJob()];
    JobValueToken(t.mem, TheJob(), AROUND);
  }

  lemma JobValueToken(m: Durable, job: Job, around: Surroundings)
    ensures JobValue(m, job, around).JobReply? && JobValue(m, job, around).job.token == job.token
  {
  }

  function QueuedJob(): Job { TheJob().(state := Queued, epoch := 0, expiresAt := 0) }

  lemma HeadIsFirst(m: Durable)
    requires m.jobs == [QueuedJob()]
    ensures HeadMayGo(m, 0, QUIET_PROMOTION)
  {
  }

  lemma VacantWithOneQueued(m: Durable)
    requires m == EMPTY.(jobs := [QueuedJob()])
    ensures Vacant(m)
  {
  }

  function NewRecord(): Record { Record(Submitting, THE_RUN, "c", None, None) }

  lemma InvokeStores(z: Site)
    requires z.receipts == map[] && z.processes == map[] && z.used == {}
    ensures CanTake(z, "p", Invoke(THE_RUN, "c", Saved))
    ensures
      var t := TakeAt(z, "p", Invoke(THE_RUN, "c", Saved));
      t.w == z.w && t.launches == z.launches && t.processes == map["p" := Process(NeedsJob, NewRecord())]
  {
    hide Take, Command;
  }

  lemma SubmitStores(z: Site)
    requires z.processes == map["p" := Process(NeedsJob, NewRecord())]
    requires z.w.up && Good(z.w.s) && !z.w.s.inspecting && z.w.s.mem == EMPTY && z.w.s.log == [Opened(false, {})]
    ensures CanTake(z, "p", SubmitRequest(QUIET_CALL, "j", "t", true, true, Saved))
    ensures
      var t := TakeAt(z, "p", SubmitRequest(QUIET_CALL, "j", "t", true, true, Saved));
      && t.processes == map["p" := Process(Polling, NewRecord().(token := Some("t"), state := Waiting))]
      && t.launches == z.launches && t.w.up && Good(t.w.s) && t.w.s.mem.jobs == [TheJob()]
      && !t.w.s.inspecting && !t.w.s.mem.blocked
  {
    hide Good, Command;
    var a := SubmitOf(THE_RUN, "j", "t");
    assert Fresh(z.w.s.log, "j", "t");
    CommandKeeps(z.w.s, a, QUIET_CALL);
    FirstSubmitGrants(z.w.s);
  }

  lemma JobIsRunnable(s: QueueState)
    requires Good(s) && s.mem.jobs == [TheJob()] && !s.inspecting && !s.mem.blocked
    ensures Runnable(s, 0, "alice", "t", "c", AROUND)
  {
    hide Good;
  }

  /** From nothing, seven steps start the command. */
  lemma LaunchIsReached()
    ensures ValidMoves(QUIET_SITE, LaunchingRun())
    ensures RunMoves(QUIET_SITE, LaunchingRun()).launches == [Launch("p", THE_RUN, "c")]
  {
    hide Good, Promote, Command, Take, RunMoves, ValidMoves, Runnable, FourMoves;
    var first, second, third := Move("p", Other(Start(None, Saved))), Move("p", Invoke(THE_RUN, "c", Saved)),
                                Move("p", SubmitRequest(QUIET_CALL, "j", "t", true, true, Saved));
    var four := FourMoves("p", QUIET_CALL, QUIET_CALL);
    Starts();
    assert CanTake(QUIET_SITE, "p", first.step);
    var z1 := TakeAt(QUIET_SITE, "p", first.step);
    InvokeStores(z1);
    var z2 := TakeAt(z1, "p", second.step);
    SubmitStores(z2);
    var z3 := TakeAt(z2, "p", third.step);
    JobIsRunnable(z3.w.s);
    RunnableIsLaunched(z3, "p", 0, QUIET_CALL, QUIET_CALL);
    OneMoveThen(z2, third, four);
    OneMoveThen(z1, second, [third] + four);
    OneMoveThen(QUIET_SITE, first, [second] + ([third] + four));
    assert LaunchingRun() == [first] + ([second] + ([third] + four));
  }
}
