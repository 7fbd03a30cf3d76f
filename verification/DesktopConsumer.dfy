/**
 One invocation of the consumer, as the sequential program with its polling loop. Its
 replies, its clock and what everybody else does meanwhile come from a script; what
 it does is a run of the step machine of `DesktopRun`.
 */
module DesktopConsumer {
  import opened Base
  import opened DesktopModel
  import opened DesktopInvariant
  import opened DesktopSystem
  import opened DesktopRun
  import opened DesktopAnswers
  import opened DesktopProgress

  /** What the child is found to do. */
  datatype Child = Running(renewalDue: bool) | Exited(exitCode: Option<int>) | Unobservable

  /** What the environment contributes to one step of the program: moves of others
      before it, the fate of its call and of its write, and what its child does. */
  datatype Turn = Turn(
    between: seq<Move>, c: Call, delivered: bool, answered: bool, save: SaveOutcome, late: bool, started: bool,
    child: Child, jobId: string, token: string)

  /** Where the program is when it makes a step of its own. */
  predicate InPlace(z: Site, path: string, t: SiteStep) {
    match t
    case Other(_) => true
    case Invoke(_, _, _) => path !in z.processes
    case SubmitRequest(_, _, _, _, _, _) => InPhase(z, path, NeedsJob)
    case GiveUp(_, _, _, _) => InPhase(z, path, Polling)
    case Poll(_, _, _) => InPhase(z, path, Polling)
    case ClaimRequest(_, _, _) => InPhase(z, path, Claiming)
    case SaveStarting(_) => InPhase(z, path, Claimed)
    case Spawn(_, _) => InPhase(z, path, Launching)
    case SaveProgress(next, _, _) => InPhase(z, path, Supervising) && Follows(z.processes[path].record.state, next)
    case Die => path in z.processes
  }

  predicate InPhase(z: Site, path: string, phase: Phase) { path in z.processes && z.processes[path].phase == phase }

  /** What only the environment can promise: enabled steps, fresh identifiers. */
  ghost predicate Plausible(z: Site, t: SiteStep) {
    match t
    case Other(step) => Enabled(z.w, step)
    case Invoke(_, newId, _) => newId !in z.used
    case SubmitRequest(_, jobId, token, _, _, _) => Fresh(z.w.s.log, jobId, token)
    case _ => true
  }

  ghost predicate AllPlausible(z: Site, moves: seq<Move>)
    decreases |moves|
  {
    moves == [] || (Plausible(z, moves[0].step) && AllPlausible(TakeAt(z, moves[0].path, moves[0].step), moves[1..]))
  }

  predicate AllInPlace(z: Site, moves: seq<Move>)
    decreases |moves|
  {
    moves == [] || (InPlace(z, moves[0].path, moves[0].step) && AllInPlace(TakeAt(z, moves[0].path, moves[0].step), moves[1..]))
  }

  lemma {:induction false} MovesAppend(z: Site, moves: seq<Move>, m: Move)
    ensures RunMoves(z, moves + [m]) == TakeAt(RunMoves(z, moves), m.path, m.step)
    ensures AllInPlace(z, moves) && InPlace(RunMoves(z, moves), m.path, m.step) ==> AllInPlace(z, moves + [m])
    decreases |moves|
  {
    hide TakeAt, InPlace;
    if moves == [] {
      assert moves + [m] == [m];
    } else {
      assert (moves + [m])[1..] == moves[1..] + [m];
      MovesAppend(TakeAt(z, moves[0].path, moves[0].step), moves[1..], m);
    }
  }

  lemma {:induction false} InPlaceAndPlausibleIsValid(z: Site, moves: seq<Move>)
    requires AllInPlace(z, moves) && AllPlausible(z, moves)
    ensures ValidMoves(z, moves)
    decreases |moves|
  {
    hide TakeAt;
    if moves != [] {
      InPlaceAndPlausibleIsValid(TakeAt(z, moves[0].path, moves[0].step), moves[1..]);
    }
  }

  /** `AlreadyConsumed` is a receipt of an earlier success; a finished invocation reports
      success when its exit code is zero. */
  datatype Ending = LockHeld | Refused | AlreadyConsumed | Stopped | ScriptOver | Finished(exitCode: Option<int>)

  class Consumer {
    var site: Site
    ghost var first: Site
    ghost var moves: seq<Move>

    constructor (z: Site)
      ensures site == z && first == z && moves == [] && Traced()
    {
      site, first, moves := z, z, [];
    }

    /** Everything that happened since the start is a run of the step machine, and the
        program made each of its own steps from the right place. */
    ghost predicate Traced()
      reads this
    {
      site == RunMoves(first, moves) && AllInPlace(first, moves)
    }

    method Do(path: string, t: SiteStep)
      requires Traced() && InPlace(site, path, t)
      modifies this
      ensures Traced() && first == old(first) && moves == old(moves) + [Move(path, t)] && site == TakeAt(old(site), path, t)
      ensures old(site).launches <= site.launches
    {
      LaunchesGrow(site, path, t);
      MovesAppend(first, moves, Move(path, t));
      site := TakeAt(site, path, t);
      moves := moves + [Move(path, t)];
    }

    /** Let the others move; moves that are out of place or on this receipt do not happen. */
    method Wait(path: string, between: seq<Move>)
      requires Traced()
      modifies this
      ensures Traced() && first == old(first) && old(moves) <= moves && old(site).launches <= site.launches
      ensures (path in site.processes) == old(path in site.processes)
      ensures path in site.processes ==> site.processes[path] == old(site).processes[path]
      ensures between == [] ==> site == old(site) && moves == old(moves)
    {
      for i := 0 to |between|
        invariant i == 0 ==> site == old(site) && moves == old(moves)
        invariant Traced() && first == old(first) && old(moves) <= moves && old(site).launches <= site.launches
        invariant (path in site.processes) == old(path in site.processes)
        invariant path in site.processes ==> site.processes[path] == old(site).processes[path]
      {
        var m := between[i];
        if (m.step.Other? || m.path != path) && InPlace(site, m.path, m.step) {
          OthersLeaveProcess(site, path, m);
          Do(m.path, m.step);
        }
      }
    }

    /** One turn of a process that waits: it asks for its job or claims it, or gives up. */
    method WaitingTurn(path: string, run: Run, t: Turn)
      requires Traced() && RunsFor(site, path, run) && (InPhase(site, path, Polling) || InPhase(site, path, Claiming))
      modifies this
      ensures Traced() && first == old(first) && old(moves) < moves && old(site).launches <= site.launches
      ensures RunsFor(site, path, run)
      ensures InPhase(site, path, Claimed) ==> AnsweredClaim(moves[|moves| - 1], path)
      ensures t.between == [] ==> site == TakeAt(old(site), path, TurnStep(old(site), path, t))
    {
      hide TakeAt, RunMoves, AllInPlace;
      Wait(path, t.between);
      var step := TurnStep(site, path, t);
      OwnStepKeepsRun(site, path, step);
      ClaimedByAnswer(site, path, step);
      Do(path, step);
    }

    /**
     Poll until the job can be claimed, is lost, or the script ends. The loop ends in a
     claim only by an answered claim request, and it does so in two turns when its job is
     runnable and nothing else happens.
     */
    method AwaitClaim(path: string, run: Run, script: seq<Turn>, from: nat) returns (next: nat)
      requires Traced() && from <= |script| && RunsFor(site, path, run)
      modifies this
      ensures Traced() && first == old(first) && old(moves) <= moves && old(site).launches <= site.launches
      ensures RunsFor(site, path, run) && from <= next <= |script|
      ensures next < |script| ==> !InPhase(site, path, Polling) && !InPhase(site, path, Claiming)
      ensures InPhase(site, path, Claimed) && !InPhase(old(site), path, Claimed) ==>
        |old(moves)| < |moves| && AnsweredClaim(moves[|moves| - 1], path)
      ensures from + 2 <= |script| && Opportune(old(site), path, script[from], script[from + 1]) ==>
        next == from + 2 && site.processes == old(site).processes[path := old(site).processes[path].(phase := Claimed)]
    {
      hide TakeAt, RunMoves, AllInPlace, Opportune, Smooth, Polls;
      ghost var chance := from + 2 <= |script| && Opportune(site, path, script[from], script[from + 1]);
      ghost var z, z1, z2 := site, site, site;
      if chance {
        z1 := TakeAt(z, path, PollOf(script[from]));
        z2 := TakeAt(z1, path, ClaimRequestOf(script[from + 1]));
        OpportunityIsTaken(z, path, script[from], script[from + 1]);
      }
      next := from;
      while next < |script| && (InPhase(site, path, Polling) || InPhase(site, path, Claiming))
        invariant Traced() && first == old(first) && old(moves) <= moves && old(site).launches <= site.launches
        invariant RunsFor(site, path, run) && from <= next <= |script|
        invariant InPhase(site, path, Claimed) && !InPhase(z, path, Claimed) ==>
          |old(moves)| < |moves| && AnsweredClaim(moves[|moves| - 1], path)
        invariant chance ==> next <= from + 2 && site == if next == from then z else if next == from + 1 then z1 else z2
      {
        WaitingTurn(path, run, script[next]);
        next := next + 1;
      }
    }

    /** One call to the executor that needs nothing but an answer. */
    method Ask(path: string, a: Action, t: Turn) returns (ok: bool)
      requires Traced()
      modifies this
      ensures Traced() && first == old(first) && old(moves) <= moves && old(site).launches <= site.launches
      ensures site.processes == old(site).processes && site.receipts == old(site).receipts
      ensures ok ==> Asked(old(moves), moves, a)
    {
      if !t.delivered || !site.w.up {
        return false;
      }
      var reply := Command(site.w.s, a, t.c).r;
      AskLeavesFiles(site, path, a, t.c);
      Do(path, Other(Request(a, t.c)));
      assert moves[|old(moves)|].step == Other(Request(a, t.c));
      return t.answered && reply.Ok?;
    }

    /** Save "starting", then spawn; when that fails the job is given back. */
    method Start(path: string, run: Run, saving: Turn, spawning: Turn) returns (started: bool)
      requires Traced() && RunsFor(site, path, run)
      modifies this
      ensures Traced() && first == old(first) && old(moves) <= moves && old(site).launches <= site.launches
      ensures started ==> LaunchedSince(old(site).launches, site.launches, path, run)
      ensures started ==> InPhase(site, path, Supervising) && site.processes[path].record.run == run
      ensures InPhase(old(site), path, Claimed) && Spawns(saving, spawning) ==>
        started && site.launches == old(site).launches + [Launch(path, run, old(site).processes[path].record.consumerId)]
    {
      hide TakeAt, RunMoves, AllInPlace;
      Wait(path, saving.between);
      if !InPhase(site, path, Claimed) {
        return false;
      }
      OwnStepKeepsRun(site, path, SaveStarting(saving.save));
      StartingStored(site, path, saving.save);
      Do(path, SaveStarting(saving.save));
      Wait(path, spawning.between);
      if !InPhase(site, path, Launching) {
        return false;
      }
      var token := site.processes[path].record.token;
      SpawnLaunches(site, path, spawning);
      OwnStepKeepsRun(site, path, Spawn(spawning.started, spawning.save));
      Do(path, Spawn(spawning.started, spawning.save));
      started := InPhase(site, path, Supervising);
      if !started && spawning.save.Saved? && token.Some? {
        var _ := Ask(path, Finish(run.owner, token.value), spawning);
      }
    }

    /** Store the next state of the child; the process goes on only if that succeeds. */
    method StoreProgress(path: string, next: RunState, exitCode: Option<int>, t: Turn) returns (stored: bool)
      requires Traced()
      modifies this
      ensures Traced() && first == old(first) && old(moves) <= moves && old(site).launches <= site.launches
      ensures stored ==> InPhase(site, path, Supervising) && path in old(site).processes
      ensures stored ==>
        && site.processes[path].record == Progressed(old(site).processes[path].record, next, exitCode)
        && path in site.receipts && site.receipts[path] == site.processes[path].record
      ensures t.between == [] ==>
        (stored <==> InPhase(old(site), path, Supervising) && Follows(old(site).processes[path].record.state, next) && t.save.Saved?)
    {
      hide TakeAt, RunMoves, AllInPlace;
      Wait(path, t.between);
      if !InPhase(site, path, Supervising) || !Follows(site.processes[path].record.state, next) {
        return false;
      }
      ProgressStored(site, path, next, exitCode, t.save);
      Do(path, SaveProgress(next, exitCode, t.save));
      stored := InPhase(site, path, Supervising);
    }

    /** Watch the child, renewing the session, until it has exited; a renewal that is not
        answered, or a child that cannot be observed, ends the invocation. */
    method Watch(path: string, run: Run, token: string, script: seq<Turn>, from: nat)
      returns (next: nat, exit: Option<Option<int>>)
      requires Traced() && from <= |script|
      modifies this
      ensures Traced() && first == old(first) && old(moves) <= moves && old(site).launches <= site.launches
      ensures from <= next <= |script|
      ensures exit.Some? ==>
        && next > from && script[next - 1].child == Child.Exited(exit.value)
        && (path in site.processes) == (path in old(site).processes)
        && (path in site.processes ==> site.processes[path] == old(site).processes[path])
    {
      hide TakeAt, RunMoves, AllInPlace;
      next, exit := from, None;
      while next < |script|
        invariant Traced() && first == old(first) && old(moves) <= moves && old(site).launches <= site.launches
        invariant from <= next <= |script|
        invariant (path in site.processes) == (path in old(site).processes)
        invariant path in site.processes ==> site.processes[path] == old(site).processes[path]
      {
        var t := script[next];
        next := next + 1;
        Wait(path, t.between);
        match t.child {
          case Exited(exitCode) => return next, Some(exitCode);
          case Unobservable =>
            Abandon(path);
            return;
          case Running(renewalDue) =>
            if renewalDue {
              var renewed := Ask(path, Renew(run.owner, token), t);
              if !renewed {
                Abandon(path);
                return;
              }
            }
        }
      }
    }

    /** The program ends with an error, leaving its child and its receipt. */
    method Abandon(path: string)
      requires Traced()
      modifies this
      ensures Traced() && first == old(first) && old(moves) <= moves && old(site).launches <= site.launches
    {
      if path in site.processes {
        Do(path, Die);
      }
    }

    /**
     Record that the child runs, watch it, record its exit, give the session back, and
     record the end. The result is the exit code of an end that was stored after the
     executor answered the finish.
     */
    method Supervise(path: string, run: Run, script: seq<Turn>, from: nat) returns (done: Option<Option<int>>)
      requires Traced() && from < |script| && InPhase(site, path, Supervising) && site.processes[path].record.run == run
      modifies this
      ensures Traced() && first == old(first) && old(moves) <= moves && old(site).launches <= site.launches
      ensures done.Some? ==>
        && EndStored(site, path, run, done.value)
        && Asked(old(moves), moves, Finish(run.owner, site.receipts[path].token.value))
        && exists k :: from <= k < |script| && script[k].child == Child.Exited(done.value)
    {
      hide TakeAt, RunMoves, AllInPlace;
      done := None;
      if site.processes[path].record.token.None? {
        return;
      }
      var token := site.processes[path].record.token.value;
      var stored := StoreProgress(path, Started, None, script[from]);
      if !stored {
        return;
      }
      var next, exit := Watch(path, run, token, script, from + 1);
      if exit.None? || |script| - next < 2 {
        return;
      }
      stored := StoreProgress(path, RunState.Exited, exit.value, script[next]);
      if !stored {
        return;
      }
      ghost var before := moves;
      var finished := Ask(path, Finish(run.owner, token), script[next]);
      if !finished {
        Abandon(path);
        return;
      }
      AskedSooner(old(moves), before, moves, moves, Finish(run.owner, token));
      ghost var asked := moves;
      stored := StoreProgress(path, Done, None, script[next + 1]);
      AskedSooner(old(moves), old(moves), asked, moves, Finish(run.owner, token));
      done := if stored then Some(exit.value) else None;
      assert script[next - 1].child == Child.Exited(exit.value);
    }

    /** Submit the request, unless the receipt already names its job. */
    method SubmitIfNeeded(path: string, run: Run, t: Turn)
      requires Traced() && RunsFor(site, path, run)
      modifies this
      ensures Traced() && first == old(first) && old(moves) <= moves && old(site).launches <= site.launches
      ensures RunsFor(site, path, run) && !InPhase(site, path, NeedsJob)
    {
      hide TakeAt, RunMoves, AllInPlace;
      Wait(path, t.between);
      if InPhase(site, path, NeedsJob) {
        var step := SubmitRequest(t.c, t.jobId, t.token, t.delivered, t.answered, t.save);
        OwnStepKeepsRun(site, path, step);
        SubmitLeavesNeed(site, path, step);
        Do(path, step);
      }
    }

    /** From a stored early receipt to the end: submit, wait, claim, start, supervise. */
    method Proceed(path: string, run: Run, script: seq<Turn>) returns (ending: Ending)
      requires Traced() && |script| >= 2 && RunsFor(site, path, run)
      modifies this
      ensures Traced() && first == old(first) && old(moves) <= moves && old(site).launches <= site.launches
      ensures ending.Stopped? || ending.ScriptOver? || ending.Finished?
      ensures ending.Finished? ==>
        && LaunchedSince(old(site).launches, site.launches, path, run) && EndStored(site, path, run, ending.exitCode)
        && Asked(old(moves), moves, Finish(run.owner, site.receipts[path].token.value))
    {
      hide TakeAt, RunMoves, AllInPlace, Opportune, AnsweredClaim, Spawns, InPlace;
      SubmitIfNeeded(path, run, script[1]);
      var next := AwaitClaim(path, run, script, 2);
      if |script| - next < 3 {
        return ScriptOver;
      }
      var started := Start(path, run, script[next], script[next + 1]);
      if !started {
        return Stopped;
      }
      ghost var launched, before := site.launches, moves;
      var done := Supervise(path, run, script, next + 2);
      assert old(moves) <= before;
      LaunchStays(old(site).launches, launched, site.launches, path, run);
      if done.None? {
        return Stopped;
      }
      AskedSooner(old(moves), before, moves, moves, Finish(run.owner, site.receipts[path].token.value));
      return Finished(done.value);
    }

    /**
     One invocation. A receipt that may already have been started, or that belongs to
     another request, is refused and nothing changes; only the receipt of an earlier
     success answers again. A finished invocation has started this request's command,
     given the session back, and stored its end and its exit code.
     */
    method Execute(path: string, run: Run, newId: string, script: seq<Turn>) returns (ending: Ending)
      requires Traced()
      modifies this
      ensures Traced() && first == old(first) && old(moves) <= moves && old(site).launches <= site.launches
      ensures ending.LockHeld? || ending.Refused? || ending.AlreadyConsumed? ==>
        site.launches == old(site).launches && site.w == old(site).w
      ensures |script| >= 2 && path !in old(site).processes && Replays(old(site), path, run) ==>
        site == old(site) && ending == if Consumed(old(site), path, run) then AlreadyConsumed else Refused
      ensures ending.AlreadyConsumed? ==> Consumed(old(site), path, run)
      ensures ending.Finished? ==>
        && LaunchedSince(old(site).launches, site.launches, path, run) && EndStored(site, path, run, ending.exitCode)
        && Asked(old(moves), moves, Finish(run.owner, site.receipts[path].token.value))
    {
      hide TakeAt, RunMoves, AllInPlace;
      if |script| < 2 {
        return ScriptOver;
      }
      if path in site.processes {
        return LockHeld;
      }
      if run.argv != [] && path in site.receipts && site.receipts[path].run == run && site.receipts[path].state.Done? {
        return if site.receipts[path].exitCode == Some(0) then AlreadyConsumed else Refused;
      }
      Invoked(site, path, run, newId, script[0].save);
      Do(path, Invoke(run, newId, script[0].save));
      if path !in site.processes {
        return Refused;
      }
      ending := Proceed(path, run, script);
    }
  }

  function PollOf(t: Turn): SiteStep { Poll(t.c, t.delivered, t.answered) }

  function ClaimRequestOf(t: Turn): SiteStep { ClaimRequest(t.c, t.delivered, t.answered) }

  /** Nothing else happens, "starting" is saved and the spawn succeeds. */
  predicate Spawns(saving: Turn, spawning: Turn) {
    saving.between == [] && spawning.between == [] && saving.save.Saved? && spawning.started
  }

  function TurnStep(z: Site, path: string, t: Turn): SiteStep {
    if InPhase(z, path, Claiming) then ClaimRequestOf(t)
    else if t.late then SiteStep.GiveUp(t.c, t.delivered, t.answered, t.save)
    else PollOf(t)
  }

  predicate AnsweredClaim(m: Move, path: string) {
    m.path == path && m.step.ClaimRequest? && m.step.delivered && m.step.answered
  }

  /** An undisturbed turn whose call is made and answered and whose writes succeed. */
  predicate Smooth(t: Turn) {
    t.between == [] && !t.late && t.delivered && t.answered && AllSaved(t.c.before) && t.c.save.Saved?
  }

  /** The consumer's job is granted, in time, permitted and not another's over two such turns. */
  ghost predicate Opportune(z: Site, path: string, t0: Turn, t1: Turn) {
    && Smooth(t0) && Smooth(t1) && Polls(z, path) && Proper(z.processes[path].record)
    && exists i: nat :: RunnableFor(z, path, i, t0.c.around) && RunnableFor(z, path, i, t1.c.around)
  }

  lemma OpportunityIsTaken(z: Site, path: string, t0: Turn, t1: Turn)
    requires Opportune(z, path, t0, t1)
    ensures
      var z1 := TakeAt(z, path, PollOf(t0));
      var z2 := TakeAt(z1, path, ClaimRequestOf(t1));
      && t0.between == [] && t1.between == [] && path in z.processes
      && PollOf(t0) == TurnStep(z, path, t0) && ClaimRequestOf(t1) == TurnStep(z1, path, t1)
      && InPhase(z, path, Polling) && InPhase(z1, path, Claiming) && z2.processes == z.processes[path := z.processes[path].(phase := Claimed)]
  {
    hide Good, Promote, Command, Take, CanTake, TakeAt, Runnable;
    var i: nat :| RunnableFor(z, path, i, t0.c.around) && RunnableFor(z, path, i, t1.c.around);
    var r := z.processes[path].record;
    PollReachesClaiming(z, path, i, t0.c);
    PromoteKeepsRunnable(z.w.s, t0.c.before, i, r.run.owner, r.token.value, r.consumerId, t1.c.around);
    ClaimReachesClaimed(TakeAt(z, path, PollOf(t0)), path, i, t1.c);
  }

  /** Of the steps of a waiting process only an answered claim request claims. */
  lemma ClaimedByAnswer(z: Site, path: string, t: SiteStep)
    requires t.GiveUp? || t.Poll? || t.ClaimRequest?
    requires InPhase(z, path, Polling) || InPhase(z, path, Claiming)
    ensures InPhase(TakeAt(z, path, t), path, Claimed) ==> AnsweredClaim(Move(path, t), path)
  {
    hide Take, Command, Judge;
  }

  /** A call with this action was made in between. */
  ghost predicate Asked(before: seq<Move>, after: seq<Move>, a: Action) {
    exists k :: |before| <= k < |after| && Asks(after[k], a)
  }

  predicate Asks(m: Move, a: Action) { m.step.Other? && m.step.step.Request? && m.step.step.a == a }

  lemma AskedSooner(a: seq<Move>, b: seq<Move>, c: seq<Move>, d: seq<Move>, action: Action)
    requires a <= b && c <= d && Asked(b, c, action)
    ensures Asked(a, d, action)
  {
    var k :| |b| <= k < |c| && Asks(c[k], action);
    assert d[k] == c[k];
  }

  lemma AskLeavesFiles(z: Site, path: string, a: Action, c: Call)
    ensures var t := TakeAt(z, path, Other(Request(a, c))); t.processes == z.processes && t.receipts == z.receipts
  {
    hide Take, Command;
  }

  /** The receipt of this request says how its command ended. */
  predicate EndStored(z: Site, path: string, run: Run, exitCode: Option<int>) {
    && path in z.receipts && z.receipts[path].run == run && z.receipts[path].token.Some?
    && z.receipts[path].state.Done? && z.receipts[path].exitCode == exitCode
  }

  /** The receipt of this request says that its command succeeded. */
  predicate Consumed(z: Site, path: string, run: Run) {
    && run.argv != [] && path in z.receipts && z.receipts[path].run == run
    && z.receipts[path].state.Done? && z.receipts[path].exitCode == Some(0)
  }

  /** A receipt that this request must not be started from. */
  predicate Replays(z: Site, path: string, run: Run) {
    run.argv == [] || (path in z.receipts && (z.receipts[path].run != run || !Early(z.receipts[path].state)))
  }

  predicate RunsFor(z: Site, path: string, run: Run) { path in z.processes ==> z.processes[path].record.run == run }

  predicate LaunchedSince(before: seq<Launch>, after: seq<Launch>, path: string, run: Run) {
    exists i :: |before| <= i < |after| && after[i].path == path && after[i].run == run
  }

  lemma LaunchStays(a: seq<Launch>, b: seq<Launch>, c: seq<Launch>, path: string, run: Run)
    requires b <= c && LaunchedSince(a, b, path, run)
    ensures LaunchedSince(a, c, path, run)
  {
    var i :| |a| <= i < |b| && b[i].path == path && b[i].run == run;
    assert c[i] == b[i];
  }

  lemma LaunchesGrow(z: Site, path: string, t: SiteStep)
    ensures z.launches <= TakeAt(z, path, t).launches
  {
    hide Take, Command, Rpc, Judge, SubmitOf, Follows, Early;
  }

  lemma OwnStepKeepsRun(z: Site, path: string, t: SiteStep)
    requires !t.Invoke? && path in z.processes
    ensures path in TakeAt(z, path, t).processes ==>
      TakeAt(z, path, t).processes[path].record.run == z.processes[path].record.run
  {
    hide Take, Command, Rpc, Judge, SubmitOf, Follows, Early;
  }

  lemma SubmitLeavesNeed(z: Site, path: string, t: SiteStep)
    requires t.SubmitRequest? && path in z.processes
    ensures !InPhase(TakeAt(z, path, t), path, NeedsJob)
  {
    hide Take, Command, Rpc, SubmitOf;
  }

  lemma StartingStored(z: Site, path: string, o: SaveOutcome)
    requires InPhase(z, path, Claimed)
    ensures var t := TakeAt(z, path, SaveStarting(o));
      && t.launches == z.launches
      && (o.Saved? ==> InPhase(t, path, Launching) && t.processes[path].record == z.processes[path].record.(state := Starting))
  {
  }

  lemma SpawnLaunches(z: Site, path: string, t: Turn)
    requires InPhase(z, path, Launching)
    ensures InPhase(TakeAt(z, path, Spawn(t.started, t.save)), path, Supervising) ==>
      LaunchedSince(z.launches, TakeAt(z, path, Spawn(t.started, t.save)).launches, path, z.processes[path].record.run)
    ensures t.started ==>
      && InPhase(TakeAt(z, path, Spawn(t.started, t.save)), path, Supervising)
      && TakeAt(z, path, Spawn(t.started, t.save)).launches ==
           z.launches + [Launch(path, z.processes[path].record.run, z.processes[path].record.consumerId)]
  {
    var after := TakeAt(z, path, Spawn(t.started, t.save)).launches;
    if t.started {
      assert after[|z.launches|].path == path;
    }
  }

  lemma ProgressStored(z: Site, path: string, next: RunState, exitCode: Option<int>, o: SaveOutcome)
    requires path in z.processes
    ensures var t := TakeAt(z, path, SaveProgress(next, exitCode, o));
      && (path in t.processes <==> o.Saved?)
      && (path in t.processes ==>
        && t.processes[path].phase == Supervising
        && t.processes[path].record == Progressed(z.processes[path].record, next, exitCode)
        && path in t.receipts && t.receipts[path] == t.processes[path].record)
  {
  }

  lemma Invoked(z: Site, path: string, run: Run, newId: string, o: SaveOutcome)
    requires path !in z.processes
    ensures var t := TakeAt(z, path, Invoke(run, newId, o));
      && RunsFor(t, path, run) && t.launches == z.launches && t.w == z.w
      && (Replays(z, path, run) ==> t == z)
      && (path in t.processes <==> !Replays(z, path, run) && o.Saved?)
      && (path in t.processes ==>
            && path in t.receipts && t.receipts[path] == t.processes[path].record
            && (path in z.receipts ==> t.receipts[path] == z.receipts[path])
            && (path !in z.receipts ==> t.receipts[path].consumerId == newId && t.receipts[path].state == Submitting)
            && t.processes[path].phase == if t.receipts[path].token.Some? then Polling else NeedsJob)
  {
  }

  ghost predicate SameProcess(z: Site, t: Site, path: string) {
    (path in t.processes) == (path in z.processes) && (path in z.processes ==> t.processes[path] == z.processes[path])
  }

  lemma CallsLeaveProcess(z: Site, path: string, m: Move)
    requires m.step.Other? || m.path != path
    requires m.step.Other? || m.step.Poll? || m.step.ClaimRequest? || m.step.GiveUp? || m.step.SubmitRequest?
    ensures SameProcess(z, TakeAt(z, m.path, m.step), path)
  {
    hide Take, Command, Rpc, Judge, SubmitOf, Follows, Early;
  }

  lemma FilesLeaveProcess(z: Site, path: string, m: Move)
    requires m.path != path
    requires m.step.Invoke? || m.step.SaveStarting? || m.step.Spawn? || m.step.SaveProgress? || m.step.Die?
    ensures SameProcess(z, TakeAt(z, m.path, m.step), path)
  {
    hide Take, Command, Rpc, Judge, SubmitOf, Follows, Early;
  }

  /** Moves of others leave the process that holds this receipt where it is. */
  lemma OthersLeaveProcess(z: Site, path: string, m: Move)
    requires m.step.Other? || m.path != path
    ensures SameProcess(z, TakeAt(z, m.path, m.step), path)
  {
    hide TakeAt, SameProcess;
    if m.step.Other? || m.step.Poll? || m.step.ClaimRequest? || m.step.GiveUp? || m.step.SubmitRequest? {
      CallsLeaveProcess(z, path, m);
    } else {
      FilesLeaveProcess(z, path, m);
    }
  }

  /**
   However many invocations of the sequential program one history holds, from a site
   where nothing has happened, every request starts its command at most once.
   */
  lemma ProgramLaunchesAtMostOnce(moves: seq<Move>)
    requires AllInPlace(QUIET_SITE, moves) && AllPlausible(QUIET_SITE, moves)
    ensures LaunchedOnce(RunMoves(QUIET_SITE, moves).launches)
  {
    hide RunMoves, LaunchedOnce, AllInPlace, AllPlausible, ValidMoves;
    InPlaceAndPlausibleIsValid(QUIET_SITE, moves);
    AtMostOneLaunch(moves);
  }
}
