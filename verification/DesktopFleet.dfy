/**
 Consumers of many executors. A receipt names the executor of its request, so the
 receipt files and processes fall into one site per executor; a receipt file is still
 a place that all share.
 */
module DesktopFleet {
  import opened Base
  import opened DesktopModel
  import opened DesktopSystem
  import opened DesktopRun

  /** Each executor with its queue and the receipts, processes and launches for it. */
  type Fleet = map<string, Site>

  function QuietFleet(executors: set<string>): Fleet { map e | e in executors :: QUIET_SITE }

  datatype FleetMove = FleetMove(executor: string, path: string, step: SiteStep)

  predicate Locked(f: Fleet, path: string) { exists e :: e in f && path in f[e].processes }

  predicate Used(f: Fleet, id: string) { exists e :: e in f && id in f[e].used }

  /** The receipt at this path names another executor. */
  predicate Elsewhere(f: Fleet, e: string, path: string) {
    exists x :: x in f && x != e && path in f[x].receipts
  }

  /** An invocation names its executor, needs the lock of its receipt, and draws an
      identifier nobody else has drawn. */
  ghost predicate CanMove(f: Fleet, m: FleetMove) {
    && m.executor in f && CanTake(f[m.executor], m.path, m.step)
    && (m.step.Invoke? ==> m.step.run.executor == m.executor && !Locked(f, m.path) && !Used(f, m.step.newId))
  }

  /** A receipt of another executor's request is refused and stays as it is. */
  function TakeMove(f: Fleet, m: FleetMove): Fleet
    requires m.executor in f
  {
    if m.step.Invoke? && Elsewhere(f, m.executor, m.path) then f
    else f[m.executor := TakeAt(f[m.executor], m.path, m.step)]
  }

  ghost predicate ValidFleet(f: Fleet, moves: seq<FleetMove>)
    decreases |moves|
  {
    moves == [] || (CanMove(f, moves[0]) && ValidFleet(TakeMove(f, moves[0]), moves[1..]))
  }

  ghost function RunFleet(f: Fleet, moves: seq<FleetMove>): Fleet
    requires ValidFleet(f, moves)
    decreases |moves|
  {
    if moves == [] then f else RunFleet(TakeMove(f, moves[0]), moves[1..])
  }

  // ----- Every site keeps to its executor -----

  predicate ReceiptsFor(e: string, receipts: map<string, Record>) {
    forall p :: p in receipts ==> receipts[p].run.executor == e
  }

  predicate ProcessesFor(e: string, processes: map<string, Process>) {
    forall p :: p in processes ==> processes[p].record.run.executor == e
  }

  predicate LaunchesFor(e: string, launches: seq<Launch>) {
    forall i :: 0 <= i < |launches| ==> launches[i].run.executor == e
  }

  predicate KeepsTo(e: string, z: Site) {
    ReceiptsFor(e, z.receipts) && ProcessesFor(e, z.processes) && LaunchesFor(e, z.launches)
  }

  lemma StoredKeepsTo(e: string, z: Site, path: string, r: Record, o: SaveOutcome, next: Phase)
    requires KeepsTo(e, z) && r.run.executor == e
    ensures KeepsTo(e, StoreRecord(z, path, r, o, next)) && KeepsTo(e, Leave(StoreRecord(z, path, r, o, next), path))
  {
  }

  lemma StepKeepsTo(e: string, z: Site, path: string, t: SiteStep)
    requires KeepsTo(e, z) && (t.Invoke? ==> t.run.executor == e)
    ensures KeepsTo(e, TakeAt(z, path, t))
  {
    hide Take, Command, Rpc, Judge, SubmitOf, Early, StoreRecord;
    if path in z.processes {
      var r := z.processes[path].record;
      match t
      case SubmitRequest(_, jobId, token, _, _, _) =>
        var (w, reply) := Rpc(z.w, SubmitOf(r.run, t.jobId, t.token), t.c, t.delivered);
        if reply.Ok? && reply.value.JobReply? {
          StoredKeepsTo(e, z.(w := w), path, r.(token := Some(reply.value.job.token), state := Waiting), t.save, Polling);
        }
      case GiveUp(_, _, _, _) =>
        if r.token.Some? {
          var w := Rpc(z.w, Cancel(r.run.owner, r.token.value), t.c, t.delivered).0;
          StoredKeepsTo(e, z.(w := w), path, r.(state := RunState.GaveUp), t.save, Polling);
        }
      case SaveStarting(save) => StoredKeepsTo(e, z, path, r.(state := Starting), save, Launching);
      case Spawn(_, save) => StoredKeepsTo(e, z, path, r.(state := SpawnFailed), save, Launching);
      case SaveProgress(next, exitCode, save) =>
        StoredKeepsTo(e, z, path, Progressed(r, next, exitCode), save, Supervising);
      case _ =>
    }
    if t.Invoke? {
      InvokeKeepsTo(e, z, path, t.run, t.newId, t.save);
    }
  }

  lemma InvokeKeepsTo(e: string, z: Site, path: string, run: Run, newId: string, o: SaveOutcome)
    requires KeepsTo(e, z) && run.executor == e
    ensures KeepsTo(e, DoInvoke(z, path, run, newId, o))
  {
    hide KeepsTo, StoreRecord;
    var r := if path in z.receipts then z.receipts[path] else Record(Submitting, run, newId, None, None);
    if r.run == run {
      UsedKeepsTo(e, z, newId);
      StoredKeepsTo(e, z.(used := z.used + {newId}), path, r, o, if r.token.Some? then Polling else NeedsJob);
    }
  }

  lemma UsedKeepsTo(e: string, z: Site, newId: string)
    requires KeepsTo(e, z)
    ensures KeepsTo(e, z.(used := z.used + {newId}))
  {
  }

  /** Only an invocation creates a receipt. */
  lemma ReceiptPaths(z: Site, path: string, t: SiteStep)
    requires GoodSite(z) && CanTake(z, path, t)
    ensures TakeAt(z, path, t).receipts.Keys <= z.receipts.Keys + (if t.Invoke? then {path} else {})
  {
    hide GoodReceipts, GoodLaunches, GoodProcess, Safe, Take, Command, Rpc, Judge, SubmitOf, Early;
  }

  // ----- Whole fleets -----

  /** Every site is consistent and keeps to its executor, and no receipt file is in two. */
  ghost predicate GoodFleet(f: Fleet) {
    && (forall e :: e in f ==> GoodSite(f[e]) && KeepsTo(e, f[e]))
    && (forall e, x :: e in f && x in f && e != x ==> f[e].receipts.Keys !! f[x].receipts.Keys)
  }

  lemma MoveKeeps(f: Fleet, m: FleetMove)
    requires GoodFleet(f) && CanMove(f, m)
    ensures GoodFleet(TakeMove(f, m))
  {
    hide GoodSite, CanTake, TakeAt, KeepsTo;
    if !(m.step.Invoke? && Elsewhere(f, m.executor, m.path)) {
      var z := f[m.executor];
      SiteStepKeeps(z, m.path, m.step);
      StepKeepsTo(m.executor, z, m.path, m.step);
      ReceiptPaths(z, m.path, m.step);
      var f' := TakeMove(f, m);
      forall x | x in f && x != m.executor ensures f'[m.executor].receipts.Keys !! f[x].receipts.Keys {
        assert z.receipts.Keys !! f[x].receipts.Keys;
        assert m.step.Invoke? ==> m.path !in f[x].receipts.Keys;
      }
    }
  }

  lemma {:induction false} FleetKeeps(f: Fleet, moves: seq<FleetMove>)
    requires GoodFleet(f) && ValidFleet(f, moves)
    ensures GoodFleet(RunFleet(f, moves))
    decreases |moves|
  {
    hide GoodFleet, CanTake, Locked, Used, TakeMove;
    if moves != [] {
      MoveKeeps(f, moves[0]);
      FleetKeeps(TakeMove(f, moves[0]), moves[1..]);
    }
  }

  predicate SameRequestAs(a: Run, b: Run) {
    a.executor == b.executor && a.owner == b.owner && a.requestKey == b.requestKey
  }

  /** No two child commands were started for one executor, owner and request key. */
  ghost predicate LaunchedOnceEach(f: Fleet) {
    forall e, x, i, j :: e in f && x in f && 0 <= i < |f[e].launches| && 0 <= j < |f[x].launches| ==>
      (SameRequestAs(f[e].launches[i].run, f[x].launches[j].run) ==> e == x && i == j)
  }

  /** Over any executors, and all their consumers, receipts, crashes and restarts. */
  lemma FleetLaunchesAtMostOnce(executors: set<string>, moves: seq<FleetMove>)
    requires ValidFleet(QuietFleet(executors), moves)
    ensures LaunchedOnceEach(RunFleet(QuietFleet(executors), moves))
  {
    hide GoodSite, ValidFleet, RunFleet;
    QuietIsGood();
    FleetKeeps(QuietFleet(executors), moves);
    var f := RunFleet(QuietFleet(executors), moves);
    forall e, x, i, j | e in f && x in f && 0 <= i < |f[e].launches| && 0 <= j < |f[x].launches|
      && SameRequestAs(f[e].launches[i].run, f[x].launches[j].run)
      ensures e == x && i == j
    {
      assert KeepsTo(e, f[e]) && KeepsTo(x, f[x]);
      if i < j {
        DistinctRequests(f[e], i, j);
      } else if j < i {
        DistinctRequests(f[e], j, i);
      }
    }
  }

  lemma QuietIsGood()
    ensures GoodSite(QUIET_SITE)
  {
    hide Safe;
    StartIsSafe();
  }

  // ----- What one site does, a fleet does -----

  function Lifted(e: string, moves: seq<Move>): seq<FleetMove> {
    seq(|moves|, i requires 0 <= i < |moves| => FleetMove(e, moves[i].path, moves[i].step))
  }

  /** The receipts and identifiers of these moves are in no other executor's site, and its
      invocations name this executor. */
  ghost predicate Apart(f: Fleet, e: string, m: Move) {
    && (m.step.Invoke? ==> m.step.run.executor == e)
    && forall x :: x in f && x != e ==>
         && m.path !in f[x].processes && m.path !in f[x].receipts
         && (m.step.Invoke? ==> m.step.newId !in f[x].used)
  }

  /** Every run of one executor's consumers that keeps apart from the others is a run of the
      fleet, and changes nothing else. */
  lemma {:induction false} SiteRunsInFleet(f: Fleet, e: string, moves: seq<Move>)
    requires e in f && ValidMoves(f[e], moves) && forall k :: 0 <= k < |moves| ==> Apart(f, e, moves[k])
    ensures ValidFleet(f, Lifted(e, moves)) && RunFleet(f, Lifted(e, moves)) == f[e := RunMoves(f[e], moves)]
    decreases |moves|
  {
    hide CanTake, TakeAt;
    if moves == [] {
      assert f[e := f[e]] == f;
    } else {
      var m := Lifted(e, moves)[0];
      assert Apart(f, e, moves[0]);
      assert CanMove(f, m) by {
        InvokesAlone(f, e, moves[0]);
      }
      var g := TakeMove(f, m);
      assert g == f[e := TakeAt(f[e], moves[0].path, moves[0].step)];
      forall k | 0 <= k < |moves[1..]| ensures Apart(g, e, moves[1..][k]) {
        assert Apart(f, e, moves[k + 1]);
      }
      SiteRunsInFleet(g, e, moves[1..]);
      assert Lifted(e, moves)[1..] == Lifted(e, moves[1..]);
      assert g[e := RunMoves(g[e], moves[1..])] == f[e := RunMoves(f[e], moves)];
    }
  }

  lemma InvokesAlone(f: Fleet, e: string, m: Move)
    requires e in f && CanTake(f[e], m.path, m.step) && Apart(f, e, m)
    ensures m.step.Invoke? ==> !Locked(f, m.path) && !Used(f, m.step.newId) && !Elsewhere(f, e, m.path)
  {
    hide Enabled;
  }
}
