/**
 The life of a task, over every run of the table's operations: a task that is queued or
 running is never dropped, a task that succeeded or was cancelled never changes again, and
 any other ending can be retried and run again.
 */
module TaskLaws {
  import opened Base
  import opened Tasks

  /** A task that is still to be run or is being run. */
  predicate Unfinished(task: Task) { task.state == Queued || task.state == Running }

  /** A task that ended as it should, or was given up. */
  predicate Settled(task: Task) { task.state == Succeeded || task.state == Cancelled }

  /** The state changes the table makes. */
  predicate Leads(from: TaskState, to: TaskState) {
    match from
    case Queued => to in {Running, Cancelled, OutcomeUnknown}
    case Running => to in {Succeeded, Failed, Cancelled, TimedOut, OutcomeUnknown}
    case Failed => to == Queued
    case TimedOut => to == Queued
    case OutcomeUnknown => to == Queued
    case Succeeded => false
    case Cancelled => false
  }

  /** Every operation leaves every task as it is, changes its state along one of these
      lines, or prunes it, and then it was finished and older than the cutoff. */
  lemma StepOfTask(t: Table, op: Op, now: nat, id: string)
    requires Indexed(t) && Admits(t, op) && id in t.tasks
    ensures
      var t' := Apply(t, op, now);
      var task := t.tasks[id];
      if id in t'.tasks then
        t'.tasks[id] == task
        || (Leads(task.state, t'.tasks[id].state) && t'.tasks[id].identity == task.identity
            && t'.tasks[id].createdAt == task.createdAt && task.events < t'.tasks[id].events)
      else op.OpPrune? && !Unfinished(task) && task.updatedAt < op.cutoff
  {
    hide ScopedKey;
    if op.OpPrune? {
      PruneStaysIndexed(t, op.cutoff);
    }
  }

  /** The task is there, and unfinished, in every state of the run from `t` on. */
  ghost predicate StaysUnfinished(t: Table, ops: seq<(Op, nat)>, id: string)
    decreases |ops|
  {
    id in t.tasks && Unfinished(t.tasks[id])
    && (ops == [] || StaysUnfinished(Apply(t, ops[0].0, ops[0].1), ops[1..], id))
  }

  /** The run at some point finished the task. */
  ghost predicate Finishes(t: Table, ops: seq<(Op, nat)>, id: string)
    decreases |ops|
  {
    id in t.tasks && (!Unfinished(t.tasks[id]) || (ops != [] && Finishes(Apply(t, ops[0].0, ops[0].1), ops[1..], id)))
  }

  /** Over every run a queued or running task is in the table until it is finished:
      whatever is pruned, it stays. */
  lemma {:induction false} UnfinishedIsNeverPruned(t: Table, ops: seq<(Op, nat)>, id: string)
    requires Indexed(t) && ValidOps(t, ops) && id in t.tasks && Unfinished(t.tasks[id])
    ensures StaysUnfinished(t, ops, id) || Finishes(t, ops, id)
    decreases |ops|
  {
    hide Indexed, Apply, Admits;
    if ops != [] {
      StepOfTask(t, ops[0].0, ops[0].1, id);
      ApplyStaysIndexed(t, ops[0].0, ops[0].1);
      var next := Apply(t, ops[0].0, ops[0].1);
      assert id in next.tasks;
      if Unfinished(next.tasks[id]) {
        UnfinishedIsNeverPruned(next, ops[1..], id);
      }
    }
  }

  /** Identifiers of pruned tasks are not given out again. */
  predicate NotReissued(ops: seq<(Op, nat)>, id: string) {
    forall k :: 0 <= k < |ops| && ops[k].0.OpSubmit? ==> ops[k].0.newId != id
  }

  lemma GoneStaysGone(t: Table, op: Op, now: nat, id: string)
    requires id !in t.tasks && (op.OpSubmit? ==> op.newId != id) && Indexed(t)
    ensures id !in Apply(t, op, now).tasks
  {
    hide ScopedKey;
  }

  lemma {:induction false} GoneForGood(t: Table, ops: seq<(Op, nat)>, id: string)
    requires Indexed(t) && ValidOps(t, ops) && id !in t.tasks && NotReissued(ops, id)
    ensures id !in ApplyAll(t, ops).tasks
    decreases |ops|
  {
    hide Indexed, Apply, Admits;
    if ops != [] {
      GoneStaysGone(t, ops[0].0, ops[0].1, id);
      ApplyStaysIndexed(t, ops[0].0, ops[0].1);
      GoneForGood(Apply(t, ops[0].0, ops[0].1), ops[1..], id);
    }
  }

  /** Over every run a task that succeeded or was cancelled keeps its state, output, error,
      attempts and history for as long as it is kept. */
  lemma {:induction false} SettledForGood(t: Table, ops: seq<(Op, nat)>, id: string)
    requires Indexed(t) && ValidOps(t, ops) && id in t.tasks && Settled(t.tasks[id]) && NotReissued(ops, id)
    ensures id in ApplyAll(t, ops).tasks ==> ApplyAll(t, ops).tasks[id] == t.tasks[id]
    decreases |ops|
  {
    hide Indexed, Apply, Admits;
    if ops != [] {
      StepOfTask(t, ops[0].0, ops[0].1, id);
      ApplyStaysIndexed(t, ops[0].0, ops[0].1);
      var next := Apply(t, ops[0].0, ops[0].1);
      if id in next.tasks {
        SettledForGood(next, ops[1..], id);
      } else {
        GoneForGood(next, ops[1..], id);
      }
    }
  }

  // ----- When each operation succeeds -----

  /** A task is moved by the program exactly along these lines. */
  lemma TransitionSucceedsIff(t: Table, id: string, to: TaskState, output: Option<Value>, error: Option<string>, now: nat)
    ensures Transition(t, id, to, output, error, now).Ok? <==>
      && id in t.tasks && Unfinished(t.tasks[id]) && Leads(t.tasks[id].state, to)
      && !(t.tasks[id].state == Queued && to == OutcomeUnknown)
    ensures Transition(t, id, to, output, error, now).Ok? ==>
      var task := Transition(t, id, to, output, error, now).value;
      && task.state == to && task.output == output && task.error == error
      && task.attempt == t.tasks[id].attempt + (if to == Running then 1 else 0)
      && task.input == t.tasks[id].input && task.inputRef == t.tasks[id].inputRef
  {
  }

  /** A task is retried exactly when it failed, timed out or has an unknown outcome; it is
      then queued again without a result, and can be run and succeed. */
  lemma RetrySucceedsIff(t: Table, id: string, now: nat)
    ensures Retry(t, id, now).Ok? <==> id in t.tasks && t.tasks[id].state in {Failed, TimedOut, OutcomeUnknown}
    ensures Retry(t, id, now).Ok? ==>
      var task := Retry(t, id, now).value;
      && task.state == Queued && task.output == None && task.outputRef == None && task.error == None
      && task.input == t.tasks[id].input && task.attempt == t.tasks[id].attempt && Leads(task.state, Running)
  {
  }

  /** A prune keeps every unfinished task and every task of the cutoff or later, unchanged. */
  lemma PruneKeepsIff(t: Table, cutoff: nat, id: string)
    ensures id in Prune(t, cutoff).tasks <==> id in t.tasks && (Unfinished(t.tasks[id]) || t.tasks[id].updatedAt >= cutoff)
    ensures id in Prune(t, cutoff).tasks ==> Prune(t, cutoff).tasks[id] == t.tasks[id]
  {
    hide ScopedKey;
  }

  /** After a restart of the Controller nothing is left queued or running, and what was
      finished is as it was. */
  lemma RecoveryLeavesNoOrphan(t: Table, now: nat, id: string)
    requires id in t.tasks
    ensures
      var after := RecoverOrphans(t, now).tasks;
      && after.Keys == t.tasks.Keys
      && (Unfinished(t.tasks[id]) ==>
            after[id].state == OutcomeUnknown && after[id].output == t.tasks[id].output && after[id].error.Some?)
      && (!Unfinished(t.tasks[id]) ==> after[id] == t.tasks[id])
  {
  }
}
