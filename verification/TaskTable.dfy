/** The task table as an object whose two maps are updated in place. */
module TaskTableObject {
  import opened Base
  import opened Tasks

  class TaskTable {
    var tasks: map<string, Task>
    var idempotency: map<string, string>

    ghost function View(): Table
      reads this
    {
      Table(tasks, idempotency)
    }

    constructor ()
      ensures View() == EMPTY_TABLE
    {
      tasks, idempotency := map[], map[];
    }

    /** Load a snapshot; a later task replaces an earlier one of the same id or key. */
    constructor FromSnapshot(list: seq<Task>)
      ensures View() == FromTasks(list)
    {
      tasks, idempotency := map[], map[];
      new;
      var i := 0;
      while i < |list|
        invariant 0 <= i <= |list|
        invariant View() == FromTasks(list[..i])
      {
        var task := list[i];
        idempotency := idempotency[ScopedKey(task.identity) := task.id];
        tasks := tasks[task.id := task];
        i := i + 1;
        assert list[..i][..i - 1] == list[..i - 1];
      }
      assert list[..i] == list;
    }

    method SubmitTask(identity: Identity, input: Value, newId: string, now: nat) returns (task: Task, reused: bool)
      requires Indexed(View())
      modifies this
      ensures Submission(View(), task, reused) == Submit(old(View()), identity, input, newId, now)
    {
      var k := ScopedKey(identity);
      if k in idempotency {
        return tasks[idempotency[k]], true;
      }
      task := Fresh(identity, input, newId, now);
      idempotency := idempotency[k := task.id];
      tasks := tasks[task.id := task];
      reused := false;
    }

    method TransitionTask(id: string, to: TaskState, output: Option<Value>, error: Option<string>, now: nat)
      returns (r: Result<Task, TaskError>)
      requires Indexed(View())
      modifies this`tasks
      ensures r == Transition(old(View()), id, to, output, error, now)
      ensures View() == Apply(old(View()), OpTransition(id, to, output, error), now)
    {
      if id !in tasks {
        return Err(NotFound);
      }
      var task := tasks[id];
      if !Allowed(task.state, to) {
        return Err(InvalidTransition(task.state, to));
      }
      if to.Running? {
        task := task.(attempt := task.attempt + 1);
      }
      task := task.(revision := Bumped(task.revision), state := to, output := output, outputRef := None);
      task := task.(error := error, updatedAt := now, events := task.events + ["task." + StateName(to)]);
      tasks := tasks[id := task];
      r := Ok(task);
    }

    method RetryTask(id: string, now: nat) returns (r: Result<Task, TaskError>)
      requires Indexed(View())
      modifies this`tasks
      ensures r == Retry(old(View()), id, now)
      ensures View() == Apply(old(View()), OpRetry(id), now)
    {
      if id !in tasks {
        return Err(NotFound);
      }
      var task := tasks[id];
      if !Retryable(task.state) {
        return Err(InvalidTransition(task.state, TaskState.Queued));
      }
      task := Retried(task, now);
      tasks := tasks[id := task];
      r := Ok(task);
    }

    method RetryTaskWithInput(id: string, input: Value, now: nat) returns (r: Result<Task, TaskError>)
      requires Indexed(View())
      modifies this`tasks
      ensures r == RetryWithInput(old(View()), id, input, now)
      ensures View() == Apply(old(View()), OpRetryWithInput(id, input), now)
    {
      r := RetryTask(id, now);
      if r.Ok? {
        var task := tasks[id].(input := input, inputRef := None);
        tasks := tasks[id := task];
        r := Ok(task);
      }
    }

    method ReplaceInputRefIfUnchanged(id: string, revision: nat, marker: Value, reference: PayloadRef) returns (done: bool)
      modifies this`tasks
      ensures View() == ReplaceInput(old(View()), id, revision, marker, reference)
      ensures done <==> id in old(tasks) && old(tasks)[id].revision == revision && old(tasks)[id].inputRef.None?
    {
      if id !in tasks || tasks[id].revision != revision || tasks[id].inputRef.Some? {
        return false;
      }
      tasks := tasks[id := tasks[id].(input := marker, inputRef := Some(reference))];
      done := true;
    }

    method ReplaceOutputRefIfUnchanged(id: string, revision: nat, marker: Value, reference: PayloadRef) returns (done: bool)
      modifies this`tasks
      ensures View() == ReplaceOutput(old(View()), id, revision, marker, reference)
      ensures done <==> id in old(tasks) && old(tasks)[id].revision == revision && old(tasks)[id].outputRef.None?
    {
      if id !in tasks || tasks[id].revision != revision || tasks[id].outputRef.Some? {
        return false;
      }
      tasks := tasks[id := tasks[id].(output := Some(marker), outputRef := Some(reference))];
      done := true;
    }

    method PruneTerminalBefore(cutoff: nat) returns (removed: seq<Task>)
      modifies this
      ensures View() == Prune(old(View()), cutoff)
      ensures forall task :: task in removed <==> exists id :: id in old(tasks) && old(tasks)[id] == task && Prunable(task, cutoff)
    {
      var ids := set id | id in tasks && Prunable(tasks[id], cutoff);
      ghost var all, done := ids, {};
      removed := [];
      while ids != {}
        invariant done + ids == all && done !! ids
        invariant tasks == old(tasks) - done
        invariant idempotency == old(idempotency) - (set id | id in done :: ScopedKey(old(tasks)[id].identity))
        invariant forall task :: task in removed <==> exists id :: id in done && old(tasks)[id] == task
        decreases ids
      {
        var id :| id in ids;
        var task := tasks[id];
        tasks := tasks - {id};
        idempotency := idempotency - {ScopedKey(task.identity)};
        removed := removed + [task];
        ids, done := ids - {id}, done + {id};
      }
    }

    method RecoverOrphanTasks(now: nat) returns (recovered: set<string>)
      modifies this`tasks
      ensures View() == RecoverOrphans(old(View()), now)
      ensures recovered == set id | id in old(tasks) && !old(tasks)[id].state.Terminal()
    {
      recovered := set id | id in tasks && !tasks[id].state.Terminal();
      var ids := recovered;
      while ids != {}
        invariant ids <= recovered <= old(tasks).Keys && tasks.Keys == old(tasks).Keys
        invariant forall id :: id in tasks ==>
          tasks[id] == if id in recovered - ids then Orphaned(old(tasks)[id], now) else old(tasks)[id]
        decreases ids
      {
        var id :| id in ids;
        tasks := tasks[id := Orphaned(tasks[id], now)];
        ids := ids - {id};
      }
    }
  }
}
