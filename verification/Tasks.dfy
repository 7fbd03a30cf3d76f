/**
 The Controller's task table: tasks by id, and an index from the four-part
 identity of a request to the one that answers it.
 */
module Tasks {
  import opened Base

  /** A JSON value. `Plain` is any value without a top-level
      `$machineFabricPayload` key; the other two have one. */
  datatype Value = Plain(json: string) | Deployed(sha256: string, bytes: nat) | MalformedDeployed

  /** Where the value of a task is kept outside the state file. */
  datatype PayloadRef = PayloadRef(digest: string, bytes: nat)

  datatype TaskState = Queued | Running | Succeeded | Failed | Cancelled | TimedOut | OutcomeUnknown {
    predicate Terminal() { !Queued? && !Running? }
  }

  datatype Identity = Identity(session: string, executor: string, capability: string, key: string)

  datatype Task = Task(
    id: string, identity: Identity, input: Value, inputRef: Option<PayloadRef>,
    output: Option<Value>, outputRef: Option<PayloadRef>, error: Option<string>,
    state: TaskState, attempt: nat, revision: nat, createdAt: nat, updatedAt: nat, events: seq<string>)

  datatype Table = Table(tasks: map<string, Task>, index: map<string, string>)

  const EMPTY_TABLE := Table(map[], map[])

  datatype TaskError = NotFound | InvalidTransition(from: TaskState, to: TaskState)

  // ----- The scoped key -----

  const NUL: char := '\0'

  predicate NulFree(s: string) { NUL !in s }

  function ScopedKey(i: Identity): string {
    i.session + [NUL] + i.executor + [NUL] + i.capability + [NUL] + i.key
  }

  /** The parts of the key that are followed by a separator contain none. */
  predicate Separable(i: Identity) { NulFree(i.session) && NulFree(i.executor) && NulFree(i.capability) }

  lemma FirstPart(a: string, b: string, x: string, y: string)
    requires NulFree(a) && NulFree(b) && a + [NUL] + x == b + [NUL] + y
    ensures a == b && x == y
  {
    var s, t := a + [NUL] + x, b + [NUL] + y;
    assert s[|a|] == NUL && forall k :: 0 <= k < |a| ==> s[k] == a[k];
    assert t[|b|] == NUL && forall k :: 0 <= k < |b| ==> t[k] == b[k];
    assert |a| == |b|;
    assert a == s[..|a|] && b == t[..|b|];
    assert x == s[|a| + 1..] && y == t[|b| + 1..];
  }

  /** No two requests share a key, whatever their last part contains. */
  lemma KeyIsInjective(i: Identity, j: Identity)
    requires Separable(i) && Separable(j) && ScopedKey(i) == ScopedKey(j)
    ensures i == j
  {
    var i2, j2 := i.capability + [NUL] + i.key, j.capability + [NUL] + j.key;
    var i1, j1 := i.executor + [NUL] + i2, j.executor + [NUL] + j2;
    assert ScopedKey(i) == i.session + [NUL] + i1;
    assert ScopedKey(j) == j.session + [NUL] + j1;
    FirstPart(i.session, j.session, i1, j1);
    FirstPart(i.executor, j.executor, i2, j2);
    FirstPart(i.capability, j.capability, i.key, j.key);
  }

  /** No part contains a separator. */
  predicate Clean(i: Identity) { Separable(i) && NulFree(i.key) }

  /** The separators of a key are those of its parts and three more. */
  lemma SeparatorsInKey(i: Identity)
    ensures multiset(ScopedKey(i))[NUL] ==
      multiset(i.session)[NUL] + multiset(i.executor)[NUL] + multiset(i.capability)[NUL] + multiset(i.key)[NUL] + 3
  {
    assert multiset([NUL])[NUL] == 1;
  }

  lemma NulFreeByCount(s: string)
    ensures NulFree(s) <==> multiset(s)[NUL] == 0
  {
    assert NUL in s <==> NUL in multiset(s);
  }

  /** Whoever shares the key of a request without separators has none either. */
  lemma CleanByKey(i: Identity, j: Identity)
    requires Clean(i) && ScopedKey(i) == ScopedKey(j)
    ensures Clean(j)
  {
    SeparatorsInKey(i);
    SeparatorsInKey(j);
    NulFreeByCount(i.session);
    NulFreeByCount(i.executor);
    NulFreeByCount(i.capability);
    NulFreeByCount(i.key);
    NulFreeByCount(j.session);
    NulFreeByCount(j.executor);
    NulFreeByCount(j.capability);
    NulFreeByCount(j.key);
  }

  lemma CutAtNul(s: string) returns (a: string, b: string)
    requires !NulFree(s)
    ensures s == a + [NUL] + b
  {
    var k :| 0 <= k < |s| && s[k] == NUL;
    a, b := s[..k], s[k + 1..];
  }

  /** A separator inside any part makes the request share its key with another one:
      the key is cut into four parts at a different separator. */
  lemma SeparatorsCollide(i: Identity) returns (j: Identity)
    requires !Clean(i)
    ensures ScopedKey(j) == ScopedKey(i) && j != i
  {
    if !NulFree(i.session) {
      var a, b := CutAtNul(i.session);
      j := Identity(a, b, i.executor, i.capability + [NUL] + i.key);
      assert |j.session| < |i.session|;
    } else if !NulFree(i.executor) {
      var a, b := CutAtNul(i.executor);
      j := Identity(i.session, a, b, i.capability + [NUL] + i.key);
      assert |j.executor| < |i.executor|;
    } else if !NulFree(i.capability) {
      var a, b := CutAtNul(i.capability);
      j := Identity(i.session, i.executor, a, b + [NUL] + i.key);
      assert |j.capability| < |i.capability|;
    } else {
      var a, b := CutAtNul(i.key);
      j := Identity(i.session + [NUL] + i.executor, i.capability, a, b);
      assert |j.session| > |i.session|;
    }
  }

  /** A request has its key to itself exactly when none of its parts has a separator. */
  lemma KeyIsUniqueIffClean(i: Identity)
    ensures Clean(i) <==> forall j :: ScopedKey(j) == ScopedKey(i) ==> j == i
  {
    hide ScopedKey;
    if Clean(i) {
      forall j | ScopedKey(j) == ScopedKey(i) ensures j == i {
        CleanByKey(i, j);
        KeyIsInjective(i, j);
      }
    } else {
      var j := SeparatorsCollide(i);
    }
  }

  // ----- Operations -----

  function Fresh(identity: Identity, input: Value, id: string, now: nat): Task {
    Task(id, identity, input, None, None, None, None, TaskState.Queued, 0, 1, now, now, ["task.queued"])
  }

  /** A table whose index names a missing task, on which the program would stop, is
      never reached: see `Indexed`. */
  datatype Submission = Submission(table: Table, task: Task, reused: bool)

  function Submit(t: Table, identity: Identity, input: Value, newId: string, now: nat): Submission {
    var k := ScopedKey(identity);
    if k in t.index && t.index[k] in t.tasks then Submission(t, t.tasks[t.index[k]], true)
    else
      var task := Fresh(identity, input, newId, now);
      Submission(Table(t.tasks[newId := task], t.index[k := newId]), task, false)
  }

  predicate Allowed(from: TaskState, to: TaskState) {
    || (from.Queued? && (to.Running? || to.Cancelled?))
    || (from.Running? && (to.Succeeded? || to.Failed? || to.Cancelled? || to.TimedOut? || to.OutcomeUnknown?))
  }

  predicate Retryable(s: TaskState) { s.Failed? || s.TimedOut? || s.OutcomeUnknown? }

  function StateName(s: TaskState): string {
    match s
    case Queued => "queued"
    case Running => "running"
    case Succeeded => "succeeded"
    case Failed => "failed"
    case Cancelled => "cancelled"
    case TimedOut => "timed-out"
    case OutcomeUnknown => "outcome-unknown"
  }

  function Bumped(revision: nat): nat { SaturatingAdd(revision, 1) }

  function Transitioned(task: Task, to: TaskState, output: Option<Value>, error: Option<string>, now: nat): Task {
    task.(attempt := if to.Running? then task.attempt + 1 else task.attempt,
          revision := Bumped(task.revision), state := to, output := output, outputRef := None,
          error := error, updatedAt := now, events := task.events + ["task." + StateName(to)])
  }

  function Retried(task: Task, now: nat): Task {
    task.(state := TaskState.Queued, revision := Bumped(task.revision), output := None, outputRef := None,
          error := None, updatedAt := now, events := task.events + ["task.retried"])
  }

  function Orphaned(task: Task, now: nat): Task {
    task.(state := OutcomeUnknown, revision := Bumped(task.revision),
          error := Some("CONTROLLER_RESTARTED"), updatedAt := now, events := task.events + ["task.outcome-unknown"])
  }

  function WithTask(t: Table, task: Task): Table { t.(tasks := t.tasks[task.id := task]) }

  function Transition(t: Table, id: string, to: TaskState, output: Option<Value>, error: Option<string>, now: nat): Result<Task, TaskError> {
    if id !in t.tasks then Err(NotFound)
    else if !Allowed(t.tasks[id].state, to) then Err(InvalidTransition(t.tasks[id].state, to))
    else Ok(Transitioned(t.tasks[id], to, output, error, now))
  }

  function Retry(t: Table, id: string, now: nat): Result<Task, TaskError> {
    if id !in t.tasks then Err(NotFound)
    else if !Retryable(t.tasks[id].state) then Err(InvalidTransition(t.tasks[id].state, TaskState.Queued))
    else Ok(Retried(t.tasks[id], now))
  }

  function RetryWithInput(t: Table, id: string, input: Value, now: nat): Result<Task, TaskError> {
    var r := Retry(t, id, now);
    if r.Err? then r else Ok(r.value.(input := input, inputRef := None))
  }

  predicate Prunable(task: Task, cutoff: nat) { task.state.Terminal() && task.updatedAt < cutoff }

  function Prune(t: Table, cutoff: nat): Table {
    var removed := set id | id in t.tasks && Prunable(t.tasks[id], cutoff);
    var keys := set id | id in removed :: ScopedKey(t.tasks[id].identity);
    Table(t.tasks - removed, t.index - keys)
  }

  function RecoverOrphans(t: Table, now: nat): Table {
    t.(tasks := map id | id in t.tasks :: if t.tasks[id].state.Terminal() then t.tasks[id] else Orphaned(t.tasks[id], now))
  }

  /** Move an input out of a task, unless that has changed since `revision`. */
  function ReplaceInput(t: Table, id: string, revision: nat, marker: Value, reference: PayloadRef): Table {
    if id !in t.tasks || t.tasks[id].revision != revision || t.tasks[id].inputRef.Some? then t
    else t.(tasks := t.tasks[id := t.tasks[id].(input := marker, inputRef := Some(reference))])
  }

  function ReplaceOutput(t: Table, id: string, revision: nat, marker: Value, reference: PayloadRef): Table {
    if id !in t.tasks || t.tasks[id].revision != revision || t.tasks[id].outputRef.Some? then t
    else t.(tasks := t.tasks[id := t.tasks[id].(output := Some(marker), outputRef := Some(reference))])
  }

  function FromTasks(tasks: seq<Task>): Table {
    if tasks == [] then EMPTY_TABLE
    else
      var last := tasks[|tasks| - 1];
      var t := FromTasks(tasks[..|tasks| - 1]);
      Table(t.tasks[last.id := last], t.index[ScopedKey(last.identity) := last.id])
  }

  datatype Op =
    | OpSubmit(identity: Identity, input: Value, newId: string)
    | OpTransition(id: string, to: TaskState, output: Option<Value>, error: Option<string>)
    | OpRetry(id: string)
    | OpRetryWithInput(id: string, input: Value)
    | OpPrune(cutoff: nat)
    | OpRecover

  function Apply(t: Table, op: Op, now: nat): Table {
    match op
    case OpSubmit(identity, input, newId) => Submit(t, identity, input, newId, now).table
    case OpTransition(id, to, output, error) =>
      var r := Transition(t, id, to, output, error, now);
      if r.Ok? then WithTask(t, r.value) else t
    case OpRetry(id) =>
      var r := Retry(t, id, now);
      if r.Ok? then WithTask(t, r.value) else t
    case OpRetryWithInput(id, input) =>
      var r := RetryWithInput(t, id, input, now);
      if r.Ok? then WithTask(t, r.value) else t
    case OpPrune(cutoff) => Prune(t, cutoff)
    case OpRecover => RecoverOrphans(t, now)
  }

  // ----- The index is the inverse of the table -----

  ghost predicate Indexed(t: Table) {
    && (forall id :: id in t.tasks ==>
          && t.tasks[id].id == id
          && ScopedKey(t.tasks[id].identity) in t.index && t.index[ScopedKey(t.tasks[id].identity)] == id)
    && (forall k :: k in t.index ==> t.index[k] in t.tasks && ScopedKey(t.tasks[t.index[k]].identity) == k)
  }

  /** Tasks were submitted with separable identities. */
  ghost predicate AllSeparable(t: Table) {
    forall id :: id in t.tasks ==> Separable(t.tasks[id].identity)
  }

  /** A request is answered by a stored task exactly when one has its key. */
  lemma SubmitAnswersByKey(t: Table, identity: Identity, input: Value, newId: string, now: nat)
    requires Indexed(t) && newId !in t.tasks
    ensures var s := Submit(t, identity, input, newId, now);
            && (s.reused <==> exists id :: id in t.tasks && ScopedKey(t.tasks[id].identity) == ScopedKey(identity))
            && ScopedKey(s.task.identity) == ScopedKey(identity)
            && (s.reused ==> s.table == t && s.task.id in t.tasks && t.tasks[s.task.id] == s.task)
            && (!s.reused ==>
                  && s.task.id == newId && s.task.identity == identity && s.task.input == input
                  && s.table.tasks == t.tasks[newId := s.task])
            && Indexed(s.table)
  {
    hide ScopedKey;
  }

  /** A request without separators, or any among requests with none before their last
      part, is answered by a stored task exactly when one has its identity. */
  lemma SubmitReusesExactly(t: Table, identity: Identity, input: Value, newId: string, now: nat)
    requires Indexed(t) && newId !in t.tasks
    requires Clean(identity) || (AllSeparable(t) && Separable(identity))
    ensures var s := Submit(t, identity, input, newId, now);
            && (s.reused <==> exists id :: id in t.tasks && t.tasks[id].identity == identity)
            && s.task.identity == identity
            && (AllSeparable(t) ==> AllSeparable(s.table))
  {
    hide ScopedKey;
    SubmitAnswersByKey(t, identity, input, newId, now);
    var s := Submit(t, identity, input, newId, now);
    if s.reused {
      if Clean(identity) {
        CleanByKey(identity, s.task.identity);
      }
      KeyIsInjective(identity, s.task.identity);
    }
  }

  lemma ReplacedStaysIndexed(t: Table, task: Task)
    requires Indexed(t) && task.id in t.tasks && task.identity == t.tasks[task.id].identity
    ensures Indexed(WithTask(t, task))
  {
  }

  lemma PruneStaysIndexed(t: Table, cutoff: nat)
    requires Indexed(t)
    ensures Indexed(Prune(t, cutoff))
    ensures forall id :: id in Prune(t, cutoff).tasks <==> id in t.tasks && !Prunable(t.tasks[id], cutoff)
  {
    var removed := set id | id in t.tasks && Prunable(t.tasks[id], cutoff);
    var p := Prune(t, cutoff);
    forall id | id in p.tasks ensures ScopedKey(p.tasks[id].identity) in p.index {
      var k := ScopedKey(t.tasks[id].identity);
      forall other | other in removed ensures ScopedKey(t.tasks[other].identity) != k {
        assert t.index[k] == id;
      }
    }
    forall k | k in p.index ensures p.index[k] in p.tasks {
      assert t.index[k] !in removed;
    }
  }

  ghost predicate Admits(t: Table, op: Op) {
    op.OpSubmit? ==> op.newId !in t.tasks
  }

  lemma ApplyStaysIndexed(t: Table, op: Op, now: nat)
    requires Indexed(t) && Admits(t, op)
    ensures Indexed(Apply(t, op, now))
  {
    hide ScopedKey;
    match op
    case OpSubmit(identity, input, newId) => SubmitAnswersByKey(t, identity, input, newId, now);
    case OpTransition(id, to, output, error) =>
      if Transition(t, id, to, output, error, now).Ok? {
        ReplacedStaysIndexed(t, Transitioned(t.tasks[id], to, output, error, now));
      }
    case OpRetry(id) =>
      if Retry(t, id, now).Ok? {
        ReplacedStaysIndexed(t, Retried(t.tasks[id], now));
      }
    case OpRetryWithInput(id, input) =>
      if RetryWithInput(t, id, input, now).Ok? {
        ReplacedStaysIndexed(t, RetryWithInput(t, id, input, now).value);
      }
    case OpPrune(cutoff) => PruneStaysIndexed(t, cutoff);
    case OpRecover => RecoverStaysIndexed(t, now);
  }

  lemma RecoverStaysIndexed(t: Table, now: nat)
    requires Indexed(t)
    ensures Indexed(RecoverOrphans(t, now))
  {
    hide ScopedKey;
  }

  ghost predicate ValidOps(t: Table, ops: seq<(Op, nat)>)
    decreases |ops|
  {
    ops == [] || (Admits(t, ops[0].0) && ValidOps(Apply(t, ops[0].0, ops[0].1), ops[1..]))
  }

  function ApplyAll(t: Table, ops: seq<(Op, nat)>): Table
    decreases |ops|
  {
    if ops == [] then t else ApplyAll(Apply(t, ops[0].0, ops[0].1), ops[1..])
  }

  /** In every reachable table the index is the exact inverse of the table. */
  lemma {:induction false} ReachableIsIndexed(t: Table, ops: seq<(Op, nat)>)
    requires Indexed(t) && ValidOps(t, ops)
    ensures Indexed(ApplyAll(t, ops))
    decreases |ops|
  {
    if ops != [] {
      ApplyStaysIndexed(t, ops[0].0, ops[0].1);
      ReachableIsIndexed(Apply(t, ops[0].0, ops[0].1), ops[1..]);
    }
  }

  /** Whatever was done before, a request is answered with a task of its own identity. */
  ghost predicate AlwaysOwn(identity: Identity) {
    forall ops, input, newId, now ::
      ValidOps(EMPTY_TABLE, ops) && newId !in ApplyAll(EMPTY_TABLE, ops).tasks ==>
        Submit(ApplyAll(EMPTY_TABLE, ops), identity, input, newId, now).task.identity == identity
  }

  /** A request can be answered with the task of another one exactly when a part of it
      has a separator: the other one is submitted first. */
  lemma AnsweredWithOwnIffClean(identity: Identity)
    ensures Clean(identity) <==> AlwaysOwn(identity)
  {
    hide ScopedKey;
    if Clean(identity) {
      forall ops, input, newId, now | ValidOps(EMPTY_TABLE, ops) && newId !in ApplyAll(EMPTY_TABLE, ops).tasks
        ensures Submit(ApplyAll(EMPTY_TABLE, ops), identity, input, newId, now).task.identity == identity
      {
        ReachableIsIndexed(EMPTY_TABLE, ops);
        SubmitReusesExactly(ApplyAll(EMPTY_TABLE, ops), identity, input, newId, now);
      }
    } else {
      var other := SeparatorsCollide(identity);
      var input := Plain("");
      var ops := [(OpSubmit(other, input, "a"), 0)];
      assert ValidOps(EMPTY_TABLE, ops);
      var t := ApplyAll(EMPTY_TABLE, ops);
      assert ops[1..] == [] && t == ApplyAll(Apply(EMPTY_TABLE, ops[0].0, 0), ops[1..]);
      assert t == Submit(EMPTY_TABLE, other, input, "a", 0).table;
      assert Submit(t, identity, input, "b", 0).task.identity == other;
    }
  }

  // ----- Rebuilding from a snapshot -----

  /** `list` holds every task of the table, in any order. */
  ghost predicate Lists(t: Table, list: seq<Task>) {
    && (forall i :: 0 <= i < |list| ==> list[i].id in t.tasks && t.tasks[list[i].id] == list[i])
    && (forall id :: id in t.tasks ==> exists i :: 0 <= i < |list| && list[i].id == id)
  }

  ghost predicate Within(a: Table, b: Table) {
    && (forall id :: id in a.tasks ==> id in b.tasks && b.tasks[id] == a.tasks[id])
    && (forall k :: k in a.index ==> k in b.index && b.index[k] == a.index[k])
  }

  /** Rebuilding from some tasks of a table gives a part of it that has them all. */
  lemma {:induction false} RebuiltPart(t: Table, list: seq<Task>)
    requires Indexed(t)
    requires forall i :: 0 <= i < |list| ==> list[i].id in t.tasks && t.tasks[list[i].id] == list[i]
    ensures Within(FromTasks(list), t)
    ensures forall i :: 0 <= i < |list| ==>
      list[i].id in FromTasks(list).tasks && ScopedKey(list[i].identity) in FromTasks(list).index
  {
    hide ScopedKey;
    if list != [] {
      var shorter := list[..|list| - 1];
      assert forall i :: 0 <= i < |shorter| ==> shorter[i] == list[i];
      RebuiltPart(t, shorter);
    }
  }

  /** Rebuilding from a snapshot of a table gives the same table. */
  lemma RebuildIsIdentity(t: Table, list: seq<Task>)
    requires Indexed(t) && Lists(t, list)
    ensures FromTasks(list) == t
  {
    hide ScopedKey;
    RebuiltPart(t, list);
    var r := FromTasks(list);
    forall id | id in t.tasks ensures id in r.tasks && ScopedKey(t.tasks[id].identity) in r.index {
      var i :| 0 <= i < |list| && list[i].id == id;
    }
    forall k | k in t.index ensures k in r.index {
      assert t.index[k] in t.tasks;
    }
    assert r.tasks == t.tasks && r.index == t.index;
  }
}
