/**
 The loops of the Controller around payload files: externalising the copy a
 persist writes, applying its updates to the live table, and converting the
 markers an older release left behind.
 */
module PayloadFiles {
  import opened Base
  import opened Tasks
  import opened Payloads
  import opened TaskTableObject

  // ----- Externalising a copied table -----

  datatype Copied = Copied(tasks: seq<Task>, store: Store, updates: seq<Update>)

  predicate HasUpdate(u: Update) { u.input.Some? || u.output.Some? }

  /** Externalise a copy of a table in order; a payload that cannot be written
      ends the persist. */
  function ExternaliseAll(c: Codec, s: Store, tasks: seq<Task>): Option<Copied> {
    if tasks == [] then Some(Copied([], s, []))
    else
      var before := ExternaliseAll(c, s, tasks[..|tasks| - 1]);
      if before.None? then None
      else
        var d := before.value;
        var m := Externalise(c, d.store, tasks[|tasks| - 1]);
        if m.None? then None
        else Some(Copied(d.tasks + [m.value.task], m.value.store,
                         if HasUpdate(m.value.update) then d.updates + [m.value.update] else d.updates))
  }

  method ExternalizeTaskPayloads(c: Codec, s: Store, tasks: seq<Task>) returns (r: Option<Copied>)
    ensures r == ExternaliseAll(c, s, tasks)
  {
    var done, store, updates := [], s, [];
    var i := 0;
    while i < |tasks|
      invariant 0 <= i <= |tasks|
      invariant ExternaliseAll(c, s, tasks[..i]) == Some(Copied(done, store, updates))
    {
      assert tasks[..i + 1][..i] == tasks[..i];
      var m := Externalise(c, store, tasks[i]);
      if m.None? {
        FailsFrom(c, s, tasks, i + 1);
        return None;
      }
      done, store := done + [m.value.task], m.value.store;
      if HasUpdate(m.value.update) {
        updates := updates + [m.value.update];
      }
      i := i + 1;
    }
    assert tasks[..i] == tasks;
    r := Some(Copied(done, store, updates));
  }

  lemma {:induction false} FailsFrom(c: Codec, s: Store, tasks: seq<Task>, i: nat)
    requires i <= |tasks| && ExternaliseAll(c, s, tasks[..i]).None?
    ensures ExternaliseAll(c, s, tasks).None?
    decreases |tasks|
  {
    if i == |tasks| {
      assert tasks[..i] == tasks;
    } else {
      assert tasks[..|tasks| - 1][..i] == tasks[..i];
      FailsFrom(c, s, tasks[..|tasks| - 1], i);
    }
  }

  /** The state a persist saves reads like the table it copied. */
  lemma {:induction false} SavedStateReadsTheSame(c: Codec, s: Store, tasks: seq<Task>, logical: seq<Task>)
    requires Lawful(c) && |tasks| == |logical| && ExternaliseAll(c, s, tasks).Some?
    requires forall i :: 0 <= i < |tasks| ==> Mirrors(c, s, tasks[i], logical[i])
    ensures var d := ExternaliseAll(c, s, tasks).value;
            && Grew(s, d.store) && |d.tasks| == |tasks|
            && forall i :: 0 <= i < |tasks| ==> Mirrors(c, d.store, d.tasks[i], logical[i])
  {
    if tasks != [] {
      var n := |tasks| - 1;
      SavedStateReadsTheSame(c, s, tasks[..n], logical[..n]);
      var d := ExternaliseAll(c, s, tasks[..n]).value;
      var m := Externalise(c, d.store, tasks[n]).value;
      MirrorsStays(c, s, d.store, tasks[n], logical[n]);
      ExternaliseWell(c, d.store, tasks[n]);
      forall i | 0 <= i < n ensures Mirrors(c, m.store, d.tasks[i], logical[i]) {
        assert Mirrors(c, d.store, d.tasks[i], logical[..n][i]);
        MirrorsStays(c, d.store, m.store, d.tasks[i], logical[i]);
      }
    }
  }

  // ----- Applying the updates -----

  function ApplyUpdates(t: Table, updates: seq<Update>): Table {
    if updates == [] then t
    else
      var u := updates[|updates| - 1];
      ApplyOutput(ApplyInput(ApplyUpdates(t, updates[..|updates| - 1]), u), u)
  }

  method CommitUpdates(table: TaskTable, updates: seq<Update>)
    modifies table
    ensures table.View() == ApplyUpdates(old(table.View()), updates)
  {
    var i := 0;
    while i < |updates|
      invariant 0 <= i <= |updates|
      invariant table.View() == ApplyUpdates(old(table.View()), updates[..i])
    {
      var u := updates[i];
      assert updates[..i + 1][..i] == updates[..i];
      if u.input.Some? {
        var _ := table.ReplaceInputRefIfUnchanged(u.id, u.revision, MarkerOf(u.input.value), u.input.value);
      }
      if u.output.Some? {
        var _ := table.ReplaceOutputRefIfUnchanged(u.id, u.revision, MarkerOf(u.output.value), u.output.value);
      }
      i := i + 1;
    }
    assert updates[..i] == updates;
  }

  /** Applying updates in bulk is the commit steps of the system, one by one. */
  lemma {:induction false} BulkCommitIsStepwise(c: Codec, y: Sys, updates: seq<Update>)
    requires Good(c, y) && forall u :: u in updates ==> u in y.updates
    ensures Good(c, y.(table := ApplyUpdates(y.table, updates)))
  {
    hide Good, ApplyInput, ApplyOutput;
    if updates != [] {
      var n := |updates| - 1;
      BulkCommitIsStepwise(c, y, updates[..n]);
      var before := y.(table := ApplyUpdates(y.table, updates[..n]));
      CommitInputKeeps(c, before, updates[n]);
      CommitOutputKeeps(c, Take(c, before, CommitInput(updates[n])), updates[n]);
    } else {
      assert y.(table := ApplyUpdates(y.table, updates)) == y;
    }
  }

  // ----- Converting deployed markers -----

  datatype Field = Field(value: Value, reference: Option<PayloadRef>, store: Store)

  /** A field with a deployed marker: the value of a task that has ended moves to a
      current payload file, any other becomes the value itself. */
  function MigrateField(c: Codec, f: Field, terminal: bool): Option<Field> {
    match DeployedValue(c, f.store, f.value)
    case Err(_) => None
    case Ok(None) => Some(f)
    case Ok(Some(restored)) =>
      if f.reference.Some? then None
      else if !terminal then Some(f.(value := restored))
      else
        var w := WritePayload(c, f.store, c.encode(restored));
        if w.None? then None
        else Some(Field(MarkerOf(w.value.reference), Some(w.value.reference), w.value.store))
  }

  function MigrateTask(c: Codec, s: Store, t: Task): Option<(Task, Store)> {
    var input := MigrateField(c, Field(t.input, t.inputRef, s), t.state.Terminal());
    if input.None? then None
    else
      var i := input.value;
      if t.output.None? then Some((t.(input := i.value, inputRef := i.reference), i.store))
      else
        var output := MigrateField(c, Field(t.output.value, t.outputRef, i.store), t.state.Terminal());
        if output.None? then None
        else
          var o := output.value;
          Some((t.(input := i.value, inputRef := i.reference, output := Some(o.value), outputRef := o.reference), o.store))
  }

  /** What the older release's files hold are values, not markers again. */
  ghost predicate DeployedIsPlain(c: Codec, s: Store, v: Value) {
    var d := DeployedValue(c, s, v);
    d.Ok? && d.value.Some? ==> d.value.value.Plain?
  }

  /** Migration of a field changes neither what a reader sees nor any other file. */
  lemma MigratedFieldReadsTheSame(c: Codec, f: Field, terminal: bool)
    requires Lawful(c) && DeployedIsPlain(c, f.store, f.value) && MigrateField(c, f, terminal).Some?
    ensures var g := MigrateField(c, f, terminal).value;
            && Grew(f.store, g.store)
            && (Resolve(c, f.store, f.value, f.reference).Some? ==>
                  Resolve(c, g.store, g.value, g.reference) == Resolve(c, f.store, f.value, f.reference))
            && (g.value.Plain? || g.reference == f.reference)
            && (!terminal ==> g.value.Plain?)
  {
    var d := DeployedValue(c, f.store, f.value);
    var g := MigrateField(c, f, terminal).value;
    if d.value.Some? && terminal {
      WrittenIsReadable(c, f.store, d.value.value);
    }
  }

  lemma ResolveStays(c: Codec, s: Store, s': Store, v: Value, r: Option<PayloadRef>)
    requires Grew(s, s') && Resolve(c, s, v, r).Some?
    ensures Resolve(c, s', v, r) == Resolve(c, s, v, r)
  {
    if r.Some? {
      ReadStays(c, s, s', r.value);
    }
  }

  /** What the older release's files hold for this task are values. */
  ghost predicate HoldsPlain(c: Codec, s: Store, t: Task) {
    DeployedIsPlain(c, s, t.input) && (t.output.Some? ==> DeployedIsPlain(c, s, t.output.value))
  }

  /** `t'` differs from `t` only in how its values are kept, and whatever a reader could
      see of `t` is seen of `t'`. */
  ghost predicate ReadsTheSame(c: Codec, s: Store, t: Task, s': Store, t': Task) {
    && Frame(t') == Frame(t)
    && (Resolve(c, s, t.input, t.inputRef).Some? ==>
          Resolve(c, s', t'.input, t'.inputRef) == Resolve(c, s, t.input, t.inputRef))
    && (ResolveOutput(c, s, t).Some? ==> ResolveOutput(c, s', t') == ResolveOutput(c, s, t))
  }

  /** What could be read of a task before migration reads the same after it. */
  lemma MigratedTaskReadsTheSame(c: Codec, s: Store, t: Task)
    requires Lawful(c) && MigrateTask(c, s, t).Some? && HoldsPlain(c, s, t)
    ensures var (t', s') := MigrateTask(c, s, t).value; Grew(s, s') && ReadsTheSame(c, s, t, s', t')
  {
    var (t', s') := MigrateTask(c, s, t).value;
    var i := MigrateField(c, Field(t.input, t.inputRef, s), t.state.Terminal()).value;
    MigratedFieldReadsTheSame(c, Field(t.input, t.inputRef, s), t.state.Terminal());
    if t.output.Some? {
      var f := Field(t.output.value, t.outputRef, i.store);
      MigratedFieldReadsTheSame(c, f, t.state.Terminal());
      if Resolve(c, s, t.output.value, t.outputRef).Some? {
        ResolveStays(c, s, i.store, t.output.value, t.outputRef);
      }
      if Resolve(c, s, t.input, t.inputRef).Some? {
        ResolveStays(c, i.store, s', i.value, i.reference);
      }
    } else if t.outputRef.Some? && ResolveOutput(c, s, t).Some? {
      ResolveStays(c, s, i.store, MalformedDeployed, t.outputRef);
    }
  }

  /** Files written later change nothing a reader could see. */
  lemma ReadsOn(c: Codec, s: Store, t: Task, s1: Store, t': Task, s2: Store)
    requires ReadsTheSame(c, s, t, s1, t') && Grew(s1, s2)
    ensures ReadsTheSame(c, s, t, s2, t')
  {
    if Resolve(c, s, t.input, t.inputRef).Some? {
      ResolveStays(c, s1, s2, t'.input, t'.inputRef);
    }
    if ResolveOutput(c, s, t).Some? && ResolveOutput(c, s, t).value.Some? {
      ResolveStays(c, s1, s2, if t'.output.Some? then t'.output.value else MalformedDeployed, t'.outputRef);
    }
  }

  /** A task not yet migrated, seen from the store the earlier ones have left. */
  lemma ReadsFromLater(c: Codec, s: Store, s1: Store, t: Task, s2: Store, t': Task)
    requires Grew(s, s1) && ReadsTheSame(c, s1, t, s2, t')
    ensures ReadsTheSame(c, s, t, s2, t')
  {
    if Resolve(c, s, t.input, t.inputRef).Some? {
      ResolveStays(c, s, s1, t.input, t.inputRef);
    }
    if ResolveOutput(c, s, t).Some? && ResolveOutput(c, s, t).value.Some? {
      ResolveStays(c, s, s1, if t.output.Some? then t.output.value else MalformedDeployed, t.outputRef);
    }
  }

  function MigrateAll(c: Codec, s: Store, tasks: seq<Task>): Option<(seq<Task>, Store)> {
    if tasks == [] then Some(([], s))
    else
      var before := MigrateAll(c, s, tasks[..|tasks| - 1]);
      if before.None? then None
      else
        var m := MigrateTask(c, before.value.1, tasks[|tasks| - 1]);
        if m.None? then None else Some((before.value.0 + [m.value.0], m.value.1))
  }

  /** Every task of the list reads in the new store as it did in the old one. */
  ghost predicate AllReadTheSame(c: Codec, s: Store, tasks: seq<Task>, s': Store, tasks': seq<Task>) {
    |tasks'| == |tasks| && forall i :: 0 <= i < |tasks| ==> ReadsTheSame(c, s, tasks[i], s', tasks'[i])
  }

  ghost predicate AllHoldPlain(c: Codec, s: Store, tasks: seq<Task>) {
    forall i :: 0 <= i < |tasks| ==> HoldsPlain(c, s, tasks[i])
  }

  /** Migrating a whole table keeps, in the final store, what every task reads as,
      although each later task adds files under the earlier ones. */
  lemma {:induction false} MigratedTableReadsTheSame(c: Codec, s: Store, tasks: seq<Task>)
    requires Lawful(c) && AllHoldPlain(c, s, tasks) && MigrateAll(c, s, tasks).Some?
    ensures var (tasks', s') := MigrateAll(c, s, tasks).value; Grew(s, s') && AllReadTheSame(c, s, tasks, s', tasks')
    decreases |tasks|
  {
    hide Lawful, MigrateTask, ReadsTheSame;
    if tasks != [] {
      var n := |tasks| - 1;
      assert AllHoldPlain(c, s, tasks[..n]);
      MigratedTableReadsTheSame(c, s, tasks[..n]);
      var (done, s1) := MigrateAll(c, s, tasks[..n]).value;
      assert HoldsPlain(c, s1, tasks[n]);
      MigratedTaskReadsTheSame(c, s1, tasks[n]);
      var (t', s2) := MigrateTask(c, s1, tasks[n]).value;
      ReadsFromLater(c, s, s1, tasks[n], s2, t');
      forall i | 0 <= i < n ensures ReadsTheSame(c, s, tasks[i], s2, (done + [t'])[i]) {
        assert tasks[..n][i] == tasks[i];
        ReadsOn(c, s, tasks[i], s1, done[i], s2);
      }
    }
  }

  method MigrateDeployedTaskPayloads(c: Codec, s: Store, tasks: seq<Task>) returns (r: Option<(seq<Task>, Store)>)
    ensures r == MigrateAll(c, s, tasks)
    ensures Lawful(c) && AllHoldPlain(c, s, tasks) && r.Some? ==>
      Grew(s, r.value.1) && AllReadTheSame(c, s, tasks, r.value.1, r.value.0)
  {
    hide Lawful, AllHoldPlain, AllReadTheSame, Grew;
    var done, store := [], s;
    var i := 0;
    while i < |tasks|
      invariant 0 <= i <= |tasks|
      invariant MigrateAll(c, s, tasks[..i]) == Some((done, store))
    {
      assert tasks[..i + 1][..i] == tasks[..i];
      var m := MigrateTask(c, store, tasks[i]);
      if m.None? {
        MigrationFailsFrom(c, s, tasks, i + 1);
        return None;
      }
      done, store := done + [m.value.0], m.value.1;
      i := i + 1;
    }
    assert tasks[..i] == tasks;
    r := Some((done, store));
    if Lawful(c) && AllHoldPlain(c, s, tasks) {
      MigratedTableReadsTheSame(c, s, tasks);
    }
  }

  lemma {:induction false} MigrationFailsFrom(c: Codec, s: Store, tasks: seq<Task>, i: nat)
    requires i <= |tasks| && MigrateAll(c, s, tasks[..i]).None?
    ensures MigrateAll(c, s, tasks).None?
    decreases |tasks|
  {
    if i == |tasks| {
      assert tasks[..i] == tasks;
    } else {
      assert tasks[..|tasks| - 1][..i] == tasks[..i];
      MigrationFailsFrom(c, s, tasks[..|tasks| - 1], i);
    }
  }
}
