/**
 When values are moved and read: a marker of the older release resolves exactly to what its
 intact file holds, and an undisturbed persist moves out exactly the large values of tasks
 that have ended.
 */
module PayloadLaws {
  import opened Base
  import opened Tasks
  import opened Payloads
  import opened PayloadFiles

  // ----- Markers of the older release -----

  /** The file is there, has the stated length and digest, and decodes. */
  predicate IntactFile(c: Codec, files: map<string, Bytes>, sha256: string, bytes: nat) {
    && sha256 in files && |files[sha256]| == bytes && c.digest(files[sha256]) == "sha256:" + sha256
    && c.decode(files[sha256]).Some?
  }

  /** A well-formed marker reads as the decoded file exactly when that is intact, and as an
      error otherwise; a malformed one is always an error, and a plain value is itself. */
  lemma DeployedResolvesIff(c: Codec, s: Store, sha256: string, bytes: nat, json: string)
    ensures Resolve(c, s, Deployed(sha256, bytes), None) ==
      if IntactFile(c, s.deployed, sha256, bytes) then c.decode(s.deployed[sha256]) else None
    ensures Resolve(c, s, MalformedDeployed, None) == None
    ensures Resolve(c, s, Plain(json), None) == Some(Plain(json))
  {
  }

  /** A reference reads as the decoded payload file exactly when that is intact; a marker in
      that file is followed once more. */
  lemma ReferenceResolvesIff(c: Codec, s: Store, v: Value, r: PayloadRef)
    ensures
      var intact := r.digest in s.payloads && |s.payloads[r.digest]| == r.bytes
        && c.digest(s.payloads[r.digest]) == r.digest && c.decode(s.payloads[r.digest]).Some?;
      Resolve(c, s, v, Some(r)) == if intact then Resolve(c, s, c.decode(s.payloads[r.digest]).value, None) else None
  {
  }

  // ----- Moving large values out -----

  /** Every payload file is named by the digest of its content. */
  ghost predicate Intact(c: Codec, s: Store) {
    forall d :: d in s.payloads ==> c.digest(s.payloads[d]) == d
  }

  lemma IntactWrites(c: Codec, s: Store, bytes: Bytes)
    requires Lawful(c) && Intact(c, s)
    ensures WritePayload(c, s, bytes).Some?
    ensures var w := WritePayload(c, s, bytes).value;
      && Intact(c, w.store) && w.reference == PayloadRef(c.digest(bytes), |bytes|)
      && w.store == s.(payloads := s.payloads[c.digest(bytes) := bytes])
  {
    var d := c.digest(bytes);
    if d in s.payloads {
      assert c.digest(s.payloads[d]) == c.digest(bytes);
      assert s.payloads[d := bytes] == s.payloads;
    }
  }

  /** More than sixty-four kilobytes when encoded. */
  predicate Large(c: Codec, v: Value) { |c.encode(v)| > 65_536 }

  function ReferenceTo(c: Codec, v: Value): PayloadRef { PayloadRef(c.digest(c.encode(v)), |c.encode(v)|) }

  /** The reference a persist gives to a value: the one it has, or one to its content when
      the task has ended and the value is large. */
  function NewReference(c: Codec, ended: bool, v: Option<Value>, r: Option<PayloadRef>): Option<PayloadRef> {
    if r.Some? then r else if ended && v.Some? && Large(c, v.value) then Some(ReferenceTo(c, v.value)) else None
  }

  /** An intact store never stops a persist. It moves out exactly the large values of tasks
      that have ended, each into the file of its digest, and leaves everything else. */
  lemma ExternalisedIff(c: Codec, s: Store, t: Task)
    requires Lawful(c) && Intact(c, s)
    ensures Externalise(c, s, t).Some?
    ensures
      var m := Externalise(c, s, t).value;
      && Intact(c, m.store) && Frame(m.task) == Frame(t)
      && m.task.inputRef == NewReference(c, t.state.Terminal(), Some(t.input), t.inputRef)
      && m.task.outputRef == NewReference(c, t.state.Terminal(), t.output, t.outputRef)
      && (m.task.inputRef == t.inputRef ==> m.task.input == t.input)
      && (m.task.outputRef == t.outputRef ==> m.task.output == t.output)
      && m.update.id == t.id && m.update.revision == t.revision
      && m.update.input == (if t.inputRef.None? then m.task.inputRef else None)
      && m.update.output == (if t.outputRef.None? then m.task.outputRef else None)
  {
    hide WritePayload;
    if t.state.Terminal() {
      IntactWrites(c, s, c.encode(t.input));
      var m := MoveInput(c, s, t).value;
      if t.output.Some? {
        IntactWrites(c, m.store, c.encode(t.output.value));
      }
    }
  }

  /** An update is applied exactly to the task it was made from, unchanged and without a
      reference, and touches no other. */
  lemma CommittedIff(t: Table, u: Update, id: string)
    requires id in t.tasks
    ensures
      var after := ApplyOutput(ApplyInput(t, u), u);
      var live := t.tasks[id];
      var mine := u.id == id && u.revision == live.revision;
      && after.index == t.index && after.tasks.Keys == t.tasks.Keys
      && Frame(after.tasks[id]) == Frame(live)
      && after.tasks[id].inputRef == (if mine && u.input.Some? && live.inputRef.None? then u.input else live.inputRef)
      && after.tasks[id].outputRef == (if mine && u.output.Some? && live.outputRef.None? then u.output else live.outputRef)
      && (after.tasks[id].inputRef == live.inputRef ==> after.tasks[id].input == live.input)
      && (after.tasks[id].outputRef == live.outputRef ==> after.tasks[id].output == live.output)
  {
  }

  /** The update a persist makes of a task. */
  ghost function UpdateOf(c: Codec, s: Store, t: Task): Update
    requires Lawful(c) && Intact(c, s)
  {
    ExternalisedIff(c, s, t);
    Externalise(c, s, t).value.update
  }

  /** A persist that nothing disturbs between its copy and its commit leaves the live task
      with exactly its large values moved out, if it has ended. */
  lemma PersistMovesLargeValues(c: Codec, y: Sys, id: string)
    requires Lawful(c) && Good(c, y) && Intact(c, y.store) && id in y.table.tasks
    ensures
      var live := y.table.tasks[id];
      var copied := Take(c, y, Snapshot);
      var moved := Take(c, copied, ExternaliseCopy(live));
      var u := UpdateOf(c, y.store, live);
      var after := Take(c, Take(c, moved, CommitInput(u)), CommitOutput(u)).table.tasks;
      && Enabled(copied, ExternaliseCopy(live))
      && Enabled(moved, CommitInput(u)) && Enabled(Take(c, moved, CommitInput(u)), CommitOutput(u))
      && id in after
      && after[id].inputRef == NewReference(c, live.state.Terminal(), Some(live.input), live.inputRef)
      && after[id].outputRef == NewReference(c, live.state.Terminal(), live.output, live.outputRef)
  {
    hide Good, Externalise, ApplyInput, ApplyOutput, TableMirrors, CopiesHold, UpdatesHold;
    var live := y.table.tasks[id];
    assert live.id == id by {
      NamedAt(c, y, id);
    }
    ExternalisedIff(c, y.store, live);
    CommittedIff(y.table, Externalise(c, y.store, live).value.update, id);
  }

  lemma NamedAt(c: Codec, y: Sys, id: string)
    requires Good(c, y) && id in y.table.tasks
    ensures y.table.tasks[id].id == id
  {
    hide TableMirrors, CopiesHold, UpdatesHold;
  }

  // ----- Converting markers -----

  /** With an intact store a field is converted exactly when its marker, if it has one, is
      readable and no reference stands beside it; then no readable marker is left. */
  lemma MigratedIff(c: Codec, f: Field, terminal: bool)
    requires Lawful(c) && Intact(c, f.store)
    ensures MigrateField(c, f, terminal).Some? <==>
      || f.value.Plain?
      || (f.value.Deployed? && IntactFile(c, f.store.deployed, f.value.sha256, f.value.bytes) && f.reference.None?)
    ensures MigrateField(c, f, terminal).Some? && f.value.Deployed? ==>
      var restored := c.decode(f.store.deployed[f.value.sha256]).value;
      var g := MigrateField(c, f, terminal).value;
      if terminal then g.reference == Some(ReferenceTo(c, restored)) && g.value == MarkerOf(ReferenceTo(c, restored))
      else g == f.(value := restored)
    ensures f.value.Plain? ==> MigrateField(c, f, terminal) == Some(f)
  {
    hide WritePayload;
    if f.value.Deployed? && IntactFile(c, f.store.deployed, f.value.sha256, f.value.bytes) {
      IntactWrites(c, f.store, c.encode(c.decode(f.store.deployed[f.value.sha256]).value));
    }
  }
}
