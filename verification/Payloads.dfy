/**
 Large task values live outside the state file, in files named by the digest of
 their content. A persist copies the table, writes the files and the state, and
 only then moves the values out of the live tasks, if those are still the ones
 it copied. Readers never notice. JSON and SHA-256 enter as any codec whose
 decoder inverts its encoder and whose digest does not collide.
 */
module Payloads {
  import opened Base
  import opened Tasks

  datatype Codec = Codec(encode: Value -> Bytes, decode: Bytes -> Option<Value>, digest: Bytes -> string)

  ghost predicate Lawful(c: Codec) {
    && (forall v :: c.decode(c.encode(v)) == Some(v))
    && (forall a, b :: c.digest(a) == c.digest(b) ==> a == b)
  }

  /** The two payload directories, by digest: the current one and an older one. */
  datatype Store = Store(payloads: map<string, Bytes>, deployed: map<string, Bytes>)

  const INLINE_LIMIT: nat := 64 * 1024

  /** Read a file and check its size and digest. */
  function ReadBytes(c: Codec, files: map<string, Bytes>, name: string, size: nat, digest: string): Option<Bytes> {
    if name in files && |files[name]| == size && c.digest(files[name]) == digest then Some(files[name]) else None
  }

  function ReadPayload(c: Codec, s: Store, r: PayloadRef): Option<Value> {
    var bytes := ReadBytes(c, s.payloads, r.digest, r.bytes, r.digest);
    if bytes.None? then None else c.decode(bytes.value)
  }

  datatype Written = Written(store: Store, reference: PayloadRef)

  /** Write a payload file, or check the one that is already there. */
  function WritePayload(c: Codec, s: Store, bytes: Bytes): Option<Written> {
    var digest := c.digest(bytes);
    var reference := PayloadRef(digest, |bytes|);
    if digest !in s.payloads then Some(Written(s.(payloads := s.payloads[digest := bytes]), reference))
    else if ReadBytes(c, s.payloads, digest, |bytes|, digest).None? then None
    else Some(Written(s, reference))
  }

  /** The object that stands in a task for a value kept in a file. */
  function MarkerOf(r: PayloadRef): Value { Plain("$taskPayloadRef:" + r.digest) }

  // ----- What a reader sees -----

  /** The value an older release put in a file of its own, when `v` says so. */
  function DeployedValue(c: Codec, s: Store, v: Value): Result<Option<Value>, ()> {
    match v
    case Plain(_) => Ok(None)
    case MalformedDeployed => Err(())
    case Deployed(sha256, bytes) =>
      var content := ReadBytes(c, s.deployed, sha256, bytes, "sha256:" + sha256);
      if content.None? || c.decode(content.value).None? then Err(()) else Ok(c.decode(content.value))
  }

  /** A value as `task_with_payload` returns it; `None` is an error. */
  function Resolve(c: Codec, s: Store, v: Value, r: Option<PayloadRef>): Option<Value> {
    var base := if r.Some? then ReadPayload(c, s, r.value) else Some(v);
    if base.None? then None
    else
      match DeployedValue(c, s, base.value)
      case Err(_) => None
      case Ok(None) => base
      case Ok(Some(restored)) => Some(restored)
  }

  function ResolveOutput(c: Codec, s: Store, t: Task): Option<Option<Value>> {
    if t.output.None? && t.outputRef.None? then Some(None)
    else
      var v := Resolve(c, s, if t.output.Some? then t.output.value else MalformedDeployed, t.outputRef);
      if v.None? then None else Some(Some(v.value))
  }

  // ----- Moving values out -----

  datatype Update = Update(id: string, revision: nat, input: Option<PayloadRef>, output: Option<PayloadRef>)

  datatype Moved = Moved(task: Task, store: Store, update: Update)

  function MoveInput(c: Codec, s: Store, t: Task): Option<Moved> {
    var none := Update(t.id, t.revision, None, None);
    if t.inputRef.Some? || |c.encode(t.input)| <= INLINE_LIMIT then Some(Moved(t, s, none))
    else
      var w := WritePayload(c, s, c.encode(t.input));
      if w.None? then None
      else Some(Moved(t.(input := MarkerOf(w.value.reference), inputRef := Some(w.value.reference)),
                      w.value.store, none.(input := Some(w.value.reference))))
  }

  function MoveOutput(c: Codec, s: Store, t: Task, u: Update): Option<Moved> {
    if t.output.None? || t.outputRef.Some? || |c.encode(t.output.value)| <= INLINE_LIMIT then Some(Moved(t, s, u))
    else
      var w := WritePayload(c, s, c.encode(t.output.value));
      if w.None? then None
      else Some(Moved(t.(output := Some(MarkerOf(w.value.reference)), outputRef := Some(w.value.reference)),
                      w.value.store, u.(output := Some(w.value.reference))))
  }

  /** Externalise one terminal task of a copy. */
  function Externalise(c: Codec, s: Store, t: Task): Option<Moved> {
    if !t.state.Terminal() then Some(Moved(t, s, Update(t.id, t.revision, None, None)))
    else
      var m := MoveInput(c, s, t);
      if m.None? then None else MoveOutput(c, m.value.store, m.value.task, m.value.update)
  }

  function ApplyInput(t: Table, u: Update): Table {
    if u.input.None? then t else ReplaceInput(t, u.id, u.revision, MarkerOf(u.input.value), u.input.value)
  }

  function ApplyOutput(t: Table, u: Update): Table {
    if u.output.None? then t else ReplaceOutput(t, u.id, u.revision, MarkerOf(u.output.value), u.output.value)
  }

  // ----- The system: task operations and any number of persists -----

  /** The live table, the files, the ids ever used, the copies being persisted and
      the updates not yet applied; `logical` is the table if nothing were moved. */
  datatype Sys = Sys(table: Table, logical: Table, store: Store, used: set<string>, copies: set<Task>, updates: set<Update>)

  datatype Step =
    | Work(op: Op, now: nat)
    | Snapshot
    | ExternaliseCopy(t: Task)
    | CommitInput(u: Update)
    | CommitOutput(u: Update)

  ghost predicate Enabled(y: Sys, step: Step) {
    match step
    case Work(op, _) => op.OpSubmit? ==> op.newId !in y.used
    case Snapshot => true
    case ExternaliseCopy(t) => t in y.copies
    case CommitInput(u) => u in y.updates
    case CommitOutput(u) => u in y.updates
  }

  function Take(c: Codec, y: Sys, step: Step): Sys {
    match step
    case Work(op, now) =>
      y.(table := Apply(y.table, op, now), logical := Apply(y.logical, op, now),
         used := if op.OpSubmit? then y.used + {op.newId} else y.used)
    case Snapshot => y.(copies := y.copies + set id | id in y.table.tasks :: y.table.tasks[id])
    case ExternaliseCopy(t) =>
      var m := Externalise(c, y.store, t);
      if m.None? then y else y.(store := m.value.store, updates := y.updates + {m.value.update})
    case CommitInput(u) => y.(table := ApplyInput(y.table, u))
    case CommitOutput(u) => y.(table := ApplyOutput(y.table, u))
  }

  // ----- The invariant -----

  /** The stored value, or the file its reference names, is `logical`. */
  ghost predicate StandsFor(c: Codec, s: Store, v: Option<Value>, r: Option<PayloadRef>, logical: Option<Value>) {
    if r.Some? then v.Some? && logical.Some? && ReadPayload(c, s, r.value) == logical else v == logical
  }

  /** The task without its values. */
  function Frame(t: Task): Task { t.(input := Plain(""), inputRef := None, output := None, outputRef := None) }

  ghost predicate Mirrors(c: Codec, s: Store, t: Task, logical: Task) {
    && Frame(t) == Frame(logical) && logical.inputRef.None? && logical.outputRef.None?
    && StandsFor(c, s, Some(t.input), t.inputRef, Some(logical.input))
    && StandsFor(c, s, t.output, t.outputRef, logical.output)
  }

  /** A copy is no newer than the live task, and while it is as new, a value that
      has not been moved out is the value that was copied. */
  ghost predicate CopyHolds(t: Task, live: Task) {
    && t.revision <= live.revision
    && (t.revision == live.revision ==>
          && (live.inputRef.None? ==> t.inputRef.None? && t.input == live.input)
          && (live.outputRef.None? ==> t.outputRef.None? && t.output == live.output))
  }

  /** An update that would still be applied names a file with the live value. */
  ghost predicate UpdateHolds(c: Codec, s: Store, u: Update, live: Task) {
    && u.revision <= live.revision
    && (u.revision == live.revision ==>
          && (u.input.Some? && live.inputRef.None? ==> ReadPayload(c, s, u.input.value) == Some(live.input))
          && (u.output.Some? && live.outputRef.None? ==> live.output.Some? && ReadPayload(c, s, u.output.value) == live.output))
  }

  ghost predicate TableMirrors(c: Codec, s: Store, table: Table, logical: Table) {
    && table.index == logical.index && table.tasks.Keys == logical.tasks.Keys
    && forall id :: id in table.tasks ==> Mirrors(c, s, table.tasks[id], logical.tasks[id])
  }

  ghost predicate Named(table: Table, used: set<string>) {
    forall id :: id in table.tasks ==> table.tasks[id].id == id && id in used
  }

  ghost predicate CopiesHold(table: Table, used: set<string>, copies: set<Task>) {
    forall t :: t in copies ==> t.id in used && (t.id in table.tasks ==> CopyHolds(t, table.tasks[t.id]))
  }

  ghost predicate UpdatesHold(c: Codec, s: Store, table: Table, used: set<string>, updates: set<Update>) {
    forall u :: u in updates ==> u.id in used && (u.id in table.tasks ==> UpdateHolds(c, s, u, table.tasks[u.id]))
  }

  ghost predicate Good(c: Codec, y: Sys) {
    && TableMirrors(c, y.store, y.table, y.logical)
    && Named(y.table, y.used)
    && CopiesHold(y.table, y.used, y.copies)
    && UpdatesHold(c, y.store, y.table, y.used, y.updates)
  }

  /** No revision can saturate in the next `n` steps. */
  ghost predicate Headroom(t: Table, n: nat) {
    forall id :: id in t.tasks ==> t.tasks[id].revision + n <= U64_MAX
  }

  // ----- Files -----

  /** Files are only added. */
  ghost predicate Grew(s: Store, s': Store) {
    s'.deployed == s.deployed && forall d :: d in s.payloads ==> d in s'.payloads && s'.payloads[d] == s.payloads[d]
  }

  lemma WrittenIsReadable(c: Codec, s: Store, v: Value)
    requires Lawful(c) && WritePayload(c, s, c.encode(v)).Some?
    ensures var w := WritePayload(c, s, c.encode(v)).value;
            Grew(s, w.store) && ReadPayload(c, w.store, w.reference) == Some(v)
  {
    var bytes := c.encode(v);
    if c.digest(bytes) in s.payloads {
      assert c.digest(s.payloads[c.digest(bytes)]) == c.digest(bytes);
    }
  }

  lemma ReadStays(c: Codec, s: Store, s': Store, r: PayloadRef)
    requires Grew(s, s') && ReadPayload(c, s, r).Some?
    ensures ReadPayload(c, s', r) == ReadPayload(c, s, r)
  {
  }

  lemma StandsForStays(c: Codec, s: Store, s': Store, v: Option<Value>, r: Option<PayloadRef>, l: Option<Value>)
    requires Grew(s, s') && StandsFor(c, s, v, r, l)
    ensures StandsFor(c, s', v, r, l)
  {
    if r.Some? {
      ReadStays(c, s, s', r.value);
    }
  }

  lemma StoreGrows(c: Codec, y: Sys, s': Store)
    requires Good(c, y) && Grew(y.store, s')
    ensures Good(c, y.(store := s'))
  {
    forall id | id in y.table.tasks ensures Mirrors(c, s', y.table.tasks[id], y.logical.tasks[id]) {
      var t, l := y.table.tasks[id], y.logical.tasks[id];
      assert Mirrors(c, y.store, t, l);
      StandsForStays(c, y.store, s', Some(t.input), t.inputRef, Some(l.input));
      StandsForStays(c, y.store, s', t.output, t.outputRef, l.output);
    }
    forall u | u in y.updates && u.id in y.table.tasks ensures UpdateHolds(c, s', u, y.table.tasks[u.id]) {
      assert UpdateHolds(c, y.store, u, y.table.tasks[u.id]);
      if u.input.Some? && ReadPayload(c, y.store, u.input.value).Some? {
        ReadStays(c, y.store, s', u.input.value);
      }
      if u.output.Some? && ReadPayload(c, y.store, u.output.value).Some? {
        ReadStays(c, y.store, s', u.output.value);
      }
    }
  }

  // ----- Externalising a copy -----

  /** The written task reads like the copied one, and its update names readable
      files of exactly the copied values. */
  ghost predicate MovedWell(c: Codec, s: Store, t: Task, m: Moved) {
    && Grew(s, m.store)
    && Frame(m.task) == Frame(t) && m.update.id == t.id && m.update.revision == t.revision
    && (m.update.input.Some? ==> t.inputRef.None? && ReadPayload(c, m.store, m.update.input.value) == Some(t.input))
    && (m.update.output.Some? ==>
          t.output.Some? && t.outputRef.None? && ReadPayload(c, m.store, m.update.output.value) == t.output)
    && (forall l: Task :: Mirrors(c, s, t, l) ==> Mirrors(c, m.store, m.task, l))
  }

  lemma MirrorsStays(c: Codec, s: Store, s': Store, t: Task, l: Task)
    requires Grew(s, s') && Mirrors(c, s, t, l)
    ensures Mirrors(c, s', t, l)
  {
    StandsForStays(c, s, s', Some(t.input), t.inputRef, Some(l.input));
    StandsForStays(c, s, s', t.output, t.outputRef, l.output);
  }

  lemma MoveInputWell(c: Codec, s: Store, t: Task)
    requires Lawful(c) && MoveInput(c, s, t).Some?
    ensures MovedWell(c, s, t, MoveInput(c, s, t).value)
    ensures MoveInput(c, s, t).value.update.output.None?
    ensures var m := MoveInput(c, s, t).value.task; m.output == t.output && m.outputRef == t.outputRef
  {
    var m := MoveInput(c, s, t).value;
    if m.update.input.Some? {
      WrittenIsReadable(c, s, t.input);
      forall l: Task | Mirrors(c, s, t, l) ensures Mirrors(c, m.store, m.task, l) {
        MirrorsStays(c, s, m.store, t, l);
      }
    }
  }

  lemma ExternaliseWell(c: Codec, s: Store, t: Task)
    requires Lawful(c) && Externalise(c, s, t).Some?
    ensures MovedWell(c, s, t, Externalise(c, s, t).value)
  {
    if t.state.Terminal() {
      MoveInputWell(c, s, t);
      var m := MoveInput(c, s, t).value;
      var n := MoveOutput(c, m.store, m.task, m.update).value;
      if n.update.output.Some? {
        WrittenIsReadable(c, m.store, t.output.value);
        if m.update.input.Some? {
          ReadStays(c, m.store, n.store, m.update.input.value);
        }
        forall l: Task | Mirrors(c, s, t, l) ensures Mirrors(c, n.store, n.task, l) {
          assert Mirrors(c, m.store, m.task, l);
          MirrorsStays(c, m.store, n.store, m.task, l);
        }
      }
    }
  }

  lemma ExternaliseKeeps(c: Codec, y: Sys, t: Task)
    requires Lawful(c) && Good(c, y) && t in y.copies
    ensures Good(c, Take(c, y, ExternaliseCopy(t)))
  {
    var m := Externalise(c, y.store, t);
    if m.Some? {
      ExternaliseWell(c, y.store, t);
      StoreGrows(c, y, m.value.store);
      var u := m.value.update;
      if t.id in y.table.tasks {
        assert CopyHolds(t, y.table.tasks[t.id]);
        assert UpdateHolds(c, m.value.store, u, y.table.tasks[t.id]);
      }
    }
  }

  // ----- Committing -----

  /** Values of a live task move out without its revision changing. */
  ghost predicate MovedOut(live: Task, live': Task) {
    && live'.id == live.id && live'.revision == live.revision
    && (live'.inputRef.None? ==> live.inputRef.None? && live'.input == live.input)
    && (live'.outputRef.None? ==> live.outputRef.None? && live'.output == live.output)
  }

  lemma MovedOutHolds(c: Codec, s: Store, t: Task, u: Update, live: Task, live': Task)
    requires MovedOut(live, live')
    ensures CopyHolds(t, live) ==> CopyHolds(t, live')
    ensures UpdateHolds(c, s, u, live) ==> UpdateHolds(c, s, u, live')
  {
  }

  lemma SwapKeeps(c: Codec, y: Sys, id: string, live': Task)
    requires Good(c, y) && id in y.table.tasks && MovedOut(y.table.tasks[id], live')
    requires Mirrors(c, y.store, live', y.logical.tasks[id])
    ensures Good(c, y.(table := y.table.(tasks := y.table.tasks[id := live'])))
  {
    hide Mirrors, CopyHolds, UpdateHolds;
    var live := y.table.tasks[id];
    var table := y.table.(tasks := y.table.tasks[id := live']);
    forall t | t in y.copies && t.id in table.tasks ensures CopyHolds(t, table.tasks[t.id]) {
      if t.id == id {
        MovedOutHolds(c, y.store, t, Update("", 0, None, None), live, live');
      }
    }
    forall u | u in y.updates && u.id in table.tasks ensures UpdateHolds(c, y.store, u, table.tasks[u.id]) {
      if u.id == id {
        MovedOutHolds(c, y.store, live, u, live, live');
      }
    }
    assert table.tasks.Keys == y.table.tasks.Keys;
  }

  lemma CommitInputKeeps(c: Codec, y: Sys, u: Update)
    requires Good(c, y) && u in y.updates
    ensures Good(c, Take(c, y, CommitInput(u)))
  {
    hide CopiesHold;
    if u.id in y.table.tasks && u.input.Some? && y.table.tasks[u.id].revision == u.revision && y.table.tasks[u.id].inputRef.None? {
      var live := y.table.tasks[u.id];
      assert UpdateHolds(c, y.store, u, live) && Mirrors(c, y.store, live, y.logical.tasks[u.id]);
      SwapKeeps(c, y, u.id, live.(input := MarkerOf(u.input.value), inputRef := u.input));
    }
  }

  lemma CommitOutputKeeps(c: Codec, y: Sys, u: Update)
    requires Good(c, y) && u in y.updates
    ensures Good(c, Take(c, y, CommitOutput(u)))
  {
    hide CopiesHold;
    if u.id in y.table.tasks && u.output.Some? && y.table.tasks[u.id].revision == u.revision && y.table.tasks[u.id].outputRef.None? {
      var live := y.table.tasks[u.id];
      assert UpdateHolds(c, y.store, u, live) && Mirrors(c, y.store, live, y.logical.tasks[u.id]);
      SwapKeeps(c, y, u.id, live.(output := Some(MarkerOf(u.output.value)), outputRef := u.output));
    }
  }

  // ----- Task operations -----

  /** A task is untouched, or changed with a larger revision. */
  ghost predicate Stepped(live: Task, live': Task) {
    live' == live || (live'.id == live.id && live.revision < live'.revision)
  }

  lemma SteppedHolds(c: Codec, s: Store, t: Task, u: Update, live: Task, live': Task)
    requires Stepped(live, live')
    ensures CopyHolds(t, live) ==> CopyHolds(t, live')
    ensures UpdateHolds(c, s, u, live) ==> UpdateHolds(c, s, u, live')
  {
  }

  /** Tasks that stay are stepped, and no old id comes back. */
  ghost predicate TableStepped(t: Table, t': Table, used: set<string>) {
    forall id :: id in t'.tasks ==> (if id in t.tasks then Stepped(t.tasks[id], t'.tasks[id]) else id !in used)
  }

  lemma PendingHolds(c: Codec, y: Sys, table': Table, used': set<string>)
    requires CopiesHold(y.table, y.used, y.copies) && UpdatesHold(c, y.store, y.table, y.used, y.updates)
    requires y.used <= used' && TableStepped(y.table, table', y.used)
    ensures CopiesHold(table', used', y.copies) && UpdatesHold(c, y.store, table', used', y.updates)
  {
    forall t | t in y.copies && t.id in table'.tasks ensures CopyHolds(t, table'.tasks[t.id]) {
      SteppedHolds(c, y.store, t, Update("", 0, None, None), y.table.tasks[t.id], table'.tasks[t.id]);
    }
    forall u | u in y.updates && u.id in table'.tasks ensures UpdateHolds(c, y.store, u, table'.tasks[u.id]) {
      assert u.id in y.table.tasks;
      var t := y.table.tasks[u.id];
      SteppedHolds(c, y.store, t, u, t, table'.tasks[u.id]);
    }
  }

  lemma WorkSteps(t: Table, op: Op, now: nat, used: set<string>)
    requires Named(t, used) && Headroom(t, 1) && (op.OpSubmit? ==> op.newId !in used)
    ensures TableStepped(t, Apply(t, op, now), used)
    ensures Named(Apply(t, op, now), if op.OpSubmit? then used + {op.newId} else used)
  {
  }

  /** What a task operation reads of a task is the same in a mirror of it. */
  lemma SameFrame(t: Task, l: Task)
    requires Frame(t) == Frame(l)
    ensures l == t.(input := l.input, inputRef := l.inputRef, output := l.output, outputRef := l.outputRef)
  {
    assert t == Frame(t).(input := t.input, inputRef := t.inputRef, output := t.output, outputRef := t.outputRef);
    assert l == Frame(l).(input := l.input, inputRef := l.inputRef, output := l.output, outputRef := l.outputRef);
  }

  lemma ReplacedMirrors(c: Codec, s: Store, t: Table, l: Table, task: Task, logical: Task)
    requires TableMirrors(c, s, t, l) && task.id == logical.id && Mirrors(c, s, task, logical)
    ensures TableMirrors(c, s, WithTask(t, task), WithTask(l, logical))
  {
    hide Mirrors;
  }

  /** Changing a task that mirrors another the same way keeps them alike. */
  lemma WorkMirrors(c: Codec, s: Store, t: Table, l: Table, op: Op, now: nat, used: set<string>)
    requires TableMirrors(c, s, t, l) && Named(t, used) && (op.OpSubmit? ==> op.newId !in used)
    ensures TableMirrors(c, s, Apply(t, op, now), Apply(l, op, now))
  {
    match op
    case OpSubmit(identity, input, newId) => SubmitMirrors(c, s, t, l, identity, input, newId, now);
    case OpPrune(cutoff) => PruneMirrors(c, s, t, l, cutoff);
    case OpRecover => RecoverMirrors(c, s, t, l, now);
    case _ => ChangeMirrors(c, s, t, l, op, now);
  }

  lemma SubmitMirrors(c: Codec, s: Store, t: Table, l: Table, identity: Identity, input: Value, newId: string, now: nat)
    requires TableMirrors(c, s, t, l)
    ensures TableMirrors(c, s, Submit(t, identity, input, newId, now).table, Submit(l, identity, input, newId, now).table)
  {
    hide ScopedKey;
    var task := Fresh(identity, input, newId, now);
    assert Mirrors(c, s, task, task);
  }

  lemma MirrorAt(c: Codec, s: Store, t: Table, l: Table, id: string)
    requires TableMirrors(c, s, t, l)
    ensures id in t.tasks <==> id in l.tasks
    ensures id in t.tasks ==> Mirrors(c, s, t.tasks[id], l.tasks[id])
  {
  }

  lemma TransitionedMirrors(c: Codec, s: Store, t: Task, l: Task, to: TaskState, output: Option<Value>, error: Option<string>, now: nat)
    requires Mirrors(c, s, t, l)
    ensures t.state == l.state && t.id == l.id
    ensures Mirrors(c, s, Transitioned(t, to, output, error, now), Transitioned(l, to, output, error, now))
  {
    SameFrame(t, l);
  }

  lemma RetriedMirrors(c: Codec, s: Store, t: Task, l: Task, now: nat, input: Value)
    requires Mirrors(c, s, t, l)
    ensures t.state == l.state && t.id == l.id
    ensures Mirrors(c, s, Retried(t, now), Retried(l, now))
    ensures Mirrors(c, s, Retried(t, now).(input := input, inputRef := None), Retried(l, now).(input := input, inputRef := None))
  {
    SameFrame(t, l);
  }

  lemma ChangeMirrors(c: Codec, s: Store, t: Table, l: Table, op: Op, now: nat)
    requires TableMirrors(c, s, t, l) && (op.OpTransition? || op.OpRetry? || op.OpRetryWithInput?)
    ensures TableMirrors(c, s, Apply(t, op, now), Apply(l, op, now))
  {
    hide TableMirrors, Mirrors;
    MirrorAt(c, s, t, l, op.id);
    if op.id in t.tasks {
      var task, logical := t.tasks[op.id], l.tasks[op.id];
      match op
      case OpTransition(_, to, output, error) =>
        TransitionedMirrors(c, s, task, logical, to, output, error, now);
        ReplacedMirrors(c, s, t, l, Transitioned(task, to, output, error, now), Transitioned(logical, to, output, error, now));
      case OpRetry(_) =>
        RetriedMirrors(c, s, task, logical, now, Plain(""));
        ReplacedMirrors(c, s, t, l, Retried(task, now), Retried(logical, now));
      case OpRetryWithInput(_, input) =>
        RetriedMirrors(c, s, task, logical, now, input);
        ReplacedMirrors(c, s, t, l, Retried(task, now).(input := input, inputRef := None),
                        Retried(logical, now).(input := input, inputRef := None));
    }
  }

  lemma RecoverMirrors(c: Codec, s: Store, t: Table, l: Table, now: nat)
    requires TableMirrors(c, s, t, l)
    ensures TableMirrors(c, s, RecoverOrphans(t, now), RecoverOrphans(l, now))
  {
    forall id | id in t.tasks ensures Mirrors(c, s, RecoverOrphans(t, now).tasks[id], RecoverOrphans(l, now).tasks[id]) {
      assert Mirrors(c, s, t.tasks[id], l.tasks[id]);
      SameFrame(t.tasks[id], l.tasks[id]);
    }
  }

  lemma PruneMirrors(c: Codec, s: Store, t: Table, l: Table, cutoff: nat)
    requires TableMirrors(c, s, t, l)
    ensures TableMirrors(c, s, Prune(t, cutoff), Prune(l, cutoff))
  {
    forall id | id in t.tasks
      ensures Prunable(t.tasks[id], cutoff) == Prunable(l.tasks[id], cutoff) && t.tasks[id].identity == l.tasks[id].identity
    {
      assert Mirrors(c, s, t.tasks[id], l.tasks[id]);
      assert Frame(t.tasks[id]).state == Frame(l.tasks[id]).state && Frame(t.tasks[id]).updatedAt == Frame(l.tasks[id]).updatedAt;
      assert Frame(t.tasks[id]).identity == Frame(l.tasks[id]).identity;
    }
    var removed := set id | id in t.tasks && Prunable(t.tasks[id], cutoff);
    assert removed == set id | id in l.tasks && Prunable(l.tasks[id], cutoff);
    var keys := set id | id in removed :: ScopedKey(t.tasks[id].identity);
    assert keys == set id | id in removed :: ScopedKey(l.tasks[id].identity);
  }

  lemma SnapshotKeeps(c: Codec, y: Sys)
    requires Good(c, y)
    ensures Good(c, Take(c, y, Snapshot))
  {
  }

  lemma StepKeeps(c: Codec, y: Sys, step: Step)
    requires Lawful(c) && Good(c, y) && Enabled(y, step) && Headroom(y.table, 1)
    ensures Good(c, Take(c, y, step))
  {
    match step
    case Work(op, now) =>
      hide TableMirrors, Named, CopiesHold, UpdatesHold;
      WorkSteps(y.table, op, now, y.used);
      WorkMirrors(c, y.store, y.table, y.logical, op, now, y.used);
      var y' := Take(c, y, step);
      PendingHolds(c, y, y'.table, y'.used);
    case Snapshot => SnapshotKeeps(c, y);
    case ExternaliseCopy(t) => ExternaliseKeeps(c, y, t);
    case CommitInput(u) => CommitInputKeeps(c, y, u);
    case CommitOutput(u) => CommitOutputKeeps(c, y, u);
  }

  lemma HeadroomShrinks(c: Codec, y: Sys, step: Step, n: nat)
    requires Headroom(y.table, n + 1) && n + 1 < U64_MAX
    ensures Headroom(Take(c, y, step).table, n)
  {
  }

  // ----- Whole runs -----

  ghost predicate ValidRun(c: Codec, y: Sys, steps: seq<Step>)
    decreases |steps|
  {
    steps == [] || (Enabled(y, steps[0]) && ValidRun(c, Take(c, y, steps[0]), steps[1..]))
  }

  function Run(c: Codec, y: Sys, steps: seq<Step>): Sys
    decreases |steps|
  {
    if steps == [] then y else Run(c, Take(c, y, steps[0]), steps[1..])
  }

  lemma {:induction false} RunKeeps(c: Codec, y: Sys, steps: seq<Step>)
    requires Lawful(c) && Good(c, y) && ValidRun(c, y, steps) && Headroom(y.table, |steps|) && |steps| < U64_MAX
    ensures Good(c, Run(c, y, steps))
    decreases |steps|
  {
    hide Good;
    if steps != [] {
      StepKeeps(c, y, steps[0]);
      HeadroomShrinks(c, y, steps[0], |steps| - 1);
      RunKeeps(c, Take(c, y, steps[0]), steps[1..]);
    }
  }

  /** Readers of every task see what they would see had nothing ever been moved. */
  ghost predicate Invisible(c: Codec, y: Sys) {
    && y.table.tasks.Keys == y.logical.tasks.Keys && y.table.index == y.logical.index
    && forall id :: id in y.table.tasks ==>
         var t, l := y.table.tasks[id], y.logical.tasks[id];
         && Frame(t) == Frame(l)
         && Resolve(c, y.store, t.input, t.inputRef) == Resolve(c, y.store, l.input, None)
         && ResolveOutput(c, y.store, t) == ResolveOutput(c, y.store, l)
  }

  lemma GoodIsInvisible(c: Codec, y: Sys)
    requires Good(c, y)
    ensures Invisible(c, y)
  {
    forall id | id in y.table.tasks
      ensures var t, l := y.table.tasks[id], y.logical.tasks[id];
              && Frame(t) == Frame(l)
              && Resolve(c, y.store, t.input, t.inputRef) == Resolve(c, y.store, l.input, None)
              && ResolveOutput(c, y.store, t) == ResolveOutput(c, y.store, l)
    {
      assert Mirrors(c, y.store, y.table.tasks[id], y.logical.tasks[id]);
    }
  }

  function StartSys(store: Store): Sys { Sys(EMPTY_TABLE, EMPTY_TABLE, store, {}, {}, {}) }

  /** With any task operations between a persist's copy and its compare-and-swap,
      and any number of persists, externalisation is invisible. */
  lemma ExternalisationIsInvisible(c: Codec, store: Store, steps: seq<Step>)
    requires Lawful(c) && ValidRun(c, StartSys(store), steps) && |steps| < U64_MAX
    ensures Invisible(c, Run(c, StartSys(store), steps))
  {
    RunKeeps(c, StartSys(store), steps);
    GoodIsInvisible(c, Run(c, StartSys(store), steps));
  }

  /** The operation is accepted and changes this task. */
  predicate Touches(t: Table, op: Op, id: string, now: nat) {
    id in t.tasks &&
    match op
    case OpTransition(x, to, output, error) => x == id && Transition(t, id, to, output, error, now).Ok?
    case OpRetry(x) => x == id && Retry(t, id, now).Ok?
    case OpRetryWithInput(x, input) => x == id && RetryWithInput(t, id, input, now).Ok?
    case OpRecover => !t.tasks[id].state.Terminal()
    case _ => false
  }

  /** Whatever changed a task, the compare-and-swap of an input or output prepared before
      the change is refused exactly when the revision could still grow, or a reference
      is there already. */
  lemma StaleUpdateRefusedIffNotSaturated(t: Table, op: Op, id: string, now: nat, r: PayloadRef)
    requires Touches(t, op, id, now) && t.tasks[id].id == id && t.tasks[id].revision <= U64_MAX
    ensures
      var t' := Apply(t, op, now);
      var revision := t.tasks[id].revision;
      && id in t'.tasks
      && (ReplaceInput(t', id, revision, MarkerOf(r), r) == t' <==> revision < U64_MAX || t'.tasks[id].inputRef.Some?)
      && (ReplaceOutput(t', id, revision, MarkerOf(r), r) == t' <==> revision < U64_MAX || t'.tasks[id].outputRef.Some?)
  {
    var t' := Apply(t, op, now);
    var revision := t.tasks[id].revision;
    assert id in t'.tasks && t'.tasks[id].revision == Bumped(revision);
    if revision == U64_MAX {
      var i := ReplaceInput(t', id, revision, MarkerOf(r), r);
      var o := ReplaceOutput(t', id, revision, MarkerOf(r), r);
      assert t'.tasks[id].inputRef.None? ==> i.tasks[id].inputRef != t'.tasks[id].inputRef;
      assert t'.tasks[id].outputRef.None? ==> o.tasks[id].outputRef != t'.tasks[id].outputRef;
    }
  }

  const SOME_IDENTITY := Identity("s", "e", "c", "k")

  /** A failed task at the largest revision, alone in its table. */
  function LastRevision(output: Value): Table {
    Table(map["t" := Task("t", SOME_IDENTITY, Plain(""), None, Some(output), None, None, Failed, 1, U64_MAX, 0, 0, [])],
          map[ScopedKey(SOME_IDENTITY) := "t"])
  }

  /** Retried, run again, and succeeded with a new output. */
  function RunAgain(t: Table, output: Value): Table {
    Apply(Apply(Apply(t, OpRetry("t"), 0), OpTransition("t", TaskState.Running, None, None), 0),
          OpTransition("t", Succeeded, Some(output), None), 0)
  }

  /** A persist copies a failed task with a large output; the task is retried and
      succeeds; the persist's update then puts the first output back. */
  lemma SaturatedUpdateIsLetThrough(c: Codec, s: Store, first: Value, second: Value)
    requires Lawful(c) && first.Plain? && second.Plain? && first != second
    requires |c.encode(Plain(""))| <= INLINE_LIMIT < |c.encode(first)| && c.digest(c.encode(first)) !in s.payloads
    ensures Indexed(LastRevision(first))
    ensures
      var moved := Externalise(c, s, LastRevision(first).tasks["t"]);
      var t := RunAgain(LastRevision(first), second);
      && moved.Some? && "t" in t.tasks && ResolveOutput(c, moved.value.store, t.tasks["t"]) == Some(Some(second))
      && var swapped := ApplyOutput(t, moved.value.update);
      "t" in swapped.tasks && ResolveOutput(c, moved.value.store, swapped.tasks["t"]) == Some(Some(first))
  {
    hide ScopedKey, RunAgain, WritePayload, ReadPayload, Lawful;
    FreshIsWritten(c, s, c.encode(first));
    WrittenIsReadable(c, s, first);
    RanAgain(first, second);
  }

  lemma RanAgain(first: Value, second: Value)
    ensures var t := RunAgain(LastRevision(first), second);
      && "t" in t.tasks && t.tasks["t"].output == Some(second) && t.tasks["t"].outputRef.None?
      && t.tasks["t"].revision == U64_MAX
  {
    hide ScopedKey;
  }

  lemma FreshIsWritten(c: Codec, s: Store, bytes: Bytes)
    requires c.digest(bytes) !in s.payloads
    ensures WritePayload(c, s, bytes).Some?
  {
  }
}
