/** The packer and the reader as the loops of the program. */
module PackWriter {
  import opened Base
  import opened PackOrder
  import opened DataPack

  method IsChanged(path: Bytes, prefixes: seq<Bytes>) returns (r: bool)
    ensures r == Changed(path, prefixes)
  {
    for i := 0 to |prefixes|
      invariant forall k :: 0 <= k < i ==> !Under(path, prefixes[k])
    {
      if path == prefixes[i] || (prefixes[i] < path && path[|prefixes[i]|] == SLASH) {
        return true;
      }
    }
    return false;
  }

  /** The bytes to pack for one resource, from the base pack or from the tree. */
  method PackedBytes(r: Resource, base: Option<BasePack>, table: Option<map<Bytes, (nat, nat)>>, prefixes: seq<Bytes>)
    returns (body: Option<Bytes>)
    ensures body == Body(r, base, table, prefixes)
  {
    if table.Some? {
      var changed := IsChanged(r.path, prefixes);
      if !changed {
        if r.path !in table.value || base.None? {
          return None;
        }
        var (offset, length) := table.value[r.path];
        if offset + length > |base.value.file| {
          return None;
        }
        return Some(base.value.file[offset..offset + length]);
      }
    }
    return Some(r.data);
  }

  /** The digested content and the packed bytes, in order; nothing when an entry is missing. */
  method DigestContent(rs: seq<Resource>, base: Option<BasePack>, table: Option<map<Bytes, (nat, nat)>>, prefixes: seq<Bytes>)
    returns (r: Option<(Bytes, seq<Bytes>)>)
    ensures r.Some? <==> AllBodies(rs, base, table, prefixes)
    ensures r.Some? ==>
      r.value.1 == Bodies(rs, base, table, prefixes) && r.value.0 == Hashed(Paths(rs), Bodies(rs, base, table, prefixes))
  {
    var content: Bytes := [];
    var bodies: seq<Bytes> := [];
    for i := 0 to |rs|
      invariant |bodies| == i
      invariant forall k :: 0 <= k < i ==> Body(rs[k], base, table, prefixes) == Some(bodies[k])
      invariant content == Hashed(Paths(rs)[..i], bodies)
    {
      var body := PackedBytes(rs[i], base, table, prefixes);
      if body.None? {
        return None;
      }
      HashedAppend(Paths(rs)[..i], bodies, rs[i].path, body.value);
      assert Paths(rs)[..i + 1] == Paths(rs)[..i] + [rs[i].path];
      content := content + rs[i].path + [0] + body.value;
      bodies := bodies + [body.value];
    }
    assert Paths(rs)[..|rs|] == Paths(rs);
    assert bodies == Bodies(rs, base, table, prefixes);
    return Some((content, bodies));
  }

  lemma {:induction false} HashedAppend(paths: seq<Bytes>, bodies: seq<Bytes>, path: Bytes, body: Bytes)
    requires |paths| == |bodies|
    ensures Hashed(paths + [path], bodies + [body]) == Hashed(paths, bodies) + path + [0] + body
    decreases |paths|
  {
    if paths == [] {
      assert paths + [path] == [path] && bodies + [body] == [body];
    } else {
      HashedAppend(paths[1..], bodies[1..], path, body);
      assert (paths + [path])[1..] == paths[1..] + [path];
      assert (bodies + [body])[1..] == bodies[1..] + [body];
    }
  }

  /** Running offsets: each part begins where the one before it ends. */
  method PartOffsets(parts: seq<Bytes>) returns (offsets: seq<nat>)
    ensures |offsets| == |parts| + 1
    ensures forall i :: 0 <= i <= |parts| ==> offsets[i] == Offset(parts, i)
  {
    offsets := [12 + (|parts| + 1) * 6];
    assert parts[..0] == [];
    for i := 0 to |parts|
      invariant |offsets| == i + 1
      invariant forall k :: 0 <= k <= i ==> offsets[k] == Offset(parts, k)
    {
      ConcatAt(parts, i);
      offsets := offsets + [offsets[i] + |parts[i]|];
    }
  }

  /** The file is written front to back. */
  method WriteParts(parts: seq<Bytes>, offsets: seq<nat>) returns (file: Bytes)
    requires |offsets| == |parts| + 1
    requires forall i :: 0 <= i <= |parts| ==> offsets[i] == Offset(parts, i)
    ensures file == Layout(parts)
  {
    file := Le32(VERSION) + [0, 0, 0, 0] + Le16(|parts|) + Le16(0);
    for i := 0 to |parts|
      invariant file == Header(|parts|) + Index(parts, i)
    {
      file := file + Le16(i + 1) + Le32(offsets[i]);
      assert Index(parts, i + 1) == Index(parts, i) + (Le16(i + 1) + Le32(offsets[i]));
    }
    file := file + Le16(0) + Le32(offsets[|parts|]);
    ghost var head := file;
    assert head == Header(|parts|) + Index(parts, |parts| + 1);
    for i := 0 to |parts|
      invariant file == head + Concat(parts[..i])
    {
      ConcatAt(parts, i);
      file := file + parts[i];
    }
    assert parts[..|parts|] == parts;
  }

  method BaseTable(c: Coding, base: Option<BasePack>) returns (r: Result<Option<map<Bytes, (nat, nat)>>, PackError>)
    ensures r == OpenBase(c, base)
  {
    if base.None? {
      return Ok(None);
    }
    if base.value.digest.None? {
      return Err(DigestRequired);
    }
    if c.hash(base.value.file) != base.value.digest.value {
      return Err(BaseDrift);
    }
    var table := ParseEntries(c, base.value.file);
    return match table case Err(e) => Err(BaseInvalid(e)) case Ok(t) => Ok(Some(t));
  }

  method PackTree(c: Coding, collected: seq<Resource>, base: Option<BasePack>, prefixes: seq<Bytes>)
    returns (r: Result<Bytes, PackError>)
    ensures r == Pack(c, collected, base, prefixes)
  {
    var rs := SortByPath(collected);
    var duplicate := HasDuplicate(rs);
    if duplicate {
      return Err(DuplicatePath);
    }
    if rs == [] {
      return Err(NothingToPack);
    }
    var opening := BaseTable(c, base);
    if opening.Err? {
      return Err(opening.error);
    }
    var table := opening.value;
    if table.Some? && prefixes == [] {
      return Err(PrefixRequired);
    }
    if |rs| + 1 > U16_MAX {
      return Err(ResourceLimit);
    }
    var digested := DigestContent(rs, base, table, prefixes);
    if digested.None? {
      return Err(EntryMissing);
    }
    var parts := [c.manifest(c.hash(digested.value.0), Paths(rs))] + digested.value.1;
    var offsets := PartOffsets(parts);
    LayoutEnd(parts);
    if offsets[|parts|] > U32_MAX {
      return Err(SizeLimit);
    }
    var file := WriteParts(parts, offsets);
    return Ok(file);
  }

  method ReadOffsets(file: Bytes, count: nat) returns (offsets: seq<nat>)
    requires 12 + (count + 1) * 6 <= |file|
    ensures offsets == Offsets(file, count)
  {
    offsets := [];
    for i := 0 to count + 1
      invariant |offsets| == i && forall k :: 0 <= k < i ==> offsets[k] == ReadOffset(file, k)
    {
      offsets := offsets + [FromLe32(file[12 + i * 6 + 2..12 + i * 6 + 6])];
    }
  }

  method IsMonotonic(offsets: seq<nat>) returns (r: bool)
    ensures r == Monotonic(offsets)
  {
    var i := 0;
    while i + 1 < |offsets|
      invariant forall k :: 0 <= k < i && k < |offsets| - 1 ==> offsets[k] <= offsets[k + 1]
    {
      if offsets[i] > offsets[i + 1] {
        return false;
      }
      i := i + 1;
    }
    return true;
  }

  method ReadEntries(names: seq<Option<Bytes>>, offsets: seq<nat>) returns (r: Option<map<Bytes, (nat, nat)>>)
    requires |names| + 2 == |offsets| && Monotonic(offsets)
    ensures r.None? <==> exists i :: 0 <= i < |names| && names[i].None?
    ensures r.Some? ==> r.value == Ranges(names, offsets)
  {
    var table: map<Bytes, (nat, nat)> := map[];
    for i := 0 to |names|
      invariant forall k :: 0 <= k < i ==> names[k].Some?
      invariant (forall k :: 0 <= k < |names| ==> names[k].Some?) ==> table == RangesUpTo(names, offsets, i)
    {
      if names[i].None? {
        return None;
      }
      table := table[names[i].value := (offsets[i + 1], offsets[i + 2] - offsets[i + 1])];
    }
    return Some(table);
  }

  method ParseEntries(c: Coding, file: Bytes) returns (r: Result<map<Bytes, (nat, nat)>, ReadError>)
    ensures r == Parse(c, file)
  {
    if |file| < 12 {
      return Err(Truncated);
    }
    if FromLe32(file[0..4]) != VERSION {
      return Err(NotVersion5);
    }
    var count := FromLe16(file[8..10]);
    if count < 1 {
      return Err(NoManifestEntry);
    }
    if |file| < 12 + (count + 1) * 6 {
      return Err(Truncated);
    }
    var offsets := ReadOffsets(file, count);
    var monotonic := IsMonotonic(offsets);
    if !monotonic {
      return Err(NotMonotonic);
    }
    if offsets[count] > |file| {
      return Err(BeyondEnd);
    }
    OffsetsBelow(offsets, 1);
    var names := c.entries(file[offsets[0]..offsets[1]]);
    if names.None? {
      return Err(BadManifest);
    }
    if |names.value| + 1 != count {
      return Err(CountsDiffer);
    }
    var table := ReadEntries(names.value, offsets);
    return if table.None? then Err(NoPath) else Ok(table.value);
  }
}
