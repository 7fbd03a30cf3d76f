/** What packing promises: exact duplicate detection, readable ranges, equal incremental builds. */
module PackTheorems {
  import opened Base
  import opened PackOrder
  import opened DataPack

  lemma SortedFacts(collected: seq<Resource>)
    ensures var rs := SortByPath(collected);
      && multiset(rs) == multiset(collected) && |rs| == |collected|
      && (AdjacentDuplicate(rs) <==> !Distinct(collected))
      && (!AdjacentDuplicate(rs) ==> Distinct(rs) && Sorted(rs))
  {
    var rs := SortByPath(collected);
    SortIsSortedPermutation(collected);
    NeighboursDecide(rs);
    if Distinct(rs) {
      DistinctPermuted(rs, collected);
    }
    if Distinct(collected) {
      DistinctPermuted(collected, rs);
    }
  }

  /** Packing reports a duplicate exactly when two collected files share a path. */
  lemma DuplicatesAreReported(c: Coding, collected: seq<Resource>, base: Option<BasePack>, prefixes: seq<Bytes>)
    ensures Pack(c, collected, base, prefixes) == Err(DuplicatePath) <==> !Distinct(collected)
  {
    SortedFacts(collected);
  }

  /** The order in which the tree was walked does not matter. */
  lemma OrderDoesNotMatter(c: Coding, a: seq<Resource>, b: seq<Resource>, base: Option<BasePack>, prefixes: seq<Bytes>)
    requires multiset(a) == multiset(b)
    ensures Pack(c, a, base, prefixes) == Pack(c, b, base, prefixes)
  {
    SortedFacts(a);
    SortedFacts(b);
    if Distinct(a) {
      DistinctPermuted(a, b);
      SortedUnique(SortByPath(a), SortByPath(b));
    } else if Distinct(b) {
      DistinctPermuted(b, a);
    }
  }

  lemma PermutedIndex(rs: seq<Resource>, ts: seq<Resource>, r: Resource)
    requires multiset(rs) == multiset(ts) && r in rs
    ensures r in ts
  {
    assert r in multiset(rs);
  }

  /** The table of a written pack names the collected paths and holds the packed bytes. */
  ghost predicate Delivers(
    file: Bytes, table: map<Bytes, (nat, nat)>, collected: seq<Resource>, base: Option<BasePack>,
    baseTable: Option<map<Bytes, (nat, nat)>>, prefixes: seq<Bytes>)
  {
    && (forall p :: p in table ==> exists r :: r in collected && r.path == p)
    && (forall r :: r in collected ==>
          Body(r, base, baseTable, prefixes).Some? && HeldAt(file, table, r.path, Body(r, base, baseTable, prefixes).value))
  }

  /** Pack, then parse: every path is found and its range holds exactly its bytes. */
  lemma PackThenParse(c: Coding, collected: seq<Resource>, base: Option<BasePack>, prefixes: seq<Bytes>)
    requires Lawful(c) && Pack(c, collected, base, prefixes).Ok?
    ensures var file := Pack(c, collected, base, prefixes).value;
      Parse(c, file).Ok? && Delivers(file, Parse(c, file).value, collected, base, OpenBase(c, base).value, prefixes)
  {
    hide Parse, PackFile, Body, OpenBase, Delivers, Holds, Fits;
    var rs := SortByPath(collected);
    SortedFacts(collected);
    var baseTable := OpenBase(c, base).value;
    var bodies := Bodies(rs, base, baseTable, prefixes);
    WrittenReadsBack(c, Paths(rs), bodies);
    var file := PackFile(c, Paths(rs), bodies);
    HeldIsDelivered(file, Parse(c, file).value, rs, collected, base, baseTable, prefixes);
  }

  /** What holds of the sorted resources is delivered for the collected ones. */
  lemma HeldIsDelivered(
    file: Bytes, table: map<Bytes, (nat, nat)>, rs: seq<Resource>, collected: seq<Resource>, base: Option<BasePack>,
    baseTable: Option<map<Bytes, (nat, nat)>>, prefixes: seq<Bytes>)
    requires multiset(rs) == multiset(collected) && AllBodies(rs, base, baseTable, prefixes)
    requires Holds(file, table, Paths(rs), Bodies(rs, base, baseTable, prefixes))
    ensures Delivers(file, table, collected, base, baseTable, prefixes)
  {
    hide Body, HeldAt;
    forall p | p in table ensures exists r :: r in collected && r.path == p {
      var i :| 0 <= i < |rs| && Paths(rs)[i] == p;
      assert rs[i] in rs;
      PermutedIndex(rs, collected, rs[i]);
    }
    forall r | r in collected
      ensures Body(r, base, baseTable, prefixes).Some?
        && HeldAt(file, table, r.path, Body(r, base, baseTable, prefixes).value)
    {
      PermutedIndex(collected, rs, r);
      var i :| 0 <= i < |rs| && rs[i] == r;
      assert HeldAt(file, table, Paths(rs)[i], Bodies(rs, base, baseTable, prefixes)[i]);
    }
  }

  /** Every file that does not count as changed has the same bytes in the base pack. */
  ghost predicate SameInBase(
    collected: seq<Resource>, file: Bytes, table: map<Bytes, (nat, nat)>, prefixes: seq<Bytes>)
  {
    forall r :: r in collected && !Changed(r.path, prefixes) ==> HeldAt(file, table, r.path, r.data)
  }

  /** A base pack the packer accepts. */
  ghost predicate UsableBase(c: Coding, base: BasePack, prefixes: seq<Bytes>) {
    base.digest == Some(c.hash(base.file)) && Parse(c, base.file).Ok? && prefixes != []
  }

  lemma SameBodies(rs: seq<Resource>, base: BasePack, table: map<Bytes, (nat, nat)>, prefixes: seq<Bytes>)
    requires SameInBase(rs, base.file, table, prefixes)
    ensures AllBodies(rs, Some(base), Some(table), prefixes) && AllBodies(rs, None, None, [])
    ensures Bodies(rs, Some(base), Some(table), prefixes) == Bodies(rs, None, None, [])
  {
    forall i | 0 <= i < |rs| ensures Body(rs[i], Some(base), Some(table), prefixes) == Some(rs[i].data) {
      assert rs[i] in rs;
    }
  }

  /**
   The incremental build is the full build, byte for byte, exactly when every file
   outside the changed prefixes has the same bytes in the base pack and in the tree.
   */
  lemma IncrementalIsFullIffSameBytes(c: Coding, collected: seq<Resource>, base: BasePack, prefixes: seq<Bytes>)
    requires Lawful(c) && UsableBase(c, base, prefixes) && Pack(c, collected, None, []).Ok?
    ensures Pack(c, collected, Some(base), prefixes) == Pack(c, collected, None, [])
      <==> SameInBase(collected, base.file, Parse(c, base.file).value, prefixes)
  {
    hide Parse, PackFile, Delivers;
    var table := Parse(c, base.file).value;
    var rs := SortByPath(collected);
    SortedFacts(collected);
    if SameInBase(collected, base.file, table, prefixes) {
      forall r | r in rs ensures r in collected {
        PermutedIndex(rs, collected, r);
      }
      SameBodies(rs, base, table, prefixes);
    }
    if Pack(c, collected, Some(base), prefixes) == Pack(c, collected, None, []) {
      PackThenParse(c, collected, Some(base), prefixes);
      PackThenParse(c, collected, None, []);
      SameWhenEqual(Pack(c, collected, None, []).value, Parse(c, Pack(c, collected, None, []).value).value,
                    collected, base, table, prefixes);
    }
  }

  lemma SameWhenEqual(
    file: Bytes, written: map<Bytes, (nat, nat)>, collected: seq<Resource>, base: BasePack, table: map<Bytes, (nat, nat)>,
    prefixes: seq<Bytes>)
    requires Delivers(file, written, collected, Some(base), Some(table), prefixes)
    requires Delivers(file, written, collected, None, None, [])
    ensures SameInBase(collected, base.file, table, prefixes)
  {
    forall r | r in collected && !Changed(r.path, prefixes) ensures HeldAt(base.file, table, r.path, r.data) {
      assert HeldAt(file, written, r.path, Body(r, Some(base), Some(table), prefixes).value);
      assert HeldAt(file, written, r.path, Body(r, None, None, []).value);
    }
  }

  /**
   Building on the pack of an earlier tree: when the files outside the changed prefixes
   were already in that tree with the same bytes, the incremental pack is the full one.
   */
  lemma RebuildOnEarlierPack(c: Coding, earlier: seq<Resource>, collected: seq<Resource>, prefixes: seq<Bytes>)
    requires Lawful(c) && prefixes != []
    requires Pack(c, earlier, None, []).Ok? && Pack(c, collected, None, []).Ok?
    requires forall r :: r in collected && !Changed(r.path, prefixes) ==> r in earlier
    ensures var file := Pack(c, earlier, None, []).value;
      Pack(c, collected, Some(BasePack(file, Some(c.hash(file)))), prefixes) == Pack(c, collected, None, [])
  {
    hide Pack, Parse;
    PackThenParse(c, earlier, None, []);
    var file := Pack(c, earlier, None, []).value;
    IncrementalIsFullIffSameBytes(c, collected, BasePack(file, Some(c.hash(file))), prefixes);
  }

  // ----- Which files count as changed -----

  /** A prefix covers its own path and everything below it, and nothing else: not a longer
      name that only begins with it. */
  lemma PrefixCovers(prefix: Bytes, path: Bytes)
    ensures Under(path, prefix) <==> path == prefix || exists rest: Bytes :: path == prefix + [47] + rest
  {
    if prefix < path && path[|prefix|] == 47 {
      assert path == prefix + [47] + path[|prefix| + 1..];
    }
    if rest: Bytes :| path == prefix + [47] + rest {
      assert path[|prefix|] == 47;
    }
  }

  /** A sibling whose name only continues the prefix is not covered. */
  lemma SiblingIsNotCovered(prefix: Bytes, text: Bytes)
    requires text != [] && text[0] != 47
    ensures !Under(prefix + text, prefix)
  {
  }

  /** The file is named by a changed prefix or lies below one. */
  ghost predicate CoveredBy(path: Bytes, prefixes: seq<Bytes>) {
    exists i :: 0 <= i < |prefixes| && Covers(prefixes[i], path)
  }

  ghost predicate Covers(prefix: Bytes, path: Bytes) {
    path == prefix || exists rest: Bytes :: path == prefix + [47] + rest
  }

  lemma CoveredIsChanged(path: Bytes, prefixes: seq<Bytes>)
    ensures Changed(path, prefixes) <==> CoveredBy(path, prefixes)
  {
    forall i | 0 <= i < |prefixes| ensures Under(path, prefixes[i]) <==> Covers(prefixes[i], path) {
      PrefixCovers(prefixes[i], path);
    }
  }

  /** In a written pack every file at or below a changed prefix has the bytes of the tree,
      and with a base pack every other file has the bytes of the base. */
  lemma ChangedIsReadFromTree(c: Coding, collected: seq<Resource>, base: Option<BasePack>, prefixes: seq<Bytes>, r: Resource)
    requires Lawful(c) && Pack(c, collected, base, prefixes).Ok? && r in collected
    ensures
      var file := Pack(c, collected, base, prefixes).value;
      && Parse(c, file).Ok?
      && (base.None? || CoveredBy(r.path, prefixes) ==> HeldAt(file, Parse(c, file).value, r.path, r.data))
      && (base.Some? && !CoveredBy(r.path, prefixes) ==>
            && Parse(c, base.value.file).Ok? && r.path in Parse(c, base.value.file).value
            && var range := Parse(c, base.value.file).value[r.path];
               range.0 + range.1 <= |base.value.file|
               && HeldAt(file, Parse(c, file).value, r.path, base.value.file[range.0..range.0 + range.1]))
  {
    hide Parse, CoveredBy, HeldAt;
    PackThenParse(c, collected, base, prefixes);
    CoveredIsChanged(r.path, prefixes);
  }

  // ----- When packing succeeds -----

  /** No base, or one whose digest is the expected one, that reads, with something changed. */
  ghost predicate Accepted(c: Coding, base: Option<BasePack>, prefixes: seq<Bytes>) {
    base.Some? ==> UsableBase(c, base.value, prefixes)
  }

  /** Every file that did not change is in the base. */
  ghost predicate Present(c: Coding, collected: seq<Resource>, base: Option<BasePack>, prefixes: seq<Bytes>)
    requires Accepted(c, base, prefixes)
  {
    base.Some? ==> forall r :: r in collected && !Changed(r.path, prefixes) ==> r.path in Parse(c, base.value.file).value
  }

  lemma BodyIff(c: Coding, r: Resource, base: Option<BasePack>, prefixes: seq<Bytes>)
    requires Accepted(c, base, prefixes)
    ensures OpenBase(c, base).Ok?
    ensures Body(r, base, OpenBase(c, base).value, prefixes).Some? <==>
      (base.Some? && !Changed(r.path, prefixes) ==> r.path in Parse(c, base.value.file).value)
  {
    hide Parse, Changed;
    if base.Some? && r.path in Parse(c, base.value.file).value {
      ParsedRangesInside(c, base.value.file, r.path);
    }
  }

  lemma BodiesIff(c: Coding, collected: seq<Resource>, rs: seq<Resource>, base: Option<BasePack>, prefixes: seq<Bytes>)
    requires Accepted(c, base, prefixes) && multiset(rs) == multiset(collected)
    ensures OpenBase(c, base).Ok?
    ensures AllBodies(rs, base, OpenBase(c, base).value, prefixes) <==> Present(c, collected, base, prefixes)
  {
    hide Parse, Changed, Body;
    forall r ensures r in rs <==> r in collected {
      assert r in multiset(rs) <==> r in multiset(collected);
    }
    forall r ensures OpenBase(c, base).Ok?
      && (Body(r, base, OpenBase(c, base).value, prefixes).Some? <==>
            (base.Some? && !Changed(r.path, prefixes) ==> r.path in Parse(c, base.value.file).value))
    {
      BodyIff(c, r, base, prefixes);
    }
    if AllBodies(rs, base, OpenBase(c, base).value, prefixes) && base.Some? {
      forall r | r in collected && !Changed(r.path, prefixes) ensures r.path in Parse(c, base.value.file).value {
        var i :| 0 <= i < |rs| && rs[i] == r;
      }
    }
  }

  /** Packing succeeds exactly when no path is taken twice, there is something to pack, the
      base is the expected one and holds every file that did not change, and the number of
      entries and the length of the file can be written. */
  lemma PackSucceedsIff(c: Coding, collected: seq<Resource>, base: Option<BasePack>, prefixes: seq<Bytes>)
    ensures Pack(c, collected, base, prefixes).Ok? <==>
      && Distinct(collected) && 1 <= |collected| < 65_535 && Accepted(c, base, prefixes)
      && Present(c, collected, base, prefixes)
      && Length(c, collected, base, prefixes) <= 0xFFFF_FFFF
  {
    hide Parse, Body, PackFile, SortByPath, AdjacentDuplicate, Distinct;
    SortedFacts(collected);
    var rs := SortByPath(collected);
    if Accepted(c, base, prefixes) {
      BodiesIff(c, collected, rs, base, prefixes);
    }
  }

  /** The length of the pack: header, index, manifest and bodies. */
  ghost function Length(c: Coding, collected: seq<Resource>, base: Option<BasePack>, prefixes: seq<Bytes>): nat
    requires Accepted(c, base, prefixes) && Present(c, collected, base, prefixes)
  {
    SortedFacts(collected);
    BodiesIff(c, collected, SortByPath(collected), base, prefixes);
    var rs := SortByPath(collected);
    |PackFile(c, Paths(rs), Bodies(rs, base, OpenBase(c, base).value, prefixes))|
  }

  lemma PackFileLength(c: Coding, paths: seq<Bytes>, bodies: seq<Bytes>)
    requires |paths| == |bodies|
    ensures |PackFile(c, paths, bodies)| ==
      12 + 6 * (|paths| + 2) + |c.manifest(c.hash(Hashed(paths, bodies)), paths)| + |Concat(bodies)|
  {
    var parts := [c.manifest(c.hash(Hashed(paths, bodies)), paths)] + bodies;
    IndexLength(parts, |parts| + 1);
    assert parts[1..] == bodies;
  }

  // ----- What the format fixes -----

  /** The fields a reader of the format finds besides the offsets: version 5, encoding and
      alias count zero, entries numbered from one, and a last entry numbered zero. */
  lemma FormatFields(parts: seq<Bytes>, i: nat)
    requires i <= |parts| < 65_535
    ensures var file := Layout(parts);
      && 12 + 6 * (|parts| + 1) <= |file|
      && file[..8] == [5, 0, 0, 0, 0, 0, 0, 0] && file[10..12] == [0, 0]
      && FromLe16(file[12 + 6 * i..12 + 6 * i + 2]) == if i < |parts| then i + 1 else 0
  {
    hide IndexEntry;
    LayoutHeader(parts);
    var index := Index(parts, |parts| + 1);
    IndexAt(parts, |parts| + 1, i);
    SliceAfter(Header(|parts|), index + Concat(parts), 6 * i, 6 * i + 2);
    assert Layout(parts) == Header(|parts|) + (index + Concat(parts));
    assert (index + Concat(parts))[6 * i..6 * i + 2] == index[6 * i..6 * i + 6][..2];
    EntryNumber(parts, i);
    HeaderFields(|parts|);
    assert Layout(parts)[..8] == Header(|parts|)[..8] && Layout(parts)[10..12] == Header(|parts|)[10..12];
  }

  lemma HeaderFields(count: nat)
    ensures |Header(count)| == 12 && Header(count)[..8] == [5, 0, 0, 0, 0, 0, 0, 0] && Header(count)[10..12] == [0, 0]
  {
  }

  lemma EntryNumber(parts: seq<Bytes>, i: nat)
    requires i <= |parts| < 65_535
    ensures |IndexEntry(parts, i)| == 6 && FromLe16(IndexEntry(parts, i)[..2]) == if i < |parts| then i + 1 else 0
  {
    hide Offset;
    var n := if i < |parts| then i + 1 else 0;
    assert IndexEntry(parts, i)[..2] == Le16(n);
    Le16RoundTrip(n);
  }

  /** The content hash covers every byte: over the same paths and lengths, what is hashed
      differs whenever any body does. */
  lemma {:induction false} HashCoversBodies(paths: seq<Bytes>, a: seq<Bytes>, b: seq<Bytes>)
    requires |paths| == |a| == |b| && forall i :: 0 <= i < |a| ==> |a[i]| == |b[i]|
    ensures Hashed(paths, a) == Hashed(paths, b) <==> a == b
    decreases |paths|
  {
    if paths != [] && Hashed(paths, a) == Hashed(paths, b) {
      var head := paths[0] + [0];
      var ra, rb := Hashed(paths[1..], a[1..]), Hashed(paths[1..], b[1..]);
      assert Hashed(paths, a) == head + (a[0] + ra) && Hashed(paths, b) == head + (b[0] + rb);
      SameTails(head, a[0] + ra, b[0] + rb);
      assert a[0] == (a[0] + ra)[..|a[0]|] && b[0] == (b[0] + rb)[..|a[0]|];
      assert ra == (a[0] + ra)[|a[0]|..] && rb == (b[0] + rb)[|a[0]|..];
      HashCoversBodies(paths[1..], a[1..], b[1..]);
      assert a == [a[0]] + a[1..] && b == [b[0]] + b[1..];
    }
  }

  lemma SameTails(head: Bytes, a: Bytes, b: Bytes)
    requires head + a == head + b
    ensures a == b
  {
    assert a == (head + a)[|head|..] && b == (head + b)[|head|..];
  }

  // ----- What the reader makes of any file -----

  /** The number of parts a file announces. */
  function Count(file: Bytes): nat
    requires |file| >= 12
  {
    FromLe16(file[8..10])
  }

  /** A header of version 5 with at least one part, a whole index of offsets that never
      decrease and stay inside the file, and a manifest with a path for every other part. */
  ghost predicate Readable(c: Coding, file: Bytes) {
    && |file| >= 12 && file[0..4] == [5, 0, 0, 0] && Count(file) >= 1 && 12 + 6 * (Count(file) + 1) <= |file|
    && (forall i: nat :: i < Count(file) ==> OffsetAt(file, i) <= OffsetAt(file, i + 1))
    && OffsetAt(file, Count(file)) <= |file| && OffsetAt(file, 0) <= OffsetAt(file, 1) <= |file|
    && var manifest := c.entries(file[OffsetAt(file, 0)..OffsetAt(file, 1)]);
    manifest.Some? && |manifest.value| == Count(file) - 1 && None !in manifest.value
  }

  function OffsetAt(file: Bytes, i: nat): nat { if 12 + i * 6 + 6 <= |file| then ReadOffset(file, i) else 0 }

  lemma VersionIs5(b: Bytes)
    requires |b| == 4
    ensures FromLe32(b) == 5 <==> b == [5, 0, 0, 0]
  {
  }

  /** The reader accepts exactly such files. */
  lemma ParseAcceptsIff(c: Coding, file: Bytes)
    ensures Parse(c, file).Ok? <==> Readable(c, file)
  {
    hide Ranges, FromLe32, FromLe16;
    if |file| >= 12 {
      VersionIs5(file[0..4]);
      var count := Count(file);
      if count >= 1 && 12 + 6 * (count + 1) <= |file| {
        var offsets := Offsets(file, count);
        assert forall i: nat :: i <= count ==> offsets[i] == OffsetAt(file, i);
        assert Monotonic(offsets) <==> forall i: nat :: i < count ==> OffsetAt(file, i) <= OffsetAt(file, i + 1);
        if Monotonic(offsets) {
          OffsetsBelow(offsets, 0);
          OffsetsBelow(offsets, 1);
        }
      }
    }
  }

  /** The last name of the manifest that is this path, if any. */
  ghost predicate LastNamed(names: seq<Option<Bytes>>, n: nat, i: nat, path: Bytes) {
    i < n <= |names| && names[i] == Some(path) && forall j :: i < j < n ==> names[j] != Some(path)
  }

  lemma {:induction false} RangesAreOfLast(names: seq<Option<Bytes>>, offsets: seq<nat>, n: nat, path: Bytes)
    requires n <= |names| && |names| + 2 == |offsets| && Monotonic(offsets)
    requires forall i :: 0 <= i < |names| ==> names[i].Some?
    ensures
      var table := RangesUpTo(names, offsets, n);
      && (path in table <==> Some(path) in names[..n])
      && (forall i: nat :: LastNamed(names, n, i, path) ==>
            path in table && offsets[i + 1] <= offsets[i + 2] && table[path] == (offsets[i + 1], offsets[i + 2] - offsets[i + 1]))
    decreases n
  {
    if n > 0 {
      RangesAreOfLast(names, offsets, n - 1, path);
      assert names[..n] == names[..n - 1] + [names[n - 1]];
      assert names[n - 1] != Some(path) ==> forall i: nat :: LastNamed(names, n, i, path) ==> LastNamed(names, n - 1, i, path);
    }
  }

  /** Of an accepted file the reader returns exactly the paths of its manifest, each with the
      range of the last part that has it. */
  lemma ParsedTableIs(c: Coding, file: Bytes, path: Bytes)
    requires Readable(c, file)
    ensures
      var names := c.entries(file[OffsetAt(file, 0)..OffsetAt(file, 1)]).value;
      && Parse(c, file).Ok?
      && (path in Parse(c, file).value <==> Some(path) in names)
      && (forall i: nat :: LastNamed(names, |names|, i, path) ==>
            && path in Parse(c, file).value
            && Parse(c, file).value[path].0 == OffsetAt(file, i + 1)
            && Parse(c, file).value[path].0 + Parse(c, file).value[path].1 == OffsetAt(file, i + 2))
  {
    hide RangesUpTo, FromLe32, FromLe16;
    ParseAcceptsIff(c, file);
    var count := Count(file);
    var offsets := Offsets(file, count);
    OffsetsBelow(offsets, 1);
    assert offsets[0] == OffsetAt(file, 0) && offsets[1] == OffsetAt(file, 1);
    var names := c.entries(file[offsets[0]..offsets[1]]).value;
    RangesAreOfLast(names, offsets, |names|, path);
    assert names[..|names|] == names;
    assert forall i: nat :: i <= count ==> offsets[i] == OffsetAt(file, i);
  }
}
