/**
 The version 5 resource pack: a 12 byte header, an index of six byte entries, the
 manifest, then the resources in path order. Packing may copy unchanged resources out
 of an earlier pack instead of reading them from the tree.
 */
module DataPack {
  import opened Base
  import opened PackOrder

  const VERSION: nat := 5
  const U16_MAX: nat := 0xFFFF
  const U32_MAX: nat := 0xFFFF_FFFF
  const SLASH: Byte := 47

  /** The digest, and the manifest's JSON: what is written, and the paths read back. */
  datatype Coding = Coding(
    hash: Bytes -> Bytes, manifest: (Bytes, seq<Bytes>) -> Bytes, entries: Bytes -> Option<seq<Option<Bytes>>>)

  /** The manifest lists the paths in order. */
  ghost predicate Lawful(c: Coding) {
    forall h, paths :: c.entries(c.manifest(h, paths)) == Some(Named(paths))
  }

  function Named(paths: seq<Bytes>): seq<Option<Bytes>> {
    seq(|paths|, i requires 0 <= i < |paths| => Some(paths[i]))
  }

  // ----- Little-endian numbers -----

  function Le16(n: nat): Bytes { [n % 256, n / 256 % 256] }

  function Le32(n: nat): Bytes { [n % 256, n / 256 % 256, n / 256 / 256 % 256, n / 256 / 256 / 256 % 256] }

  function FromLe16(b: Bytes): nat
    requires |b| == 2
  {
    b[0] as int + 256 * (b[1] as int)
  }

  function FromLe32(b: Bytes): nat
    requires |b| == 4
  {
    b[0] as int + 256 * (b[1] as int) + 65536 * (b[2] as int) + 16777216 * (b[3] as int)
  }

  lemma Le16RoundTrip(n: nat)
    requires n <= U16_MAX
    ensures FromLe16(Le16(n)) == n
  {
  }

  lemma Le32RoundTrip(n: nat)
    requires n <= U32_MAX
    ensures FromLe32(Le32(n)) == n
  {
    var a := n / 256;
    var b := a / 256;
    var c := b / 256;
    assert n == 256 * a + n % 256 && a == 256 * b + a % 256 && b == 256 * c + b % 256;
    assert c < 256;
  }

  // ----- The layout -----

  /** Where part `i` begins: after the header, the index and the parts before it. */
  function Offset(parts: seq<Bytes>, i: nat): nat
    requires i <= |parts|
  {
    12 + (|parts| + 1) * 6 + |Concat(parts[..i])|
  }

  function Header(count: nat): Bytes { Le32(VERSION) + [0, 0, 0, 0] + Le16(count) + Le16(0) }

  /** Entry `i` names resource `i + 1`; the last entry, numbered 0, marks the end. */
  function IndexEntry(parts: seq<Bytes>, i: nat): Bytes
    requires i <= |parts|
  {
    Le16(if i < |parts| then i + 1 else 0) + Le32(Offset(parts, i))
  }

  function Index(parts: seq<Bytes>, n: nat): Bytes
    requires n <= |parts| + 1
  {
    if n == 0 then [] else Index(parts, n - 1) + IndexEntry(parts, n - 1)
  }

  function Layout(parts: seq<Bytes>): Bytes { Header(|parts|) + Index(parts, |parts| + 1) + Concat(parts) }

  lemma {:induction false} IndexLength(parts: seq<Bytes>, n: nat)
    requires n <= |parts| + 1
    ensures |Index(parts, n)| == 6 * n
  {
    if n > 0 {
      IndexLength(parts, n - 1);
    }
  }

  lemma {:induction false} IndexAt(parts: seq<Bytes>, n: nat, i: nat)
    requires i < n <= |parts| + 1
    ensures |Index(parts, n)| == 6 * n && Index(parts, n)[6 * i..6 * i + 6] == IndexEntry(parts, i)
    decreases n
  {
    IndexLength(parts, n);
    IndexLength(parts, n - 1);
    if i < n - 1 {
      IndexAt(parts, n - 1, i);
      assert Index(parts, n)[6 * i..6 * i + 6] == Index(parts, n - 1)[6 * i..6 * i + 6];
    }
  }

  lemma HeadLength(parts: seq<Bytes>)
    ensures |Header(|parts|) + Index(parts, |parts| + 1)| == 12 + (|parts| + 1) * 6
  {
    IndexLength(parts, |parts| + 1);
  }

  lemma PartOfConcat(parts: seq<Bytes>, i: nat)
    requires i < |parts|
    ensures var from := |Concat(parts[..i])|;
      && |Concat(parts[..i + 1])| == from + |parts[i]| <= |Concat(parts)|
      && Concat(parts)[from..from + |parts[i]|] == parts[i]
  {
    ConcatAt(parts, i);
    ConcatPrefix(parts, i + 1);
    var before, all := Concat(parts[..i]), Concat(parts);
    assert all[..|before| + |parts[i]|] == before + parts[i];
  }

  /** The parts stand at their offsets, back to back, up to the end of the file. */
  lemma LayoutParts(parts: seq<Bytes>, i: nat)
    requires i < |parts|
    ensures Offset(parts, i) <= Offset(parts, i + 1) <= |Layout(parts)|
    ensures Layout(parts)[Offset(parts, i)..Offset(parts, i + 1)] == parts[i]
  {
    hide Header, Index, Concat;
    HeadLength(parts);
    PartOfConcat(parts, i);
    var head := Header(|parts|) + Index(parts, |parts| + 1);
    var from := |Concat(parts[..i])|;
    SliceAfter(head, Concat(parts), from, from + |parts[i]|);
  }

  lemma LayoutEnd(parts: seq<Bytes>)
    ensures Offset(parts, |parts|) == |Layout(parts)|
  {
    IndexLength(parts, |parts| + 1);
    assert parts[..|parts|] == parts;
  }

  lemma SliceAfter(head: Bytes, tail: Bytes, i: nat, j: nat)
    requires i <= j <= |tail|
    ensures (head + tail)[|head| + i..|head| + j] == tail[i..j]
  {
  }

  lemma {:induction false} ConcatPrefix(parts: seq<Bytes>, i: nat)
    requires i <= |parts|
    ensures Concat(parts[..i]) <= Concat(parts)
    decreases |parts| - i
  {
    if i < |parts| {
      ConcatAt(parts, i);
      ConcatPrefix(parts, i + 1);
    } else {
      assert parts[..i] == parts;
    }
  }

  lemma {:induction false} OffsetsGrow(parts: seq<Bytes>, i: nat, j: nat)
    requires i <= j <= |parts|
    ensures Offset(parts, i) <= Offset(parts, j)
    decreases j - i
  {
    if i < j {
      ConcatAt(parts, j - 1);
      OffsetsGrow(parts, i, j - 1);
    }
  }

  // ----- Reading -----

  datatype ReadError =
    | Truncated | NotVersion5 | NoManifestEntry | NotMonotonic | BeyondEnd | BadManifest | CountsDiffer | NoPath

  /** The offset in index entry `i` of a file. */
  function ReadOffset(file: Bytes, i: nat): nat
    requires 12 + i * 6 + 6 <= |file|
  {
    FromLe32(file[12 + i * 6 + 2..12 + i * 6 + 6])
  }

  function Offsets(file: Bytes, count: nat): (r: seq<nat>)
    requires 12 + (count + 1) * 6 <= |file|
    ensures |r| == count + 1
  {
    seq(count + 1, i requires 0 <= i < count + 1 => ReadOffset(file, i))
  }

  predicate Monotonic(offsets: seq<nat>) {
    forall i :: 0 <= i < |offsets| - 1 ==> offsets[i] <= offsets[i + 1]
  }

  /** The path of entry `i` names the range of part `i + 1`; a later entry wins. */
  function Ranges(names: seq<Option<Bytes>>, offsets: seq<nat>): map<Bytes, (nat, nat)>
    requires |names| + 2 == |offsets| && Monotonic(offsets)
    requires forall i :: 0 <= i < |names| ==> names[i].Some?
  {
    RangesUpTo(names, offsets, |names|)
  }

  function RangesUpTo(names: seq<Option<Bytes>>, offsets: seq<nat>, n: nat): map<Bytes, (nat, nat)>
    requires n <= |names| && |names| + 2 == |offsets| && Monotonic(offsets)
    requires forall i :: 0 <= i < |names| ==> names[i].Some?
  {
    if n == 0 then map[]
    else RangesUpTo(names, offsets, n - 1)[names[n - 1].value := (offsets[n], offsets[n + 1] - offsets[n])]
  }

  function Parse(c: Coding, file: Bytes): Result<map<Bytes, (nat, nat)>, ReadError> {
    if |file| < 12 then Err(Truncated)
    else if FromLe32(file[0..4]) != VERSION then Err(NotVersion5)
    else
      var count := FromLe16(file[8..10]);
      if count < 1 then Err(NoManifestEntry)
      else if |file| < 12 + (count + 1) * 6 then Err(Truncated)
      else
        var offsets := Offsets(file, count);
        if !Monotonic(offsets) then Err(NotMonotonic)
        else if offsets[count] > |file| then Err(BeyondEnd)
        else
          OffsetsBelow(offsets, 1);
          match c.entries(file[offsets[0]..offsets[1]])
          case None => Err(BadManifest)
          case Some(names) =>
            if |names| + 1 != count then Err(CountsDiffer)
            else if exists i :: 0 <= i < |names| && names[i].None? then Err(NoPath)
            else Ok(Ranges(names, offsets))
  }

  lemma {:induction false} OffsetsBelow(offsets: seq<nat>, i: nat)
    requires i < |offsets| && Monotonic(offsets)
    ensures offsets[i] <= offsets[|offsets| - 1]
    decreases |offsets| - i
  {
    if i < |offsets| - 1 {
      OffsetsBelow(offsets, i + 1);
    }
  }

  lemma {:induction false} RangesInside(names: seq<Option<Bytes>>, offsets: seq<nat>, n: nat, path: Bytes)
    requires n <= |names| && |names| + 2 == |offsets| && Monotonic(offsets)
    requires forall i :: 0 <= i < |names| ==> names[i].Some?
    requires path in RangesUpTo(names, offsets, n)
    ensures var range := RangesUpTo(names, offsets, n)[path]; range.0 + range.1 <= offsets[|offsets| - 1]
    decreases n
  {
    if path == names[n - 1].value {
      OffsetsBelow(offsets, n + 1);
    } else {
      RangesInside(names, offsets, n - 1, path);
    }
  }

  /** Whatever file the reader accepts, every range it returns lies inside the file. */
  lemma ParsedRangesInside(c: Coding, file: Bytes, path: Bytes)
    requires Parse(c, file).Ok? && path in Parse(c, file).value
    ensures var range := Parse(c, file).value[path]; range.0 + range.1 <= |file|
  {
    var count := FromLe16(file[8..10]);
    var offsets := Offsets(file, count);
    OffsetsBelow(offsets, 1);
    var names := c.entries(file[offsets[0]..offsets[1]]).value;
    RangesInside(names, offsets, |names|, path);
  }

  predicate RangeIs(table: map<Bytes, (nat, nat)>, offsets: seq<nat>, i: nat, path: Bytes)
    requires i + 2 < |offsets|
  {
    path in table && table[path].0 == offsets[i + 1] && table[path].0 + table[path].1 == offsets[i + 2]
  }

  predicate SliceIs(file: Bytes, offsets: seq<nat>, i: nat, body: Bytes)
    requires i + 2 < |offsets|
  {
    offsets[i + 1] <= offsets[i + 2] <= |file| && file[offsets[i + 1]..offsets[i + 2]] == body
  }

  /** The names of distinct paths map each to the range of its own part. */
  lemma {:induction false} RangesOfDistinct(paths: seq<Bytes>, offsets: seq<nat>, n: nat)
    requires n <= |paths| && |paths| + 2 == |offsets| && Monotonic(offsets)
    requires forall i, j :: 0 <= i < j < |paths| ==> paths[i] != paths[j]
    ensures forall p :: p in RangesUpTo(Named(paths), offsets, n) ==> p in paths
    ensures forall i :: 0 <= i < n ==> RangeIs(RangesUpTo(Named(paths), offsets, n), offsets, i, paths[i])
    decreases n
  {
    if n > 0 {
      RangesOfDistinct(paths, offsets, n - 1);
    }
  }

  // ----- Reading what was laid out -----

  lemma LayoutHeader(parts: seq<Bytes>)
    requires |parts| <= U16_MAX
    ensures |Layout(parts)| >= 12 + (|parts| + 1) * 6
    ensures FromLe32(Layout(parts)[0..4]) == VERSION && FromLe16(Layout(parts)[8..10]) == |parts|
  {
    IndexLength(parts, |parts| + 1);
    Le16RoundTrip(|parts|);
    var file := Layout(parts);
    assert file[0..4] == Le32(VERSION);
    assert file[8..10] == Le16(|parts|);
  }

  lemma LayoutOffset(parts: seq<Bytes>, i: nat)
    requires i <= |parts| && Offset(parts, |parts|) <= U32_MAX
    ensures 12 + i * 6 + 6 <= |Layout(parts)| && ReadOffset(Layout(parts), i) == Offset(parts, i)
  {
    OffsetsGrow(parts, i, |parts|);
    Le32RoundTrip(Offset(parts, i));
    IndexAt(parts, |parts| + 1, i);
    var index := Index(parts, |parts| + 1);
    SliceAfter(Header(|parts|), index + Concat(parts), 6 * i + 2, 6 * i + 6);
    assert Layout(parts) == Header(|parts|) + (index + Concat(parts));
    assert (index + Concat(parts))[6 * i + 2..6 * i + 6] == index[6 * i..6 * i + 6][2..6];
    assert IndexEntry(parts, i)[2..6] == Le32(Offset(parts, i));
  }

  lemma LayoutOffsets(parts: seq<Bytes>)
    requires |parts| <= U16_MAX && Offset(parts, |parts|) <= U32_MAX
    requires 12 + (|parts| + 1) * 6 <= |Layout(parts)|
    ensures var offsets := Offsets(Layout(parts), |parts|);
      Monotonic(offsets) && forall i :: 0 <= i <= |parts| ==> offsets[i] == Offset(parts, i)
  {
    forall i | 0 <= i <= |parts| ensures Offsets(Layout(parts), |parts|)[i] == Offset(parts, i) {
      LayoutOffset(parts, i);
    }
    forall i | 0 <= i < |parts| ensures Offset(parts, i) <= Offset(parts, i + 1) {
      OffsetsGrow(parts, i, i + 1);
    }
  }

  /** A file of a manifest and resources, as the packer writes it. */
  function PackFile(c: Coding, paths: seq<Bytes>, bodies: seq<Bytes>): Bytes
    requires |paths| == |bodies|
  {
    Layout([c.manifest(c.hash(Hashed(paths, bodies)), paths)] + bodies)
  }

  /** What the content hash covers: every path, a zero, and its bytes. */
  function Hashed(paths: seq<Bytes>, bodies: seq<Bytes>): Bytes
    requires |paths| == |bodies|
  {
    if paths == [] then [] else paths[0] + [0] + bodies[0] + Hashed(paths[1..], bodies[1..])
  }

  /** The limits of the format: the entry count and the offsets must be representable. */
  predicate Fits(c: Coding, paths: seq<Bytes>, bodies: seq<Bytes>)
    requires |paths| == |bodies|
  {
    |paths| + 1 <= U16_MAX && |PackFile(c, paths, bodies)| <= U32_MAX
  }

  /** A laid out file whose first part is a manifest of these paths is accepted. */
  lemma LayoutParses(c: Coding, parts: seq<Bytes>, paths: seq<Bytes>)
    requires 1 <= |parts| <= U16_MAX && Offset(parts, |parts|) <= U32_MAX && |paths| + 1 == |parts|
    requires c.entries(parts[0]) == Some(Named(paths))
    ensures 12 + (|parts| + 1) * 6 <= |Layout(parts)| && Monotonic(Offsets(Layout(parts), |parts|))
    ensures Parse(c, Layout(parts)) == Ok(Ranges(Named(paths), Offsets(Layout(parts), |parts|)))
  {
    hide Layout, Offset, Ranges;
    LayoutEnd(parts);
    LayoutHeader(parts);
    LayoutOffsets(parts);
    LayoutParts(parts, 0);
    var offsets := Offsets(Layout(parts), |parts|);
    assert offsets[0] == Offset(parts, 0) && offsets[1] == Offset(parts, 1);
    assert offsets[|parts|] == |Layout(parts)|;
  }

  /** Reading a written pack gives, for each path, the range that holds its bytes. */
  lemma WrittenReadsBack(c: Coding, paths: seq<Bytes>, bodies: seq<Bytes>)
    requires Lawful(c) && |paths| == |bodies| && Fits(c, paths, bodies)
    requires forall i, j :: 0 <= i < j < |paths| ==> paths[i] != paths[j]
    ensures Parse(c, PackFile(c, paths, bodies)).Ok?
    ensures Holds(PackFile(c, paths, bodies), Parse(c, PackFile(c, paths, bodies)).value, paths, bodies)
  {
    hide Layout, Offset, Parse, Offsets, Monotonic, Named;
    var manifest := c.manifest(c.hash(Hashed(paths, bodies)), paths);
    var parts := [manifest] + bodies;
    LayoutEnd(parts);
    LayoutParses(c, parts, paths);
    RangesHold(parts, paths, bodies);
  }

  lemma RangesHold(parts: seq<Bytes>, paths: seq<Bytes>, bodies: seq<Bytes>)
    requires |paths| == |bodies| && |parts| == |bodies| + 1 && parts[1..] == bodies
    requires |parts| <= U16_MAX && Offset(parts, |parts|) <= U32_MAX
    requires 12 + (|parts| + 1) * 6 <= |Layout(parts)| && Monotonic(Offsets(Layout(parts), |parts|))
    requires forall i, j :: 0 <= i < j < |paths| ==> paths[i] != paths[j]
    ensures Holds(Layout(parts), Ranges(Named(paths), Offsets(Layout(parts), |parts|)), paths, bodies)
  {
    hide Layout, Offset, Offsets, Ranges, Holds, Monotonic, Named;
    var file, offsets := Layout(parts), Offsets(Layout(parts), |parts|);
    LayoutOffsets(parts);
    forall i | 0 <= i < |paths| ensures SliceIs(file, offsets, i, bodies[i]) {
      LayoutParts(parts, i + 1);
      assert parts[i + 1] == parts[1..][i];
    }
    TableHolds(file, offsets, paths, bodies);
  }

  lemma TableHolds(file: Bytes, offsets: seq<nat>, paths: seq<Bytes>, bodies: seq<Bytes>)
    requires |paths| == |bodies| && |offsets| == |paths| + 2 && Monotonic(offsets)
    requires forall i, j :: 0 <= i < j < |paths| ==> paths[i] != paths[j]
    requires forall i :: 0 <= i < |paths| ==> SliceIs(file, offsets, i, bodies[i])
    ensures Holds(file, Ranges(Named(paths), offsets), paths, bodies)
  {
    hide RangesUpTo, Monotonic;
    RangesOfDistinct(paths, offsets, |paths|);
    var table := RangesUpTo(Named(paths), offsets, |paths|);
    forall i | 0 <= i < |paths| ensures HeldAt(file, table, paths[i], bodies[i]) {
      assert RangeIs(table, offsets, i, paths[i]) && SliceIs(file, offsets, i, bodies[i]);
    }
  }

  predicate HeldAt(file: Bytes, table: map<Bytes, (nat, nat)>, path: Bytes, body: Bytes) {
    && path in table && table[path].0 + table[path].1 <= |file|
    && file[table[path].0..table[path].0 + table[path].1] == body
  }

  /** The table names exactly the paths, and each range holds the path's bytes. */
  ghost predicate Holds(file: Bytes, table: map<Bytes, (nat, nat)>, paths: seq<Bytes>, bodies: seq<Bytes>)
    requires |paths| == |bodies|
  {
    && (forall p :: p in table ==> p in paths)
    && (forall i :: 0 <= i < |paths| ==> HeldAt(file, table, paths[i], bodies[i]))
  }

  // ----- Packing -----

  /** A path is under a prefix when it is the prefix or continues it with a slash. */
  predicate Under(path: Bytes, prefix: Bytes) {
    path == prefix || (prefix < path && path[|prefix|] == SLASH)
  }

  predicate Changed(path: Bytes, prefixes: seq<Bytes>) {
    exists i :: 0 <= i < |prefixes| && Under(path, prefixes[i])
  }

  datatype PackError =
    | DuplicatePath | NothingToPack | DigestRequired | BaseDrift | BaseInvalid(error: ReadError) | PrefixRequired
    | ResourceLimit | EntryMissing | SizeLimit

  /** An earlier pack, and the digest the caller expects of it. */
  datatype BasePack = BasePack(file: Bytes, digest: Option<Bytes>)

  function OpenBase(c: Coding, base: Option<BasePack>): Result<Option<map<Bytes, (nat, nat)>>, PackError> {
    match base
    case None => Ok(None)
    case Some(b) =>
      if b.digest.None? then Err(DigestRequired)
      else if c.hash(b.file) != b.digest.value then Err(BaseDrift)
      else
        match Parse(c, b.file)
        case Err(e) => Err(BaseInvalid(e))
        case Ok(table) => Ok(Some(table))
  }

  predicate FromBase(r: Resource, table: Option<map<Bytes, (nat, nat)>>, prefixes: seq<Bytes>) {
    table.Some? && !Changed(r.path, prefixes)
  }

  /** The bytes packed for a resource: those of the base when it counts as unchanged. */
  function Body(r: Resource, base: Option<BasePack>, table: Option<map<Bytes, (nat, nat)>>, prefixes: seq<Bytes>): Option<Bytes> {
    if !FromBase(r, table, prefixes) then Some(r.data)
    else if r.path in table.value && base.Some? && table.value[r.path].0 + table.value[r.path].1 <= |base.value.file| then
      Some(base.value.file[table.value[r.path].0..table.value[r.path].0 + table.value[r.path].1])
    else None
  }

  predicate AllBodies(rs: seq<Resource>, base: Option<BasePack>, table: Option<map<Bytes, (nat, nat)>>, prefixes: seq<Bytes>) {
    forall i :: 0 <= i < |rs| ==> Body(rs[i], base, table, prefixes).Some?
  }

  function Bodies(rs: seq<Resource>, base: Option<BasePack>, table: Option<map<Bytes, (nat, nat)>>, prefixes: seq<Bytes>): (r: seq<Bytes>)
    requires AllBodies(rs, base, table, prefixes)
  {
    seq(|rs|, i requires 0 <= i < |rs| => Body(rs[i], base, table, prefixes).value)
  }

  function Paths(rs: seq<Resource>): seq<Bytes> { seq(|rs|, i requires 0 <= i < |rs| => rs[i].path) }

  function Pack(c: Coding, collected: seq<Resource>, base: Option<BasePack>, prefixes: seq<Bytes>): Result<Bytes, PackError> {
    var rs := SortByPath(collected);
    if AdjacentDuplicate(rs) then Err(DuplicatePath)
    else if rs == [] then Err(NothingToPack)
    else
      var opening := OpenBase(c, base);
      if opening.Err? then Err(opening.error)
      else
        var table := opening.value;
        if table.Some? && prefixes == [] then Err(PrefixRequired)
        else if |rs| + 1 > U16_MAX then Err(ResourceLimit)
        else if !AllBodies(rs, base, table, prefixes) then Err(EntryMissing)
        else
          var bodies := Bodies(rs, base, table, prefixes);
          if !Fits(c, Paths(rs), bodies) then Err(SizeLimit)
          else Ok(PackFile(c, Paths(rs), bodies))
  }
}
