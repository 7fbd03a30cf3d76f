/** Resources in the byte order of their paths. */
module PackOrder {
  import opened Base

  /** One file of the tree: its path as bytes, and its content. */
  datatype Resource = Resource(path: Bytes, data: Bytes)

  /** Byte order of paths, shorter first. */
  predicate Before(a: Bytes, b: Bytes) {
    a == [] || (b != [] && (a[0] < b[0] || (a[0] == b[0] && Before(a[1..], b[1..]))))
  }

  lemma {:induction false} BeforeTotal(a: Bytes, b: Bytes)
    ensures Before(a, b) || Before(b, a)
    decreases |a|
  {
    if a != [] && b != [] && a[0] == b[0] {
      BeforeTotal(a[1..], b[1..]);
    }
  }

  lemma {:induction false} BeforeAntisymmetric(a: Bytes, b: Bytes)
    requires Before(a, b) && Before(b, a)
    ensures a == b
    decreases |a|
  {
    if a != [] {
      BeforeAntisymmetric(a[1..], b[1..]);
      assert a == [a[0]] + a[1..] && b == [b[0]] + b[1..];
    }
  }

  lemma {:induction false} BeforeTransitive(a: Bytes, b: Bytes, c: Bytes)
    requires Before(a, b) && Before(b, c)
    ensures Before(a, c)
    decreases |a|
  {
    if a != [] && a[0] == b[0] && b[0] == c[0] {
      BeforeTransitive(a[1..], b[1..], c[1..]);
    }
  }

  predicate Sorted(rs: seq<Resource>) {
    forall i, j :: 0 <= i < j < |rs| ==> Before(rs[i].path, rs[j].path)
  }

  function Insert(r: Resource, rs: seq<Resource>): seq<Resource> {
    if rs == [] then [r]
    else if Before(r.path, rs[0].path) then [r] + rs
    else [rs[0]] + Insert(r, rs[1..])
  }

  function SortByPath(rs: seq<Resource>): seq<Resource> {
    if rs == [] then [] else Insert(rs[0], SortByPath(rs[1..]))
  }

  lemma {:induction false} InsertContent(r: Resource, rs: seq<Resource>)
    ensures multiset(Insert(r, rs)) == multiset{r} + multiset(rs)
    decreases |rs|
  {
    if rs != [] && !Before(r.path, rs[0].path) {
      InsertContent(r, rs[1..]);
      assert rs == [rs[0]] + rs[1..];
    }
  }

  lemma {:induction false} InsertSorted(r: Resource, rs: seq<Resource>)
    requires Sorted(rs)
    ensures Sorted(Insert(r, rs))
    decreases |rs|
  {
    if rs == [] {
    } else if Before(r.path, rs[0].path) {
      forall j | 0 <= j < |rs| ensures Before(r.path, rs[j].path) {
        if j > 0 {
          BeforeTransitive(r.path, rs[0].path, rs[j].path);
        }
      }
    } else {
      var rest := Insert(r, rs[1..]);
      InsertSorted(r, rs[1..]);
      InsertContent(r, rs[1..]);
      BeforeTotal(r.path, rs[0].path);
      forall j | 0 <= j < |rest| ensures Before(rs[0].path, rest[j].path) {
        assert rest[j] in multiset(rest);
        if rest[j] != r {
          assert rest[j] in rs[1..];
        }
      }
    }
  }

  lemma {:induction false} SortIsSortedPermutation(rs: seq<Resource>)
    ensures Sorted(SortByPath(rs)) && multiset(SortByPath(rs)) == multiset(rs)
    ensures |SortByPath(rs)| == |rs|
    decreases |rs|
  {
    if rs != [] {
      SortIsSortedPermutation(rs[1..]);
      InsertSorted(rs[0], SortByPath(rs[1..]));
      InsertContent(rs[0], SortByPath(rs[1..]));
      assert rs == [rs[0]] + rs[1..];
    }
    assert |multiset(SortByPath(rs))| == |multiset(rs)|;
  }

  /** No path is used twice. */
  predicate Distinct(rs: seq<Resource>) {
    forall i, j :: 0 <= i < j < |rs| ==> rs[i].path != rs[j].path
  }

  predicate AdjacentDuplicate(rs: seq<Resource>) {
    exists i :: 0 <= i < |rs| - 1 && rs[i].path == rs[i + 1].path
  }

  /** In sorted resources it is enough to compare neighbours. */
  lemma NeighboursDecide(rs: seq<Resource>)
    requires Sorted(rs)
    ensures AdjacentDuplicate(rs) <==> !Distinct(rs)
  {
    if !Distinct(rs) {
      var i, j :| 0 <= i < j < |rs| && rs[i].path == rs[j].path;
      if j > i + 1 {
        assert Before(rs[i].path, rs[i + 1].path) && Before(rs[i + 1].path, rs[j].path);
        BeforeAntisymmetric(rs[i].path, rs[i + 1].path);
      }
      assert rs[i].path == rs[i + 1].path;
    }
  }

  method HasDuplicate(rs: seq<Resource>) returns (found: bool)
    ensures found <==> AdjacentDuplicate(rs)
  {
    var i := 0;
    while i + 1 < |rs|
      invariant 0 <= i
      invariant forall k :: 0 <= k < i && k < |rs| - 1 ==> rs[k].path != rs[k + 1].path
    {
      if rs[i].path == rs[i + 1].path {
        return true;
      }
      i := i + 1;
    }
    return false;
  }

  lemma {:induction false} CountPath(rs: seq<Resource>, i: nat, j: nat)
    requires i < j < |rs| && rs[i] == rs[j]
    ensures multiset(rs)[rs[i]] >= 2
  {
    assert rs == rs[..j] + [rs[j]] + rs[j + 1..];
    assert rs[..j][i] == rs[i];
    assert rs[i] in multiset(rs[..j]);
  }

  /** Distinctness does not depend on the order. */
  lemma DistinctPermuted(rs: seq<Resource>, ts: seq<Resource>)
    requires multiset(rs) == multiset(ts) && Distinct(rs)
    ensures Distinct(ts)
  {
    forall i, j | 0 <= i < j < |ts| ensures ts[i].path != ts[j].path {
      if ts[i].path == ts[j].path {
        assert ts[i] in multiset(rs) && ts[j] in multiset(rs);
        var a :| 0 <= a < |rs| && rs[a] == ts[i];
        var b :| 0 <= b < |rs| && rs[b] == ts[j];
        assert a == b;
        CountPath(ts, i, j);
        OnceEach(rs, a);
      }
    }
  }

  lemma OnceEach(rs: seq<Resource>, i: nat)
    requires i < |rs| && Distinct(rs)
    ensures multiset(rs)[rs[i]] == 1
  {
    assert rs == rs[..i] + [rs[i]] + rs[i + 1..];
    assert rs[i] !in rs[..i] && rs[i] !in rs[i + 1..];
  }

  lemma SortedTail(rs: seq<Resource>)
    requires rs != [] && Sorted(rs) && Distinct(rs)
    ensures Sorted(rs[1..]) && Distinct(rs[1..])
  {
  }

  lemma FirstsEqual(rs: seq<Resource>, ts: seq<Resource>)
    requires multiset(rs) == multiset(ts) && Sorted(rs) && Sorted(ts) && Distinct(ts) && rs != [] && ts != []
    ensures rs[0] == ts[0]
  {
    FirstIsLeast(rs, ts);
    FirstIsLeast(ts, rs);
    BeforeAntisymmetric(rs[0].path, ts[0].path);
    assert rs[0] in multiset(ts);
    var i :| 0 <= i < |ts| && ts[i] == rs[0];
    assert i == 0;
  }

  lemma TailContent(rs: seq<Resource>)
    requires rs != []
    ensures multiset(rs[1..]) == multiset(rs) - multiset{rs[0]}
  {
    assert rs == [rs[0]] + rs[1..];
  }

  /** The sorted order of distinct resources is unique. */
  lemma {:induction false} SortedUnique(rs: seq<Resource>, ts: seq<Resource>)
    requires multiset(rs) == multiset(ts) && Sorted(rs) && Sorted(ts) && Distinct(rs) && Distinct(ts)
    ensures rs == ts
    decreases |rs|
  {
    hide Sorted, Distinct;
    assert |multiset(rs)| == |rs| && |multiset(ts)| == |ts|;
    if rs != [] {
      FirstsEqual(rs, ts);
      TailContent(rs);
      TailContent(ts);
      SortedTail(rs);
      SortedTail(ts);
      SortedUnique(rs[1..], ts[1..]);
      assert rs == [rs[0]] + rs[1..] && ts == [ts[0]] + ts[1..];
    }
  }

  lemma FirstIsLeast(rs: seq<Resource>, ts: seq<Resource>)
    requires multiset(rs) == multiset(ts) && Sorted(rs) && rs != [] && ts != []
    ensures Before(rs[0].path, ts[0].path)
  {
    assert ts[0] in multiset(rs);
    var i :| 0 <= i < |rs| && rs[i] == ts[0];
    BeforeTotal(rs[0].path, rs[0].path);
  }
}
