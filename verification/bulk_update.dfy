/**
 * Setting every file below a directory to one state, as toggling a
 * directory's checkbox does (the script's updateAllChildren). Each file write
 * goes through the idempotent checkbox write and its change is delivered at
 * once, so directories are only ever updated by upward propagation.
 */
module BulkUpdate {
  import opened FileTree
  import opened ChangeEvents
  import opened TreeFacts

  /** Writes `v` to each file of `fs` in order. */
  function WriteAll(s: State, fs: seq<FileId>, v: bool): (r: State)
    requires WellFormed(s)
    requires forall f <- fs :: f in s.files
    ensures WellFormed(r) && SameShape(s, r)
    ensures forall f <- fs :: r.files[f].checked == v
    ensures forall g :: g in s.files && g !in fs ==> r.files[g] == s.files[g]
    decreases |fs|
  {
    if fs == [] then s
    else
      var s' := WriteViewed(s, fs[0], v);
      var r := WriteAll(s', fs[1..], v);
      SameShapeTransitive(s, s', r);
      r
  }

  /**
   * The bulk update of directory `d`: first each child directory, recursively,
   * in registration order; then each of `d`'s own files.
   */
  function UpdateAllChildren(s: State, d: DirId, v: bool): (r: State)
    requires WellFormed(s) && d in s.dirs
    ensures WellFormed(r) && SameShape(s, r)
    decreases s.nextIndex - Rank(d), 1, 0
  {
    assert DirWellFormed(s, d);
    var s' := UpdateChildDirectories(s, s.dirs[d].dirChildren, v, Rank(d));
    var r := WriteAll(s', s.dirs[d].fileChildren, v);
    SameShapeTransitive(s, s', r);
    r
  }

  /** The bulk update of each directory of `cs` in turn; `lo` bounds their ranks from below. */
  function UpdateChildDirectories(s: State, cs: seq<DirId>, v: bool, ghost lo: nat): (r: State)
    requires WellFormed(s)
    requires forall c <- cs :: c in s.dirs && lo < Rank(c)
    ensures WellFormed(r) && SameShape(s, r)
    decreases s.nextIndex - lo, 0, |cs|
  {
    if cs == [] then s
    else
      assert DirWellFormed(s, cs[0]);
      var s' := UpdateAllChildren(s, cs[0], v);
      var r := UpdateChildDirectories(s', cs[1..], v, lo);
      SameShapeTransitive(s, s', r);
      r
  }

  /** Writing a concatenation is writing its two parts one after the other. */
  lemma {:induction false} WriteAllAppend(s: State, a: seq<FileId>, b: seq<FileId>, v: bool)
    requires WellFormed(s)
    requires forall f <- a + b :: f in s.files
    ensures WellFormed(WriteAll(s, a, v))
    ensures forall f <- b :: f in WriteAll(s, a, v).files
    ensures WriteAll(s, a + b, v) == WriteAll(WriteAll(s, a, v), b, v)
    decreases |a|
  {
    if a == [] {
      assert a + b == b;
    } else {
      WriteAllFirst(s, a, b, v);
      WriteAllAppend(WriteViewed(s, a[0], v), a[1..], b, v);
    }
  }

  /** One step of the writes of `a` and of `a + b`: both start with `a`'s first file. */
  lemma WriteAllFirst(s: State, a: seq<FileId>, b: seq<FileId>, v: bool)
    requires WellFormed(s) && a != []
    requires forall f <- a + b :: f in s.files
    ensures a[0] in s.files
    ensures forall f <- a[1..] + b :: f in WriteViewed(s, a[0], v).files
    ensures WriteAll(s, a + b, v) == WriteAll(WriteViewed(s, a[0], v), a[1..] + b, v)
    ensures WriteAll(s, a, v) == WriteAll(WriteViewed(s, a[0], v), a[1..], v)
  {
    assert a[0] in a + b;
    assert (a + b)[1..] == a[1..] + b;
    assert forall f <- a[1..] + b :: f in a + b;
  }

  /** The bulk update writes exactly the files below `d`, in traversal order. */
  lemma {:induction false} UpdateAllChildrenWritesSubtree(s: State, d: DirId, v: bool)
    requires WellFormed(s) && d in s.dirs
    ensures UpdateAllChildren(s, d, v) == WriteAll(s, SubtreeFiles(s, d), v)
    decreases s.nextIndex - Rank(d), 1, 0
  {
    assert DirWellFormed(s, d);
    var cs := s.dirs[d].dirChildren;
    UpdateChildDirectoriesWritesSubtrees(s, cs, v, Rank(d));
    WriteAllAppend(s, FilesBelow(s, cs, Rank(d)), s.dirs[d].fileChildren, v);
  }

  lemma {:induction false} UpdateChildDirectoriesWritesSubtrees(s: State, cs: seq<DirId>, v: bool, lo: nat)
    requires WellFormed(s)
    requires forall c <- cs :: c in s.dirs && lo < Rank(c)
    ensures UpdateChildDirectories(s, cs, v, lo) == WriteAll(s, FilesBelow(s, cs, lo), v)
    decreases s.nextIndex - lo, 0, |cs|
  {
    if cs != [] {
      var c := cs[0];
      assert DirWellFormed(s, c);
      var s' := UpdateAllChildren(s, c, v);
      UpdateAllChildrenWritesSubtree(s, c, v);
      UpdateChildDirectoriesWritesSubtrees(s', cs[1..], v, lo);
      FilesBelowSameShape(s, s', cs[1..], lo);
      WriteAllAppend(s, SubtreeFiles(s, c), FilesBelow(s, cs[1..], lo), v);
    }
  }

  /** Each write, with its change delivered, keeps the invariant and the aggregation rule. */
  lemma {:induction false} WriteAllKeepsAggregation(s: State, fs: seq<FileId>, v: bool)
    requires Consistent(s) && Aggregated(s)
    requires forall f <- fs :: f in s.files
    ensures Consistent(WriteAll(s, fs, v)) && Aggregated(WriteAll(s, fs, v))
    decreases |fs|
  {
    if fs != [] {
      WriteViewedIsChange(s, fs[0], v);
      FileChangeKeepsAggregation(s, fs[0], v);
      WriteAllKeepsAggregation(WriteViewed(s, fs[0], v), fs[1..], v);
    }
  }

  /**
   * The toggle handler of a directory's checkbox; a directory that is not in
   * the table (a stale id after a reset) fails the lookup.
   */
  function BulkSet(s: State, d: DirId, v: bool): (r: Result<State>)
    requires WellFormed(s)
    ensures r.Err? <==> d !in s.dirs
    ensures r.Err? ==> r.error == UnknownDirectory(d)
    ensures r.Ok? ==> SameShape(s, r.value)
    ensures r.Ok? ==> forall f <- SubtreeFiles(s, d) :: r.value.files[f].checked == v
    ensures r.Ok? ==> forall g :: g in s.files && g !in SubtreeFiles(s, d) ==> r.value.files[g] == s.files[g]
  {
    if d !in s.dirs then Err(UnknownDirectory(d))
    else
      UpdateAllChildrenWritesSubtree(s, d, v);
      Ok(UpdateAllChildren(s, d, v))
  }

  /** The handler of the root's checkbox: the bulk update of the root, which fails in tables without a root. */
  function ToggleRoot(s: State, v: bool): (r: Result<State>)
    requires WellFormed(s)
    ensures r.Err? <==> Root !in s.dirs
    ensures r.Ok? ==> SameShape(s, r.value)
    ensures r.Ok? ==> forall f <- SubtreeFiles(s, Root) :: r.value.files[f].checked == v
    ensures r.Ok? ==> forall g :: g in s.files && g !in SubtreeFiles(s, Root) ==> r.value.files[g] == s.files[g]
  {
    BulkSet(s, Root, v)
  }

  /**
   * After a bulk update of `d` to `v`: the invariant and the rule still hold;
   * every file below `d` is `v` and every other file is as it was; and a
   * directory at or below `d` is checked exactly when `v` is true or no file
   * lies below it.
   */
  lemma BulkSetEffect(s: State, d: DirId, v: bool)
    requires Consistent(s) && Aggregated(s) && d in s.dirs
    ensures Consistent(UpdateAllChildren(s, d, v)) && Aggregated(UpdateAllChildren(s, d, v))
    ensures forall f :: f in s.files ==>
      UpdateAllChildren(s, d, v).files[f].checked == (if FileUnder(s, f, d) then v else s.files[f].checked)
    ensures forall x :: x in s.dirs && d in AncestorsOrSelf(s, x) ==>
      UpdateAllChildren(s, d, v).dirs[x].checked == (v || SubtreeFiles(s, x) == [])
  {
    var r := UpdateAllChildren(s, d, v);
    UpdateAllChildrenWritesSubtree(s, d, v);
    WriteAllKeepsAggregation(s, SubtreeFiles(s, d), v);
    SubtreeFilesExactlyUnder(s, d);
    forall x | x in s.dirs && d in AncestorsOrSelf(s, x)
      ensures r.dirs[x].checked == (v || SubtreeFiles(s, x) == [])
    {
      DescendantFilesIncluded(s, d, x);
      SubtreeFilesSameShape(s, r, x);
      CheckedIffFilesBelowChecked(r, x);
      if !v && SubtreeFiles(s, x) != [] {
        assert !r.files[SubtreeFiles(s, x)[0]].checked;
      }
    }
  }
}
