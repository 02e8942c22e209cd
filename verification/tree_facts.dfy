/**
 * Facts about the tree that the tables describe: the files the bulk update
 * visits below a directory are exactly the files whose parent chain passes
 * through it, and the aggregation rule, which speaks of direct children only,
 * makes a directory checked exactly when every file below it is checked.
 */
module TreeFacts {
  import opened FileTree

  /** File `f` lies somewhere below directory `d`, judged by following parent links up from `f`. */
  ghost predicate FileUnder(s: State, f: FileId, d: DirId)
    requires WellFormed(s)
  {
    && f in s.files
    && s.files[f].parent.Some?
    && (assert FileWellFormed(s, f); d in AncestorsOrSelf(s, s.files[f].parent.value))
  }

  /** Ancestry is transitive. */
  lemma {:induction false} AncestorsTransitive(s: State, x: DirId, y: DirId)
    requires WellFormed(s) && x in s.dirs && y in AncestorsOrSelf(s, x)
    ensures AncestorsOrSelf(s, y) <= AncestorsOrSelf(s, x)
    decreases Rank(x)
  {
    assert DirWellFormed(s, x);
    if y != x {
      match s.dirs[x].parent
      case None =>
      case Some(p) => AncestorsTransitive(s, p, y);
    }
  }

  /** Every file the traversal below `d` visits has `d` on its parent chain. */
  lemma {:induction false} SubtreeFilesAreUnder(s: State, d: DirId)
    requires Consistent(s) && d in s.dirs
    ensures forall f <- SubtreeFiles(s, d) :: FileUnder(s, f, d)
    decreases s.nextIndex - Rank(d), 1, 0
  {
    assert DirWellFormed(s, d) && DirLinked(s, d);
    FilesBelowAreUnder(s, s.dirs[d].dirChildren, Rank(d), d);
    forall f <- s.dirs[d].fileChildren
      ensures FileUnder(s, f, d)
    {
      assert s.files[f].parent == Some(d);
    }
  }

  lemma {:induction false} FilesBelowAreUnder(s: State, cs: seq<DirId>, lo: nat, d: DirId)
    requires Consistent(s) && d in s.dirs
    requires forall c <- cs :: c in s.dirs && lo < Rank(c) && s.dirs[c].parent == Some(d)
    ensures forall f <- FilesBelow(s, cs, lo) :: FileUnder(s, f, d)
    decreases s.nextIndex - lo, 0, |cs|
  {
    if cs != [] {
      var c := cs[0];
      assert DirWellFormed(s, c);
      SubtreeFilesAreUnder(s, c);
      FilesBelowAreUnder(s, cs[1..], lo, d);
      assert d in AncestorsOrSelf(s, c);
      forall f <- SubtreeFiles(s, c)
        ensures FileUnder(s, f, d)
      {
        assert FileUnder(s, f, c);
        assert FileWellFormed(s, f);
        AncestorsTransitive(s, s.files[f].parent.value, c);
      }
    }
  }

  /** The files below a child directory are among those below the list of children. */
  lemma {:induction false} ChildFilesIncluded(s: State, cs: seq<DirId>, lo: nat, x: DirId)
    requires WellFormed(s) && forall c <- cs :: c in s.dirs && lo < Rank(c)
    requires x in cs
    ensures forall f <- SubtreeFiles(s, x) :: f in FilesBelow(s, cs, lo)
    decreases |cs|
  {
    if cs[0] != x {
      ChildFilesIncluded(s, cs[1..], lo, x);
    }
  }

  /** The files below a directory under `d` are among the files below `d`. */
  lemma {:induction false} DescendantFilesIncluded(s: State, d: DirId, x: DirId)
    requires Consistent(s) && x in s.dirs && d in AncestorsOrSelf(s, x)
    ensures d in s.dirs
    ensures forall f <- SubtreeFiles(s, x) :: f in SubtreeFiles(s, d)
    decreases Rank(x)
  {
    assert DirWellFormed(s, x) && DirLinked(s, x);
    if x != d {
      var q := s.dirs[x].parent.value;
      DescendantFilesIncluded(s, d, q);
      assert DirWellFormed(s, q);
      ChildFilesIncluded(s, s.dirs[q].dirChildren, Rank(q), x);
    }
  }

  /** The traversal below `d` visits exactly the files that lie below `d`. */
  lemma SubtreeFilesExactlyUnder(s: State, d: DirId)
    requires Consistent(s) && d in s.dirs
    ensures forall f :: f in SubtreeFiles(s, d) <==> FileUnder(s, f, d)
  {
    SubtreeFilesAreUnder(s, d);
    forall f | FileUnder(s, f, d)
      ensures f in SubtreeFiles(s, d)
    {
      assert FileWellFormed(s, f) && FileLinked(s, f);
      var p := s.files[f].parent.value;
      DescendantFilesIncluded(s, d, p);
      assert DirWellFormed(s, p);
    }
  }

  /**
   * Under the aggregation rule a directory is checked exactly when every file
   * below it is checked; in particular a directory with no files below it is
   * checked.
   */
  lemma {:induction false} CheckedIffFilesBelowChecked(s: State, d: DirId)
    requires WellFormed(s) && Aggregated(s) && d in s.dirs
    ensures s.dirs[d].checked <==> forall f <- SubtreeFiles(s, d) :: s.files[f].checked
    decreases s.nextIndex - Rank(d), 1, 0
  {
    assert DirWellFormed(s, d);
    assert s.dirs[d].checked == AllChildrenChecked(s, d);
    FilesBelowCheckedIffChildrenChecked(s, s.dirs[d].dirChildren, Rank(d));
  }

  lemma {:induction false} FilesBelowCheckedIffChildrenChecked(s: State, cs: seq<DirId>, lo: nat)
    requires WellFormed(s) && Aggregated(s)
    requires forall c <- cs :: c in s.dirs && lo < Rank(c)
    ensures (forall c <- cs :: s.dirs[c].checked) <==> (forall f <- FilesBelow(s, cs, lo) :: s.files[f].checked)
    decreases s.nextIndex - lo, 0, |cs|
  {
    if cs != [] {
      assert DirWellFormed(s, cs[0]);
      CheckedIffFilesBelowChecked(s, cs[0]);
      FilesBelowCheckedIffChildrenChecked(s, cs[1..], lo);
      assert forall c :: c in cs <==> c == cs[0] || c in cs[1..];
    }
  }

  /** Under the aggregation rule an unchecked directory has only unchecked directories above it. */
  lemma {:induction false} UncheckedClimbs(s: State, y: DirId)
    requires Consistent(s) && Aggregated(s) && y in s.dirs && !s.dirs[y].checked
    ensures forall x <- AncestorsOrSelf(s, y) :: !s.dirs[x].checked
    decreases Rank(y)
  {
    assert DirWellFormed(s, y) && DirLinked(s, y);
    match s.dirs[y].parent
    case None =>
    case Some(q) =>
      assert y in s.dirs[q].dirChildren;
      assert DirWellFormed(s, q);
      assert !AllChildrenChecked(s, q);
      UncheckedClimbs(s, q);
  }
}
