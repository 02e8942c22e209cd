/**
 * The state behind the "viewed" checkboxes that the userscript adds to a pull
 * request's file tree: one table of file records, one table of directory
 * records, and the counter that numbers directories. The rule the script keeps
 * is that a directory is checked exactly when all of its direct children
 * (files and directories) are checked.
 *
 * This module holds the records, the structural well-formedness every
 * reachable state has, the aggregation rule, and the two derived views of the
 * tree used to state properties: the chain of directories above a directory,
 * and the files below a directory in the order the bulk update visits them.
 */
module FileTree {

  datatype Option<T> = None | Some(value: T)

  /** The root directory ("root"), or the n-th directory registered since the last reset ("directory-n"). */
  datatype DirId = Root | Directory(index: nat)

  /** Files are keyed by the identifier the host page gives each diff. */
  type FileId = string

  /** An entry of the file table; the checkbox id it also stores is derived from the file id and left out. */
  datatype FileInfo = FileInfo(parent: Option<DirId>, checked: bool)

  /** An entry of the directory table, with its children in registration order. */
  datatype DirInfo = DirInfo(
    parent: Option<DirId>,
    checked: bool,
    dirChildren: seq<DirId>,
    fileChildren: seq<FileId>)

  datatype State = State(
    files: map<FileId, FileInfo>,
    dirs: map<DirId, DirInfo>,
    nextIndex: nat)

  /** The lookups that fail (a TypeError in the script) when an id is not in its table. */
  datatype Error =
    | UnknownParent(parent: DirId)
    | UnknownFile(file: FileId)
    | UnknownDirectory(dir: DirId)

  datatype Result<T> = Ok(value: T) | Err(error: Error)

  /** Position in registration order: the root first, then directories by counter value. */
  function Rank(d: DirId): nat {
    match d
    case Root => 0
    case Directory(n) => n + 1
  }

  /*
   * Structural well-formedness: every lookup the script performs succeeds, and
   * parent links point strictly backwards in registration order, so walking up
   * (or down) the tree terminates.
   */

  /** A directory id in the table was handed out by the counter. */
  predicate Issued(s: State, d: DirId) {
    d.Directory? ==> d.index < s.nextIndex
  }

  predicate DirWellFormed(s: State, d: DirId)
    requires d in s.dirs
  {
    var info := s.dirs[d];
    && Issued(s, d)
    && (info.parent.Some? ==> info.parent.value in s.dirs && Rank(info.parent.value) < Rank(d))
    && (forall c <- info.dirChildren :: c in s.dirs && Rank(d) < Rank(c))
    && (forall f <- info.fileChildren :: f in s.files)
  }

  predicate FileWellFormed(s: State, f: FileId)
    requires f in s.files
  {
    s.files[f].parent.Some? ==> s.files[f].parent.value in s.dirs
  }

  predicate WellFormed(s: State) {
    && (forall d {:trigger DirWellFormed(s, d)} :: d in s.dirs ==> DirWellFormed(s, d))
    && (forall f :: f in s.files ==> FileWellFormed(s, f))
  }

  /** The counter's next value is not yet the id of any directory. */
  lemma NextIdIsFresh(s: State)
    requires WellFormed(s)
    ensures Directory(s.nextIndex) !in s.dirs
    ensures forall d :: d in s.dirs ==> Rank(d) <= s.nextIndex
  {
    forall d | d in s.dirs
      ensures Issued(s, d)
    {
      assert DirWellFormed(s, d);
    }
  }

  /*
   * Linkage: the child lists and the parent links describe the same tree.
   */

  predicate DirLinked(s: State, d: DirId)
    requires WellFormed(s) && d in s.dirs
  {
    assert DirWellFormed(s, d);
    var info := s.dirs[d];
    && (forall c <- info.dirChildren :: s.dirs[c].parent == Some(d))
    && (forall f <- info.fileChildren :: s.files[f].parent == Some(d))
    && (info.parent.Some? ==> d in s.dirs[info.parent.value].dirChildren)
  }

  predicate FileLinked(s: State, f: FileId)
    requires WellFormed(s) && f in s.files
  {
    assert FileWellFormed(s, f);
    var parent := s.files[f].parent;
    parent.Some? ==> f in s.dirs[parent.value].fileChildren
  }

  predicate Linked(s: State)
    requires WellFormed(s)
  {
    && (forall d {:trigger DirLinked(s, d)} :: d in s.dirs ==> DirLinked(s, d))
    && (forall f :: f in s.files ==> FileLinked(s, f))
  }

  /** The invariant every state built by the operations keeps. */
  predicate Consistent(s: State) {
    WellFormed(s) && Linked(s)
  }

  /*
   * The aggregation rule.
   */

  /** Every direct child of `d`, file or directory, is checked. */
  predicate AllChildrenChecked(s: State, d: DirId)
    requires WellFormed(s) && d in s.dirs
  {
    assert DirWellFormed(s, d);
    && (forall f <- s.dirs[d].fileChildren :: s.files[f].checked)
    && (forall c <- s.dirs[d].dirChildren :: s.dirs[c].checked)
  }

  /** Every directory is checked exactly when all of its direct children are. */
  predicate Aggregated(s: State)
    requires WellFormed(s)
  {
    forall d {:trigger AllChildrenChecked(s, d)} :: d in s.dirs ==> s.dirs[d].checked == AllChildrenChecked(s, d)
  }

  /*
   * Two states have the same shape when they differ at most in `checked`
   * flags. None of the check-state updates changes the shape.
   */

  predicate SameLinks(x: DirInfo, y: DirInfo) {
    x.parent == y.parent && x.dirChildren == y.dirChildren && x.fileChildren == y.fileChildren
  }

  predicate SameShape(a: State, b: State) {
    && a.nextIndex == b.nextIndex
    && a.files.Keys == b.files.Keys
    && a.dirs.Keys == b.dirs.Keys
    && (forall f :: f in a.files ==> a.files[f].parent == b.files[f].parent)
    && (forall d :: d in a.dirs ==> SameLinks(a.dirs[d], b.dirs[d]))
  }

  lemma SameShapeTransitive(a: State, b: State, c: State)
    requires SameShape(a, b) && SameShape(b, c)
    ensures SameShape(a, c)
  {
  }

  /** Well-formedness and linkage depend on the shape only. */
  lemma SameShapeKeepsConsistency(a: State, b: State)
    requires WellFormed(a) && SameShape(a, b)
    ensures WellFormed(b)
    ensures Linked(a) ==> Linked(b)
  {
    forall d | d in b.dirs
      ensures DirWellFormed(b, d)
    {
      assert DirWellFormed(a, d);
    }
    forall f | f in b.files
      ensures FileWellFormed(b, f)
    {
      assert FileWellFormed(a, f);
    }
    if Linked(a) {
      forall d | d in b.dirs
        ensures DirLinked(b, d)
      {
        assert DirLinked(a, d);
      }
      forall f | f in b.files
        ensures FileLinked(b, f)
      {
        assert FileLinked(a, f);
      }
    }
  }

  /** Overwriting one directory's flag keeps the shape. */
  function SetDirChecked(s: State, d: DirId, v: bool): (r: State)
    requires d in s.dirs
    ensures SameShape(s, r)
    ensures r.files == s.files
    ensures r.dirs[d].checked == v
    ensures forall x :: x in s.dirs && x != d ==> r.dirs[x] == s.dirs[x]
  {
    s.(dirs := s.dirs[d := s.dirs[d].(checked := v)])
  }

  /** Overwriting one file's flag keeps the shape. */
  function SetFileChecked(s: State, f: FileId, v: bool): (r: State)
    requires f in s.files
    ensures SameShape(s, r)
    ensures r.dirs == s.dirs
    ensures r.files[f].checked == v
    ensures forall g :: g in s.files && g != f ==> r.files[g] == s.files[g]
  {
    s.(files := s.files[f := s.files[f].(checked := v)])
  }

  /*
   * The chain of directories from `d` up to the top of its tree, following
   * parent links; `d` itself included.
   */
  ghost function AncestorsOrSelf(s: State, d: DirId): (r: set<DirId>)
    requires WellFormed(s) && d in s.dirs
    ensures d in r
    ensures forall x <- r :: x in s.dirs && Rank(x) <= Rank(d)
    decreases Rank(d)
  {
    assert DirWellFormed(s, d);
    match s.dirs[d].parent
    case None => {d}
    case Some(p) => {d} + AncestorsOrSelf(s, p)
  }

  lemma {:induction false} AncestorsSameShape(a: State, b: State, d: DirId)
    requires WellFormed(a) && SameShape(a, b) && d in a.dirs
    ensures WellFormed(b)
    ensures AncestorsOrSelf(a, d) == AncestorsOrSelf(b, d)
    decreases Rank(d)
  {
    SameShapeKeepsConsistency(a, b);
    assert SameLinks(a.dirs[d], b.dirs[d]);
    assert DirWellFormed(a, d);
    match a.dirs[d].parent
    case None =>
    case Some(p) => AncestorsSameShape(a, b, p);
  }

  /** The chain above a directory depends on the parent links alone. */
  lemma {:induction false} SameParentsSameAncestors(a: State, b: State, d: DirId)
    requires WellFormed(a) && WellFormed(b) && d in a.dirs
    requires forall x :: x in a.dirs ==> x in b.dirs && b.dirs[x].parent == a.dirs[x].parent
    ensures AncestorsOrSelf(a, d) == AncestorsOrSelf(b, d)
    decreases Rank(d)
  {
    assert DirWellFormed(a, d);
    match a.dirs[d].parent
    case None =>
    case Some(p) => SameParentsSameAncestors(a, b, p);
  }

  /*
   * The files below `d`, in the order the bulk update writes them: first,
   * for each child directory in turn, the files below it; then `d`'s own files.
   */
  function SubtreeFiles(s: State, d: DirId): (r: seq<FileId>)
    requires WellFormed(s) && d in s.dirs
    ensures forall f <- r :: f in s.files
    decreases s.nextIndex - Rank(d), 1, 0
  {
    assert DirWellFormed(s, d);
    FilesBelow(s, s.dirs[d].dirChildren, Rank(d)) + s.dirs[d].fileChildren
  }

  /** The files below each directory of `cs`, concatenated; `lo` bounds the ranks from below. */
  function FilesBelow(s: State, cs: seq<DirId>, ghost lo: nat): (r: seq<FileId>)
    requires WellFormed(s)
    requires forall c <- cs :: c in s.dirs && lo < Rank(c)
    ensures forall f <- r :: f in s.files
    decreases s.nextIndex - lo, 0, |cs|
  {
    if cs == [] then []
    else
      assert DirWellFormed(s, cs[0]);
      SubtreeFiles(s, cs[0]) + FilesBelow(s, cs[1..], lo)
  }

  lemma {:induction false} SubtreeFilesSameShape(a: State, b: State, d: DirId)
    requires WellFormed(a) && SameShape(a, b) && d in a.dirs
    ensures WellFormed(b)
    ensures SubtreeFiles(a, d) == SubtreeFiles(b, d)
    decreases a.nextIndex - Rank(d), 1, 0
  {
    SameShapeKeepsConsistency(a, b);
    assert SameLinks(a.dirs[d], b.dirs[d]);
    assert DirWellFormed(a, d);
    FilesBelowSameShape(a, b, a.dirs[d].dirChildren, Rank(d));
  }

  lemma {:induction false} FilesBelowSameShape(a: State, b: State, cs: seq<DirId>, lo: nat)
    requires WellFormed(a) && SameShape(a, b)
    requires forall c <- cs :: c in a.dirs && lo < Rank(c)
    ensures WellFormed(b)
    ensures FilesBelow(a, cs, lo) == FilesBelow(b, cs, lo)
    decreases a.nextIndex - lo, 0, |cs|
  {
    SameShapeKeepsConsistency(a, b);
    if cs != [] {
      assert DirWellFormed(a, cs[0]);
      SubtreeFilesSameShape(a, b, cs[0]);
      FilesBelowSameShape(a, b, cs[1..], lo);
    }
  }
}
