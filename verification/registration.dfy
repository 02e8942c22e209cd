/**
 * Building the tables: clearing them when a different pull request is shown,
 * registering the root, directories (numbered by the counter) and files.
 */
module Registration {
  import opened FileTree
  import opened Propagation
  import opened TreeFacts

  /** The empty tables with the directory counter back at 0. */
  function Reset(): (r: State)
    ensures Consistent(r) && Aggregated(r)
    ensures forall d :: d !in r.dirs
    ensures forall f :: f !in r.files
    ensures r.nextIndex == 0
  {
    State(map[], map[], 0)
  }

  /**
   * The root directory: no parent, checked, no children. An existing root
   * entry is overwritten; the caller registers the root once per file tree.
   */
  function InitialiseRoot(s: State): (r: State)
    ensures r.dirs.Keys == s.dirs.Keys + {Root}
    ensures r.dirs[Root] == DirInfo(None, true, [], [])
    ensures forall x :: x in s.dirs && x != Root ==> r.dirs[x] == s.dirs[x]
    ensures r.files == s.files && r.nextIndex == s.nextIndex
  {
    s.(dirs := s.dirs[Root := DirInfo(None, true, [], [])])
  }

  /**
   * A new directory under `parent` (or under no directory): it takes the next
   * counter value as its id, starts checked with no children, and is appended
   * to the parent's directory children. The parent's own flag is left alone:
   * a checked child cannot make it wrong.
   */
  function AddDirectory(s: State, parent: Option<DirId>): (r: Result<(State, DirId)>)
    requires WellFormed(s)
    ensures r.Err? <==> parent.Some? && parent.value !in s.dirs
    ensures r.Err? ==> r.error == UnknownParent(parent.value)
    ensures r.Ok? ==> r.value.1 == Directory(s.nextIndex) && r.value.1 !in s.dirs
    ensures r.Ok? ==> r.value.0.nextIndex == s.nextIndex + 1
    ensures r.Ok? ==> r.value.0.dirs.Keys == s.dirs.Keys + {r.value.1}
    ensures r.Ok? ==> r.value.0.dirs[r.value.1] == DirInfo(parent, true, [], [])
    ensures r.Ok? ==> r.value.0.files == s.files
    ensures r.Ok? && parent.Some? ==>
      r.value.0.dirs[parent.value] == s.dirs[parent.value].(dirChildren := s.dirs[parent.value].dirChildren + [r.value.1])
    ensures r.Ok? ==> forall x :: x in s.dirs && Some(x) != parent ==> r.value.0.dirs[x] == s.dirs[x]
  {
    var id := Directory(s.nextIndex);
    NextIdIsFresh(s);
    if parent.Some? && parent.value !in s.dirs then
      Err(UnknownParent(parent.value))
    else
      var dirs := s.dirs[id := DirInfo(parent, true, [], [])];
      var dirs' := match parent
        case None => dirs
        case Some(p) => dirs[p := dirs[p].(dirChildren := dirs[p].dirChildren + [id])];
      Ok((State(s.files, dirs', s.nextIndex + 1), id))
  }

  /** The file record and the parent's file-children entry, before any propagation. */
  function RecordFile(s: State, f: FileId, parent: Option<DirId>, checked: bool): (r: State)
    requires WellFormed(s)
    requires parent.Some? ==> parent.value in s.dirs
    ensures WellFormed(r)
    ensures r.files == s.files[f := FileInfo(parent, checked)]
    ensures r.dirs.Keys == s.dirs.Keys && r.nextIndex == s.nextIndex
    ensures forall x :: x in s.dirs ==> r.dirs[x].checked == s.dirs[x].checked
    ensures forall x :: x in s.dirs && Some(x) != parent ==> r.dirs[x] == s.dirs[x]
    ensures parent.Some? ==>
      r.dirs[parent.value] == s.dirs[parent.value].(fileChildren := s.dirs[parent.value].fileChildren + [f])
  {
    var files := s.files[f := FileInfo(parent, checked)];
    var r := match parent
      case None => s.(files := files)
      case Some(p) => s.(files := files, dirs := s.dirs[p := s.dirs[p].(fileChildren := s.dirs[p].fileChildren + [f])]);
    assert forall d :: d in r.dirs ==> DirWellFormed(r, d) by {
      forall d | d in r.dirs
        ensures DirWellFormed(r, d)
      {
        assert DirWellFormed(s, d);
      }
    }
    assert forall g :: g in r.files ==> FileWellFormed(r, g) by {
      forall g | g in r.files
        ensures FileWellFormed(r, g)
      {
        if g != f {
          assert FileWellFormed(s, g);
        }
      }
    }
    r
  }

  /**
   * A new file under `parent` with its initial state. A checked file leaves
   * every directory flag alone, since directories start checked; an unchecked
   * file propagates "unchecked" up from its parent.
   */
  function AddFile(s: State, f: FileId, parent: Option<DirId>, checked: bool): (r: Result<State>)
    requires WellFormed(s)
    ensures r.Err? <==> parent.Some? && parent.value !in s.dirs
    ensures r.Err? ==> r.error == UnknownParent(parent.value)
    ensures r.Ok? ==> WellFormed(r.value) && r.value.files == s.files[f := FileInfo(parent, checked)]
    ensures r.Ok? ==> r.value.dirs.Keys == s.dirs.Keys && r.value.nextIndex == s.nextIndex
    ensures r.Ok? && parent.Some? ==>
      r.value.dirs[parent.value].fileChildren == s.dirs[parent.value].fileChildren + [f]
    ensures r.Ok? && checked ==> forall x :: x in s.dirs ==> r.value.dirs[x].checked == s.dirs[x].checked
    ensures r.Ok? ==> forall x :: x in s.dirs && r.value.dirs[x].checked != s.dirs[x].checked ==> !r.value.dirs[x].checked
    ensures r.Ok? ==> forall x :: x in s.dirs ==>
      r.value.dirs[x].parent == s.dirs[x].parent && r.value.dirs[x].dirChildren == s.dirs[x].dirChildren
    ensures r.Ok? ==> forall x :: x in s.dirs && Some(x) != parent ==> r.value.dirs[x].fileChildren == s.dirs[x].fileChildren
    ensures r.Ok? && parent.Some? ==> parent.value in s.dirs
    ensures r.Ok? && parent.Some? ==>
      forall x :: x in s.dirs && x !in AncestorsOrSelf(s, parent.value) ==> r.value.dirs[x].checked == s.dirs[x].checked
  {
    if parent.Some? && parent.value !in s.dirs then
      Err(UnknownParent(parent.value))
    else
      var s' := RecordFile(s, f, parent, checked);
      match parent
      case Some(p) =>
        if !checked then
          SameParentsSameAncestors(s, s', p);
          PropagateFrame(s', p, false);
          Ok(PropagateChecked(s', p, false))
        else Ok(s')
      case None => Ok(s')
  }

  /** Registering the root in tables without one keeps the invariant and the rule. */
  lemma InitialiseRootKeepsInvariant(s: State)
    requires Consistent(s) && Aggregated(s) && Root !in s.dirs
    ensures Consistent(InitialiseRoot(s)) && Aggregated(InitialiseRoot(s))
  {
    var r := InitialiseRoot(s);
    InitialiseRootWellFormed(s);
    InitialiseRootLinked(s);
    forall d | d in r.dirs
      ensures r.dirs[d].checked == AllChildrenChecked(r, d)
    {
      if d != Root {
        assert DirWellFormed(s, d);
        assert s.dirs[d].checked == AllChildrenChecked(s, d);
      }
    }
  }

  lemma InitialiseRootWellFormed(s: State)
    requires WellFormed(s)
    ensures WellFormed(InitialiseRoot(s))
  {
    var r := InitialiseRoot(s);
    forall d | d in r.dirs
      ensures DirWellFormed(r, d)
    {
      if d != Root {
        assert DirWellFormed(s, d);
      }
    }
    forall g | g in r.files
      ensures FileWellFormed(r, g)
    {
      assert FileWellFormed(s, g);
    }
  }

  lemma InitialiseRootLinked(s: State)
    requires Consistent(s) && Root !in s.dirs
    ensures WellFormed(InitialiseRoot(s)) && Linked(InitialiseRoot(s))
  {
    var r := InitialiseRoot(s);
    InitialiseRootWellFormed(s);
    forall d | d in r.dirs
      ensures DirLinked(r, d)
    {
      if d != Root {
        assert DirLinked(s, d) && DirWellFormed(s, d);
      }
    }
    forall g | g in r.files
      ensures FileLinked(r, g)
    {
      assert FileLinked(s, g) && FileWellFormed(s, g);
    }
  }

  /** A registered directory keeps the invariant and the rule. */
  lemma AddDirectoryKeepsInvariant(s: State, parent: Option<DirId>)
    requires Consistent(s) && Aggregated(s)
    ensures AddDirectory(s, parent).Ok? ==>
      Consistent(AddDirectory(s, parent).value.0) && Aggregated(AddDirectory(s, parent).value.0)
  {
    var res := AddDirectory(s, parent);
    if res.Ok? {
      var (r, id) := res.value;
      AddDirectoryWellFormed(s, parent);
      AddDirectoryLinked(s, parent);
      forall d | d in r.dirs
        ensures r.dirs[d].checked == AllChildrenChecked(r, d)
      {
        if d != id {
          assert DirWellFormed(s, d);
          assert s.dirs[d].checked == AllChildrenChecked(s, d);
        }
      }
    }
  }

  lemma AddDirectoryWellFormed(s: State, parent: Option<DirId>)
    requires WellFormed(s)
    ensures AddDirectory(s, parent).Ok? ==> WellFormed(AddDirectory(s, parent).value.0)
  {
    var res := AddDirectory(s, parent);
    if res.Ok? {
      var (r, id) := res.value;
      NextIdIsFresh(s);
      forall d | d in r.dirs
        ensures DirWellFormed(r, d)
      {
        if d != id {
          assert DirWellFormed(s, d);
        }
      }
      forall g | g in r.files
        ensures FileWellFormed(r, g)
      {
        assert FileWellFormed(s, g);
      }
    }
  }

  lemma AddDirectoryLinked(s: State, parent: Option<DirId>)
    requires Consistent(s)
    ensures AddDirectory(s, parent).Ok? ==>
      WellFormed(AddDirectory(s, parent).value.0) && Linked(AddDirectory(s, parent).value.0)
  {
    var res := AddDirectory(s, parent);
    AddDirectoryWellFormed(s, parent);
    if res.Ok? {
      var (r, id) := res.value;
      forall d | d in r.dirs
        ensures DirLinked(r, d)
      {
        AddDirectoryEntryLinked(s, parent, r, id, d);
      }
      forall g | g in r.files
        ensures FileLinked(r, g)
      {
        assert FileLinked(s, g) && FileWellFormed(s, g);
      }
    }
  }

  lemma AddDirectoryEntryLinked(s: State, parent: Option<DirId>, r: State, id: DirId, d: DirId)
    requires Consistent(s)
    requires AddDirectory(s, parent) == Ok((r, id))
    requires WellFormed(r) && d in r.dirs
    ensures DirLinked(r, d)
  {
    if d == id {
      match parent
      case None =>
      case Some(p) => assert id in r.dirs[p].dirChildren;
    } else {
      assert DirLinked(s, d) && DirWellFormed(s, d);
      assert r.dirs[d].parent == s.dirs[d].parent;
      assert r.dirs[d].fileChildren == s.dirs[d].fileChildren;
      forall c <- r.dirs[d].dirChildren
        ensures r.dirs[c].parent == Some(d)
      {
        if c != id {
          assert c in s.dirs[d].dirChildren;
          assert r.dirs[c].parent == s.dirs[c].parent;
        }
      }
      match s.dirs[d].parent
      case None =>
      case Some(q) =>
        assert d in s.dirs[q].dirChildren;
        assert s.dirs[q].dirChildren <= r.dirs[q].dirChildren;
    }
  }

  lemma RecordFileLinked(s: State, f: FileId, parent: Option<DirId>, checked: bool)
    requires Consistent(s) && f !in s.files
    requires parent.Some? ==> parent.value in s.dirs
    ensures WellFormed(RecordFile(s, f, parent, checked)) && Linked(RecordFile(s, f, parent, checked))
  {
    var s' := RecordFile(s, f, parent, checked);
    forall d | d in s'.dirs
      ensures DirLinked(s', d)
    {
      RecordFileEntryLinked(s, f, parent, checked, d);
    }
    forall g | g in s'.files
      ensures FileLinked(s', g)
    {
      if g != f {
        assert FileLinked(s, g) && FileWellFormed(s, g);
      }
    }
  }

  lemma RecordFileEntryLinked(s: State, f: FileId, parent: Option<DirId>, checked: bool, d: DirId)
    requires Consistent(s) && f !in s.files
    requires parent.Some? ==> parent.value in s.dirs
    requires d in s.dirs
    ensures WellFormed(RecordFile(s, f, parent, checked)) && DirLinked(RecordFile(s, f, parent, checked), d)
  {
    var s' := RecordFile(s, f, parent, checked);
    assert DirLinked(s, d) && DirWellFormed(s, d);
    assert s'.dirs[d].parent == s.dirs[d].parent;
    assert s'.dirs[d].dirChildren == s.dirs[d].dirChildren;
    forall g <- s'.dirs[d].fileChildren
      ensures s'.files[g].parent == Some(d)
    {
      if g != f {
        assert g in s.dirs[d].fileChildren;
      }
    }
  }

  /** Recording a file under a fresh id breaks the rule at most at its parent. */
  lemma RecordFilePending(s: State, f: FileId, parent: Option<DirId>, checked: bool)
    requires Consistent(s) && Aggregated(s) && f !in s.files
    requires parent.Some? ==> parent.value in s.dirs
    ensures WellFormed(RecordFile(s, f, parent, checked))
    ensures forall d :: d in s.dirs && Some(d) != parent ==>
      RecordFile(s, f, parent, checked).dirs[d].checked == AllChildrenChecked(RecordFile(s, f, parent, checked), d)
    ensures parent.Some? ==>
      AllChildrenChecked(RecordFile(s, f, parent, checked), parent.value) == (s.dirs[parent.value].checked && checked)
  {
    var s' := RecordFile(s, f, parent, checked);
    forall d | d in s.dirs && Some(d) != parent
      ensures s'.dirs[d].checked == AllChildrenChecked(s', d)
    {
      RecordFileOtherDirectory(s, f, parent, checked, d);
    }
    match parent
    case None =>
    case Some(p) => RecordFileParent(s, f, p, checked);
  }

  lemma RecordFileOtherDirectory(s: State, f: FileId, parent: Option<DirId>, checked: bool, d: DirId)
    requires Consistent(s) && Aggregated(s) && f !in s.files
    requires parent.Some? ==> parent.value in s.dirs
    requires d in s.dirs && Some(d) != parent
    ensures WellFormed(RecordFile(s, f, parent, checked))
    ensures RecordFile(s, f, parent, checked).dirs[d].checked == AllChildrenChecked(RecordFile(s, f, parent, checked), d)
  {
    var s' := RecordFile(s, f, parent, checked);
    assert DirWellFormed(s, d);
    assert f !in s.dirs[d].fileChildren;
    assert s'.dirs[d] == s.dirs[d];
    assert s.dirs[d].checked == AllChildrenChecked(s, d);
    assert AllChildrenChecked(s', d) == AllChildrenChecked(s, d);
  }

  lemma RecordFileParent(s: State, f: FileId, p: DirId, checked: bool)
    requires Consistent(s) && Aggregated(s) && f !in s.files && p in s.dirs
    ensures WellFormed(RecordFile(s, f, Some(p), checked))
    ensures AllChildrenChecked(RecordFile(s, f, Some(p), checked), p) == (s.dirs[p].checked && checked)
  {
    var s' := RecordFile(s, f, Some(p), checked);
    assert DirWellFormed(s, p);
    assert s.dirs[p].checked == AllChildrenChecked(s, p);
    var siblings := s.dirs[p].fileChildren;
    assert s'.dirs[p].fileChildren == siblings + [f];
    assert s'.dirs[p].dirChildren == s.dirs[p].dirChildren;
    assert (forall g <- siblings :: s'.files[g].checked) == (forall g <- siblings :: s.files[g].checked) by {
      forall g <- siblings
        ensures s'.files[g] == s.files[g]
      {
        assert g != f;
      }
    }
    assert (forall c <- s.dirs[p].dirChildren :: s'.dirs[c].checked) == (forall c <- s.dirs[p].dirChildren :: s.dirs[c].checked);
    assert s'.files[f].checked == checked;
    assert (forall g <- siblings + [f] :: s'.files[g].checked) == ((forall g <- siblings :: s'.files[g].checked) && checked) by {
      assert forall g :: g in siblings + [f] <==> g in siblings || g == f;
    }
  }

  /** A file registered under a fresh id keeps the invariant and the rule. */
  lemma AddFileKeepsInvariant(s: State, f: FileId, parent: Option<DirId>, checked: bool)
    requires Consistent(s) && Aggregated(s) && f !in s.files
    ensures AddFile(s, f, parent, checked).Ok? ==>
      Consistent(AddFile(s, f, parent, checked).value) && Aggregated(AddFile(s, f, parent, checked).value)
  {
    if !(parent.Some? && parent.value !in s.dirs) {
      var s' := RecordFile(s, f, parent, checked);
      RecordFileLinked(s, f, parent, checked);
      RecordFilePending(s, f, parent, checked);
      match parent
      case None =>
      case Some(p) =>
        if !checked {
          assert PendingAt(s', p, false);
          PropagateRestoresAggregation(s', p, false);
        }
    }
  }

  /** A file registered as not yet viewed leaves its parent and every directory above it unchecked. */
  lemma UnviewedFileUnchecksAncestors(s: State, f: FileId, p: DirId)
    requires Consistent(s) && Aggregated(s) && f !in s.files && p in s.dirs
    ensures AddFile(s, f, Some(p), false).Ok?
    ensures var r := AddFile(s, f, Some(p), false).value;
      forall x <- AncestorsOrSelf(r, p) :: !r.dirs[x].checked
  {
    AddFileKeepsInvariant(s, f, Some(p), false);
    var r := AddFile(s, f, Some(p), false).value;
    assert f in r.dirs[p].fileChildren;
    assert DirWellFormed(r, p);
    assert !AllChildrenChecked(r, p);
    UncheckedClimbs(r, p);
  }
}
