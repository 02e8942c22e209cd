/**
 * A file's "viewed" state changing: the document-level change listener, which
 * stores the file's new state and propagates it upward, and the idempotent
 * write of a file's state, which delivers a change only when the state differs.
 */
module ChangeEvents {
  import opened FileTree
  import opened Propagation
  import opened TreeFacts

  /**
   * The listener body for a known file: record the new state, then, when the
   * file has a parent directory, propagate the state from that directory up.
   * Only the file itself and the parent's chain of ancestors can change.
   */
  function ApplyFileChange(s: State, f: FileId, v: bool): (r: State)
    requires WellFormed(s) && f in s.files
    ensures WellFormed(r) && SameShape(s, r)
    ensures r.files[f].checked == v
    ensures forall g :: g in s.files && g != f ==> r.files[g] == s.files[g]
    ensures s.files[f].parent.None? ==> r.dirs == s.dirs
    ensures s.files[f].parent.Some? ==>
      forall x :: x in s.dirs && x !in AncestorsOrSelf(s, s.files[f].parent.value) ==> r.dirs[x] == s.dirs[x]
  {
    var s' := SetFileChecked(s, f, v);
    SameShapeKeepsConsistency(s, s');
    match s.files[f].parent
    case None => s'
    case Some(p) =>
      assert FileWellFormed(s, f);
      AncestorsSameShape(s, s', p);
      PropagateFrame(s', p, v);
      var r := PropagateChecked(s', p, v);
      SameShapeTransitive(s, s', r);
      r
  }

  /** The change listener: a change for a file that is not in the table fails the lookup. */
  function FileChanged(s: State, f: FileId, v: bool): (r: Result<State>)
    requires WellFormed(s)
    ensures r.Err? <==> f !in s.files
    ensures r.Err? ==> r.error == UnknownFile(f)
    ensures r.Ok? ==> SameShape(s, r.value) && r.value.files[f].checked == v
    ensures r.Ok? ==> forall g :: g in s.files && g != f ==> r.value.files[g] == s.files[g]
    ensures r.Ok? && s.files[f].parent.None? ==> r.value.dirs == s.dirs
    ensures r.Ok? && s.files[f].parent.Some? ==>
      forall x :: x in s.dirs && x !in AncestorsOrSelf(s, s.files[f].parent.value) ==> r.value.dirs[x] == s.dirs[x]
  {
    if f !in s.files then Err(UnknownFile(f)) else Ok(ApplyFileChange(s, f, v))
  }

  /**
   * Writing a file's state through its "viewed" checkbox: nothing happens when
   * the state is already `v`; otherwise the write delivers a change of the file
   * to `v`. The checkbox's state is the one recorded for the file.
   */
  function WriteViewed(s: State, f: FileId, v: bool): (r: State)
    requires WellFormed(s) && f in s.files
    ensures WellFormed(r) && SameShape(s, r)
    ensures r.files[f].checked == v
    ensures forall g :: g in s.files && g != f ==> r.files[g] == s.files[g]
    ensures s.files[f].checked == v ==> r == s
  {
    if s.files[f].checked == v then s else ApplyFileChange(s, f, v)
  }

  /**
   * The handler of a file's own checkbox: it writes the new state to the
   * file's "viewed" checkbox. A file that is not in the table (a stale id
   * after a reset) fails the lookup.
   */
  function ToggleFile(s: State, f: FileId, v: bool): (r: Result<State>)
    requires WellFormed(s)
    ensures r.Err? <==> f !in s.files
    ensures r.Err? ==> r.error == UnknownFile(f)
    ensures r.Ok? ==> WellFormed(r.value) && SameShape(s, r.value) && r.value.files[f].checked == v
    ensures r.Ok? ==> forall g :: g in s.files && g != f ==> r.value.files[g] == s.files[g]
    ensures r.Ok? && s.files[f].checked == v ==> r.value == s
  {
    if f !in s.files then Err(UnknownFile(f)) else Ok(WriteViewed(s, f, v))
  }

  /** A file change, followed by propagation, keeps the aggregation rule. */
  lemma FileChangeKeepsAggregation(s: State, f: FileId, v: bool)
    requires Consistent(s) && Aggregated(s) && f in s.files
    ensures Consistent(ApplyFileChange(s, f, v))
    ensures Aggregated(ApplyFileChange(s, f, v))
  {
    var s' := SetFileChecked(s, f, v);
    SameShapeKeepsConsistency(s, s');
    SameShapeKeepsConsistency(s, ApplyFileChange(s, f, v));
    assert FileLinked(s, f) && FileWellFormed(s, f);
    forall x | x in s.dirs && Some(x) != s.files[f].parent
      ensures AllChildrenChecked(s', x) == AllChildrenChecked(s, x)
    {
      assert DirLinked(s, x);
    }
    match s.files[f].parent
    case None =>
    case Some(p) =>
      assert f in s.dirs[p].fileChildren;
      assert s.dirs[p].checked == AllChildrenChecked(s, p);
      if v {
        assert s'.dirs[p].checked ==> AllChildrenChecked(s', p) by {
          if s'.dirs[p].checked {
            assert DirWellFormed(s, p);
            forall g <- s.dirs[p].fileChildren
              ensures s'.files[g].checked
            {
              if g != f {
                assert s'.files[g] == s.files[g];
              }
            }
          }
        }
      } else {
        assert !AllChildrenChecked(s', p);
      }
      assert PendingAt(s', p, v);
      PropagateRestoresAggregation(s', p, v);
  }

  /** Delivering a change with the value a file already has leaves the state as it was. */
  lemma RedundantChangeIsNoOp(s: State, f: FileId)
    requires Consistent(s) && Aggregated(s) && f in s.files
    ensures ApplyFileChange(s, f, s.files[f].checked) == s
  {
    var v := s.files[f].checked;
    var s' := SetFileChecked(s, f, v);
    assert s' == s;
    match s.files[f].parent
    case None =>
    case Some(p) =>
      assert FileWellFormed(s, f) && FileLinked(s, f);
      assert f in s.dirs[p].fileChildren;
      if !v {
        assert !AllChildrenChecked(s, p);
      }
      PropagateStable(s, p, v);
  }

  /**
   * In a tree that keeps the rule, the equality guard of the write only saves
   * work: writing always has the effect of delivering the change.
   */
  lemma WriteViewedIsChange(s: State, f: FileId, v: bool)
    requires Consistent(s) && Aggregated(s) && f in s.files
    ensures WriteViewed(s, f, v) == ApplyFileChange(s, f, v)
  {
    if s.files[f].checked == v {
      RedundantChangeIsNoOp(s, f);
    }
  }

  /**
   * After a change is delivered, every directory's flag agrees with the files
   * below it: checked exactly when each of them is viewed.
   */
  lemma ChangeSettlesDirectories(s: State, f: FileId, v: bool)
    requires Consistent(s) && Aggregated(s) && f in s.files
    ensures forall x :: x in s.dirs ==>
      (ApplyFileChange(s, f, v).dirs[x].checked <==> forall g <- SubtreeFiles(s, x) :: ApplyFileChange(s, f, v).files[g].checked)
  {
    var r := ApplyFileChange(s, f, v);
    FileChangeKeepsAggregation(s, f, v);
    forall x | x in s.dirs
      ensures r.dirs[x].checked <==> forall g <- SubtreeFiles(s, x) :: r.files[g].checked
    {
      SubtreeFilesSameShape(s, r, x);
      CheckedIffFilesBelowChecked(r, x);
    }
  }
}
