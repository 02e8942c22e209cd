/**
 * Upward propagation of a child's new check state through its ancestors
 * (the script's onChildCheckedUpdate).
 */
module Propagation {
  import opened FileTree

  /**
   * Directory `d` has just had a child become `v`. An unchecked update stops
   * at a directory that is already unchecked; a checked update stops at a
   * directory that still has an unchecked child. Otherwise `d` takes the new
   * state and the update continues to its parent, ending at a directory with
   * no parent (the root).
   */
  function PropagateChecked(s: State, d: DirId, v: bool): (r: State)
    requires WellFormed(s) && d in s.dirs
    ensures WellFormed(r) && SameShape(s, r)
    ensures r.files == s.files
    ensures forall x :: x in s.dirs && r.dirs[x].checked != s.dirs[x].checked ==> r.dirs[x].checked == v
    decreases Rank(d)
  {
    var info := s.dirs[d];
    if (v && !AllChildrenChecked(s, d)) || (!v && !info.checked) then
      s
    else
      var s' := SetDirChecked(s, d, v);
      SameShapeKeepsConsistency(s, s');
      assert DirWellFormed(s, d);
      match info.parent
      case None => s'
      case Some(p) =>
        AncestorsSameShape(s, s', p);
        var r := PropagateChecked(s', p, v);
        SameShapeTransitive(s, s', r);
        r
  }

  /** Propagation from `d` changes no directory outside the chain from `d` up to the top. */
  lemma {:induction false} PropagateFrame(s: State, d: DirId, v: bool)
    requires WellFormed(s) && d in s.dirs
    ensures forall x :: x in s.dirs && x !in AncestorsOrSelf(s, d) ==> PropagateChecked(s, d, v).dirs[x] == s.dirs[x]
    decreases Rank(d)
  {
    var info := s.dirs[d];
    if !((v && !AllChildrenChecked(s, d)) || (!v && !info.checked)) {
      var s' := SetDirChecked(s, d, v);
      assert DirWellFormed(s, d);
      match info.parent
      case None =>
      case Some(p) =>
        SameShapeKeepsConsistency(s, s');
        AncestorsSameShape(s, s', p);
        PropagateFrame(s', p, v);
    }
  }

  /** The early exits: in either stopping case nothing changes. */
  lemma PropagateStopsEarly(s: State, d: DirId, v: bool)
    requires WellFormed(s) && d in s.dirs
    requires (v && !AllChildrenChecked(s, d)) || (!v && !s.dirs[d].checked)
    ensures PropagateChecked(s, d, v) == s
  {
  }

  /**
   * The aggregation rule holds everywhere except possibly at `d`, and `d` is
   * in the situation a child update of `v` leaves it in: after an unchecked
   * update `d` has an unchecked child; after a checked update `d` is not
   * checked while it has an unchecked child.
   */
  predicate PendingAt(s: State, d: DirId, v: bool)
    requires WellFormed(s) && d in s.dirs
  {
    && (forall x {:trigger AllChildrenChecked(s, x)} :: x in s.dirs && x != d ==> s.dirs[x].checked == AllChildrenChecked(s, x))
    && (if v then s.dirs[d].checked ==> AllChildrenChecked(s, d) else !AllChildrenChecked(s, d))
  }

  /** Changing one directory's flag only affects the rule at that directory and at its parent. */
  lemma SetDirCheckedLocal(s: State, d: DirId, v: bool)
    requires Consistent(s) && d in s.dirs
    ensures WellFormed(SetDirChecked(s, d, v))
    ensures forall x :: x in s.dirs && Some(x) != s.dirs[d].parent ==>
      AllChildrenChecked(SetDirChecked(s, d, v), x) == AllChildrenChecked(s, x)
  {
    var s' := SetDirChecked(s, d, v);
    SameShapeKeepsConsistency(s, s');
    forall x | x in s.dirs && Some(x) != s.dirs[d].parent
      ensures AllChildrenChecked(s', x) == AllChildrenChecked(s, x)
    {
      assert DirLinked(s, x);
      assert DirWellFormed(s, x);
      assert d !in s.dirs[x].dirChildren;
    }
  }

  /** Where propagation stops, the rule holds at `d` as well. */
  lemma StopKeepsAggregation(s: State, d: DirId, v: bool)
    requires WellFormed(s) && d in s.dirs && PendingAt(s, d, v)
    requires (v && !AllChildrenChecked(s, d)) || (!v && !s.dirs[d].checked)
    ensures Aggregated(s)
  {
  }

  /** Where propagation continues, `d` takes the state of all its children. */
  lemma StepSettlesDirectory(s: State, d: DirId, v: bool)
    requires Consistent(s) && d in s.dirs && PendingAt(s, d, v)
    requires !((v && !AllChildrenChecked(s, d)) || (!v && !s.dirs[d].checked))
    ensures WellFormed(SetDirChecked(s, d, v))
    ensures AllChildrenChecked(SetDirChecked(s, d, v), d) == v
  {
    var s' := SetDirChecked(s, d, v);
    SameShapeKeepsConsistency(s, s');
    assert DirWellFormed(s, d);
    assert d !in s.dirs[d].dirChildren;
    assert AllChildrenChecked(s', d) == AllChildrenChecked(s, d);
  }

  /** At the top of the tree, one flag change completes the repair. */
  lemma StepAtTop(s: State, d: DirId, v: bool)
    requires Consistent(s) && d in s.dirs && PendingAt(s, d, v)
    requires !((v && !AllChildrenChecked(s, d)) || (!v && !s.dirs[d].checked))
    requires s.dirs[d].parent.None?
    ensures WellFormed(SetDirChecked(s, d, v))
    ensures Aggregated(SetDirChecked(s, d, v))
  {
    SetDirCheckedLocal(s, d, v);
    StepSettlesDirectory(s, d, v);
  }

  /** After the step, the parent is in the situation a child update of `v` leaves it in. */
  lemma StepPreparesParent(s: State, d: DirId, v: bool, p: DirId)
    requires Consistent(s) && d in s.dirs && PendingAt(s, d, v)
    requires !((v && !AllChildrenChecked(s, d)) || (!v && !s.dirs[d].checked))
    requires s.dirs[d].parent == Some(p)
    ensures WellFormed(SetDirChecked(s, d, v)) && p in s.dirs && p != d
    ensures if v then SetDirChecked(s, d, v).dirs[p].checked ==> AllChildrenChecked(SetDirChecked(s, d, v), p)
            else !AllChildrenChecked(SetDirChecked(s, d, v), p)
  {
    var s' := SetDirChecked(s, d, v);
    SameShapeKeepsConsistency(s, s');
    assert p in s.dirs && p != d by { assert DirWellFormed(s, d); }
    assert d in s.dirs[p].dirChildren by { assert DirLinked(s, d); }
    if v {
      if !s.dirs[d].checked {
        assert !AllChildrenChecked(s, p);
      } else {
        assert s' == s;
      }
    } else {
      assert !AllChildrenChecked(s', p);
    }
  }

  /** Below the top, one flag change moves the single violation of the rule up to the parent. */
  lemma StepMovesUp(s: State, d: DirId, v: bool, p: DirId)
    requires Consistent(s) && d in s.dirs && PendingAt(s, d, v)
    requires !((v && !AllChildrenChecked(s, d)) || (!v && !s.dirs[d].checked))
    requires s.dirs[d].parent == Some(p)
    ensures Consistent(SetDirChecked(s, d, v)) && p in s.dirs
    ensures PendingAt(SetDirChecked(s, d, v), p, v)
  {
    var s' := SetDirChecked(s, d, v);
    SameShapeKeepsConsistency(s, s');
    SetDirCheckedLocal(s, d, v);
    StepSettlesDirectory(s, d, v);
    StepPreparesParent(s, d, v, p);
    forall x | x in s'.dirs && x != p
      ensures s'.dirs[x].checked == AllChildrenChecked(s', x)
    {
      if x != d {
        assert s'.dirs[x] == s.dirs[x];
      }
    }
  }

  /** Propagation re-establishes the aggregation rule everywhere. */
  lemma {:induction false} PropagateRestoresAggregation(s: State, d: DirId, v: bool)
    requires Consistent(s) && d in s.dirs
    requires PendingAt(s, d, v)
    ensures Consistent(PropagateChecked(s, d, v))
    ensures Aggregated(PropagateChecked(s, d, v))
    decreases Rank(d)
  {
    var r := PropagateChecked(s, d, v);
    SameShapeKeepsConsistency(s, r);
    if (v && !AllChildrenChecked(s, d)) || (!v && !s.dirs[d].checked) {
      StopKeepsAggregation(s, d, v);
    } else {
      var s' := SetDirChecked(s, d, v);
      match s.dirs[d].parent
      case None =>
        StepAtTop(s, d, v);
      case Some(p) =>
        assert DirWellFormed(s, d);
        StepMovesUp(s, d, v, p);
        PropagateRestoresAggregation(s', p, v);
    }
  }

  /**
   * In a tree that keeps the rule, a checked update never changes anything,
   * and an unchecked update changes nothing when the directory is already
   * unchecked.
   */
  lemma {:induction false} PropagateStable(s: State, d: DirId, v: bool)
    requires WellFormed(s) && Aggregated(s) && d in s.dirs
    requires v || !s.dirs[d].checked
    ensures PropagateChecked(s, d, v) == s
    decreases Rank(d)
  {
    var info := s.dirs[d];
    if (v && !AllChildrenChecked(s, d)) || (!v && !info.checked) {
    } else {
      assert v && info.checked;
      var s' := SetDirChecked(s, d, v);
      assert s' == s;
      match info.parent
      case None =>
      case Some(p) =>
        assert DirWellFormed(s, d);
        PropagateStable(s, p, v);
    }
  }
}
