/**
 * A worked example: the root holds directory 0, which holds file "a",
 * already viewed.
 */
module Scenarios {
  import opened FileTree
  import opened Registration
  import opened ChangeEvents

  /** The tables after the root, directory 0 and file "a" (viewed) are registered. */
  function TwoLevels(): (r: State)
    ensures Consistent(r) && Aggregated(r)
    ensures r.dirs.Keys == {Root, Directory(0)} && r.files.Keys == {"a"}
    ensures r.dirs[Root].checked && r.dirs[Directory(0)].checked
  {
    var s := State(
      map["a" := FileInfo(Some(Directory(0)), true)],
      map[Root := DirInfo(None, true, [Directory(0)], []),
          Directory(0) := DirInfo(Some(Root), true, [], ["a"])],
      1);
    assert DirWellFormed(s, Root) && DirWellFormed(s, Directory(0));
    assert DirLinked(s, Root) && DirLinked(s, Directory(0));
    assert AllChildrenChecked(s, Root) && AllChildrenChecked(s, Directory(0));
    s
  }

  /** Building those tables through the registration operations gives the same result. */
  lemma RegistrationBuildsTwoLevels()
    ensures AddDirectory(InitialiseRoot(Reset()), Some(Root)).Ok?
    ensures AddDirectory(InitialiseRoot(Reset()), Some(Root)).value.1 == Directory(0)
    ensures AddFile(AddDirectory(InitialiseRoot(Reset()), Some(Root)).value.0, "a", Some(Directory(0)), true)
      == Ok(TwoLevels())
  {
    var s1 := InitialiseRoot(Reset());
    assert s1 == State(map[], map[Root := DirInfo(None, true, [], [])], 0);
    var s2 := AddDirectory(s1, Some(Root)).value.0;
    assert [] + [Directory(0)] == [Directory(0)];
    assert s2.dirs.Keys == {Root, Directory(0)};
    assert s2.dirs[Root] == DirInfo(None, true, [Directory(0)], []);
    assert s2.dirs[Directory(0)] == DirInfo(Some(Root), true, [], []);
    var s3 := AddFile(s2, "a", Some(Directory(0)), true).value;
    assert s3.files == TwoLevels().files;
    assert [] + ["a"] == ["a"];
    assert s3.dirs.Keys == {Root, Directory(0)};
    assert s3.dirs[Directory(0)] == DirInfo(Some(Root), true, [], ["a"]);
    assert s3.dirs[Root] == TwoLevels().dirs[Root];
    assert s3.dirs == TwoLevels().dirs;
    assert s3.nextIndex == 1;
  }

  /** Starting from those tables, registering "b" as not viewed unchecks directory 0 and the root. */
  lemma UnviewedSecondFile(s0: State)
    requires s0 == TwoLevels()
    ensures AddFile(s0, "b", Some(Directory(0)), false).Ok?
    ensures var s := AddFile(s0, "b", Some(Directory(0)), false).value;
      && Consistent(s) && Aggregated(s)
      && !s.dirs[Directory(0)].checked && !s.dirs[Root].checked
      && s.files.Keys == {"a", "b"} && s.files["a"].checked
      && s.dirs[Directory(0)].fileChildren == ["a", "b"]
      && s.dirs[Root].dirChildren == [Directory(0)] && s.dirs[Root].fileChildren == []
  {
    UnviewedFileUnchecksAncestors(s0, "b", Directory(0));
    AddFileKeepsInvariant(s0, "b", Some(Directory(0)), false);
    var s := AddFile(s0, "b", Some(Directory(0)), false).value;
    assert DirWellFormed(s, Directory(0));
    assert Root in AncestorsOrSelf(s, Directory(0));
  }

  /** In those tables, marking "b" as viewed checks directory 0 and the root again. */
  lemma ViewedSecondFile(s: State)
    requires Consistent(s) && Aggregated(s)
    requires s.files.Keys == {"a", "b"} && s.files["a"].checked
    requires Directory(0) in s.dirs && s.dirs[Directory(0)].fileChildren == ["a", "b"]
    requires Root in s.dirs && s.dirs[Root].dirChildren == [Directory(0)] && s.dirs[Root].fileChildren == []
    ensures FileChanged(s, "b", true).Ok?
    ensures FileChanged(s, "b", true).value.dirs[Directory(0)].checked
    ensures FileChanged(s, "b", true).value.dirs[Root].checked
  {
    ChangeSettlesDirectories(s, "b", true);
    var r := ApplyFileChange(s, "b", true);
    assert DirWellFormed(s, Root) && DirWellFormed(s, Directory(0));
    assert forall g <- SubtreeFiles(s, Directory(0)) :: r.files[g].checked;
    assert forall g <- SubtreeFiles(s, Root) :: r.files[g].checked;
  }
}
