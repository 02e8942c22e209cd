/**
 * The script's entry points as one stream of events, each handled to
 * completion before the next, and the invariant every state reached from a
 * reset keeps: the tables are well formed and linked, and every directory is
 * checked exactly when all its direct children are.
 */
module Session {
  import opened FileTree
  import opened Registration
  import opened ChangeEvents
  import opened BulkUpdate
  import opened TreeFacts

  datatype Event =
    | PullRequestChanged                                       // the page now shows another pull request
    | RootFound                                                // the file tree gets its root checkbox
    | DirectoryFound(parent: Option<DirId>)                    // a directory entry of the file tree
    | FileFound(file: FileId, parent: Option<DirId>, checked: bool)  // a file entry, with its "viewed" state
    | ViewedChanged(file: FileId, checked: bool)               // a "viewed" checkbox changed
    | FileToggled(file: FileId, checked: bool)                 // the added checkbox of a file was toggled
    | DirectoryToggled(dir: DirId, checked: bool)              // the added checkbox of a directory was toggled

  /** Handles one event; a failed lookup leaves the tables unchanged. */
  function Step(s: State, e: Event): (r: Result<State>)
    requires WellFormed(s)
    ensures r.Ok? ==> WellFormed(r.value)
    ensures r.Err? ==> e.DirectoryFound? || e.FileFound? || e.ViewedChanged? || e.FileToggled? || e.DirectoryToggled?
    // another pull request: both tables empty and the counter back at 0
    ensures e.PullRequestChanged? ==> r.Ok? && r.value.files == map[] && r.value.dirs == map[] && r.value.nextIndex == 0
    // the root: registered checked, with no parent and no children
    ensures e.RootFound? ==> r.Ok? && Root in r.value.dirs && r.value.dirs[Root] == DirInfo(None, true, [], []) && r.value.files == s.files
    // a file's own checkbox: the file takes the new state, no other file changes
    ensures e.FileToggled? ==> (r.Err? <==> e.file !in s.files)
    ensures e.FileToggled? && r.Ok? ==>
      && r.value.files.Keys == s.files.Keys
      && r.value.files[e.file].checked == e.checked
      && (forall g :: g in s.files && g != e.file ==> r.value.files[g] == s.files[g])
    // a directory's checkbox (the root's included): every file below takes the new state, no other file changes
    ensures e.DirectoryToggled? ==> (r.Err? <==> e.dir !in s.dirs)
    ensures e.DirectoryToggled? && r.Ok? ==>
      && r.value.files.Keys == s.files.Keys && e.dir in s.dirs
      && (forall f <- SubtreeFiles(s, e.dir) :: r.value.files[f].checked == e.checked)
      && (forall g :: g in s.files && g !in SubtreeFiles(s, e.dir) ==> r.value.files[g] == s.files[g])
  {
    match e
    case PullRequestChanged => Ok(Reset())
    case RootFound =>
      InitialiseRootWellFormed(s);
      Ok(InitialiseRoot(s))
    case DirectoryFound(parent) =>
      AddDirectoryWellFormed(s, parent);
      var res := AddDirectory(s, parent);
      if res.Ok? then Ok(res.value.0) else Err(res.error)
    case FileFound(f, parent, checked) => AddFile(s, f, parent, checked)
    case ViewedChanged(f, checked) => FileChanged(s, f, checked)
    case FileToggled(f, checked) => ToggleFile(s, f, checked)
    case DirectoryToggled(d, checked) => if d == Root then ToggleRoot(s, checked) else BulkSet(s, d, checked)
  }

  /** The state after an event: the handler's result, or the old state when its lookup failed. */
  function Next(s: State, e: Event): (r: State)
    requires WellFormed(s)
    ensures WellFormed(r)
  {
    match Step(s, e)
    case Ok(t) => t
    case Err(_) => s
  }

  /**
   * What is assumed of the page: it shows one file tree, and no entry of it
   * is rendered again, so the root is registered only into tables without
   * one and each file id only once. A second file tree, or an entry
   * rendered again, breaks the aggregation rule in the script as well.
   */
  predicate Admissible(s: State, e: Event) {
    match e
    case RootFound => Root !in s.dirs
    case FileFound(f, _, _) => f !in s.files
    case _ => true
  }

  function Run(s: State, es: seq<Event>): (r: State)
    requires WellFormed(s)
    ensures WellFormed(r)
    decreases |es|
  {
    if es == [] then s else Run(Next(s, es[0]), es[1..])
  }

  predicate AdmissibleRun(s: State, es: seq<Event>)
    requires WellFormed(s)
    decreases |es|
  {
    es == [] || (Admissible(s, es[0]) && AdmissibleRun(Next(s, es[0]), es[1..]))
  }

  /** Every handler keeps the invariant and the aggregation rule. */
  lemma StepKeepsInvariant(s: State, e: Event)
    requires Consistent(s) && Aggregated(s) && Admissible(s, e)
    ensures Consistent(Next(s, e)) && Aggregated(Next(s, e))
  {
    match e
    case PullRequestChanged =>
    case RootFound => InitialiseRootKeepsInvariant(s);
    case DirectoryFound(parent) => AddDirectoryKeepsInvariant(s, parent);
    case FileFound(f, parent, checked) => AddFileKeepsInvariant(s, f, parent, checked);
    case ViewedChanged(f, checked) =>
      if f in s.files {
        FileChangeKeepsAggregation(s, f, checked);
      }
    case FileToggled(f, checked) =>
      if f in s.files {
        WriteViewedIsChange(s, f, checked);
        FileChangeKeepsAggregation(s, f, checked);
      }
    case DirectoryToggled(d, checked) =>
      if d in s.dirs {
        BulkSetEffect(s, d, checked);
      }
  }

  lemma {:induction false} RunKeepsInvariant(s: State, es: seq<Event>)
    requires Consistent(s) && Aggregated(s) && AdmissibleRun(s, es)
    ensures Consistent(Run(s, es)) && Aggregated(Run(s, es))
    decreases |es|
  {
    if es != [] {
      StepKeepsInvariant(s, es[0]);
      RunKeepsInvariant(Next(s, es[0]), es[1..]);
    }
  }

  /** In every state reached from a reset, each directory is checked exactly when all its children are. */
  lemma ReachableStatesAggregate(es: seq<Event>)
    requires AdmissibleRun(Reset(), es)
    ensures Consistent(Run(Reset(), es)) && Aggregated(Run(Reset(), es))
  {
    RunKeepsInvariant(Reset(), es);
  }

  /** After a reset no earlier id is recognised: every lookup by id fails. */
  lemma ResetForgetsIds(f: FileId, d: DirId, v: bool)
    ensures Step(Reset(), ViewedChanged(f, v)) == Err(UnknownFile(f))
    ensures Step(Reset(), FileToggled(f, v)) == Err(UnknownFile(f))
    ensures Step(Reset(), DirectoryToggled(d, v)) == Err(UnknownDirectory(d))
    ensures Step(Reset(), DirectoryFound(Some(d))) == Err(UnknownParent(d))
    ensures Step(Reset(), FileFound(f, Some(d), v)) == Err(UnknownParent(d))
  {
  }

  /**
   * In every state reached from a reset, a directory's flag is determined by
   * the files alone: it is checked exactly when every file below it is viewed.
   */
  lemma ReachableFlagsFollowFiles(es: seq<Event>, d: DirId)
    requires AdmissibleRun(Reset(), es)
    requires d in Run(Reset(), es).dirs
    ensures var s := Run(Reset(), es);
      s.dirs[d].checked <==> forall f <- SubtreeFiles(s, d) :: s.files[f].checked
  {
    ReachableStatesAggregate(es);
    CheckedIffFilesBelowChecked(Run(Reset(), es), d);
  }
}
