# Viewed-state aggregation for a pull request's file tree

The userscript `github-add-view-state-to-file-tree.user.js` adds a checkbox next
to every entry of the file tree on a GitHub pull request's "Files changed" page.
A file's checkbox mirrors GitHub's own "Viewed" checkbox for that file. A
directory's checkbox is checked exactly when all of its direct children are
checked. Toggling a directory's checkbox marks every file below it as viewed or
not viewed.

This project models the engine behind those checkboxes. The engine has two
tables and a counter:

- the file table: for each file, its parent directory and whether it is viewed;
- the directory table: for each directory, its parent, its flag, and its child
  directories and child files in registration order;
- the counter that numbers directories `directory-0`, `directory-1`, and so on.
  The root directory is `root`.

The model covers these operations:

- clearing the tables when another pull request is shown;
- registering the root, directories and files;
- upward propagation of a child's new state (`onChildCheckedUpdate`);
- the document-level change listener for GitHub's checkbox;
- the idempotent write to GitHub's checkbox (`updateGithubCheckbox`);
- the bulk update a directory toggle starts (`updateAllChildren`).

Every state is a boolean: each entry holds one `checked` flag, and the script
keeps no partial or pending state and no counts of checked children.

Layout:

- `file_tree.dfy` (`FileTree`): the records and ids, the invariants and the aggregation rule. It also holds two derived views, `AncestorsOrSelf` and `SubtreeFiles` (the files below a directory in bulk-update order).
- `propagation.dfy` (`Propagation`): upward propagation, and the proof that it restores the aggregation rule.
- `events.dfy` (`ChangeEvents`): the change listener and the checkbox write.
- `registration.dfy` (`Registration`): reset and registration.
- `tree_facts.dfy` (`TreeFacts`): ancestry-based facts about the tree.
- `bulk_update.dfy` (`BulkUpdate`): the bulk update.
- `session.dfy` (`Session`): all entry points as one event stream, and the invariant of every reachable state.
- `scenarios.dfy` (`Scenarios`): a worked example on a two-level tree.

A failed table lookup throws a `TypeError` in the script. The model returns
`Err` instead and leaves the tables unchanged.

## Model

| member | source | states |
|---|---|---|
| Registration.Reset | github-add-view-state-to-file-tree.user.js:76-80 | Resetting empties both tables and sets the counter back to 0. The empty tables satisfy the invariant and the aggregation rule. |
| Registration.InitialiseRoot | github-add-view-state-to-file-tree.user.js:82-92 | The root entry has no parent, is checked and has no children. Every other entry, and the counter, stays as it was. |
| Registration.InitialiseRootKeepsInvariant | github-add-view-state-to-file-tree.user.js:82-92 | Registering the root into tables that lack one keeps the invariant and the aggregation rule. |
| Registration.AddDirectory | github-add-view-state-to-file-tree.user.js:120-137 | A new directory takes id `directory-n`, where n is the counter value. That id is fresh, and the counter goes up by one. The directory starts checked with no children and is appended to its parent's child directories; all else stays the same. An unknown parent is an error. |
| Registration.AddDirectoryKeepsInvariant | github-add-view-state-to-file-tree.user.js:120-137 | Registering a directory keeps the invariant and the aggregation rule, because a checked child with no children breaks no rule. |
| Registration.RecordFile | github-add-view-state-to-file-tree.user.js:159-168 | Recording a file stores its entry and appends it to its parent's child files. No directory flag changes. |
| Registration.RecordFileParent | github-add-view-state-to-file-tree.user.js:159-168 | After recording, the parent's children are all checked exactly when the parent was checked and the new file is viewed. |
| Registration.AddFile | github-add-view-state-to-file-tree.user.js:150-174 | Registering a file stores its entry and appends it to the parent's files. Every directory keeps its parent and child directories, and every directory other than the parent keeps its files. A viewed file changes no directory flag. Any flag an unviewed file changes becomes unchecked, and only the parent and the directories above it can change. An unknown parent is an error. |
| Registration.AddFileKeepsInvariant | github-add-view-state-to-file-tree.user.js:150-174 | Registering a file under a fresh id keeps the invariant and the aggregation rule. This holds because only unviewed files need propagation: directories start checked. |
| Registration.UnviewedFileUnchecksAncestors | github-add-view-state-to-file-tree.user.js:166-173 | A file registered as unviewed leaves its parent, and every directory above it, unchecked. |
| Propagation.PropagateChecked | github-add-view-state-to-file-tree.user.js:202-226 | Propagation touches no file, adds or removes no entry and changes no link. Each directory flag that changes takes the propagated value. |
| Propagation.PropagateFrame | github-add-view-state-to-file-tree.user.js:220-225 | Propagation from `d` changes no directory outside the chain from `d` up to the top. |
| Propagation.PropagateStopsEarly | github-add-view-state-to-file-tree.user.js:204-218 | Propagation changes nothing in two cases: a checked update at a directory with an unchecked child, and an unchecked update at an unchecked directory. |
| Propagation.PropagateRestoresAggregation | github-add-view-state-to-file-tree.user.js:202-226 | Suppose the rule fails at most at `d`, and `d` is in the state a child's change to `v` leaves it in. Then propagation re-establishes the rule everywhere. |
| Propagation.StepMovesUp | github-add-view-state-to-file-tree.user.js:220-225 | Setting a directory's flag and moving to its parent moves the single violation of the rule up to the parent. |
| Propagation.StepAtTop | github-add-view-state-to-file-tree.user.js:220-225 | At a directory with no parent, setting its flag completes the repair. |
| Propagation.PropagateStable | github-add-view-state-to-file-tree.user.js:202-226 | In tables that keep the rule, two updates leave everything unchanged: a checked update, and an unchecked update at an unchecked directory. |
| ChangeEvents.ApplyFileChange | github-add-view-state-to-file-tree.user.js:355-363 | The listener sets the file's flag. It changes no other file, and only the ancestors of the file's parent can change. A file without a parent changes no directory. |
| ChangeEvents.FileChanged | github-add-view-state-to-file-tree.user.js:355-363 | The listener fails exactly for a file that is not in the table. Otherwise the file takes the new state and no other file changes. A file without a parent changes no directory, and for a file with a parent only the parent and the directories above it can change. |
| ChangeEvents.FileChangeKeepsAggregation | github-add-view-state-to-file-tree.user.js:355-363 | A delivered change, together with the propagation it starts, keeps the invariant and the aggregation rule. |
| ChangeEvents.ChangeSettlesDirectories | github-add-view-state-to-file-tree.user.js:355-363 | After a change, each directory is checked exactly when every file below it is viewed. |
| ChangeEvents.RedundantChangeIsNoOp | github-add-view-state-to-file-tree.user.js:355-363 | Delivering a file's current state again leaves the tables exactly as they were. |
| ChangeEvents.WriteViewed | github-add-view-state-to-file-tree.user.js:191-200 | The write leaves the file in the written state and changes no other file. Writing the state the file already has changes nothing. |
| ChangeEvents.ToggleFile | github-add-view-state-to-file-tree.user.js:179-186 | Toggling a file's own checkbox fails exactly for a file not in the table. Otherwise the file takes the new state and no other file changes. If the file already had that state, nothing changes. |
| ChangeEvents.WriteViewedIsChange | github-add-view-state-to-file-tree.user.js:191-200 | In tables that keep the rule, the write's equality guard only saves work: the write equals delivering the change. |
| FileTree.NextIdIsFresh | github-add-view-state-to-file-tree.user.js:121 | The next counter value names no registered directory. |
| FileTree.SubtreeFiles | github-add-view-state-to-file-tree.user.js:228-242 | Every file the traversal below a directory lists is in the file table. |
| TreeFacts.SubtreeFilesExactlyUnder | github-add-view-state-to-file-tree.user.js:228-242 | The traversal below `d` lists exactly the files whose chain of parents passes through `d`. |
| TreeFacts.CheckedIffFilesBelowChecked | github-add-view-state-to-file-tree.user.js:202-226 | Under the rule, a directory is checked exactly when every file below it is viewed. A directory with no files below it is checked. |
| TreeFacts.UncheckedClimbs | github-add-view-state-to-file-tree.user.js:216-225 | Under the rule, every directory above an unchecked directory is unchecked. |
| BulkUpdate.WriteAll | github-add-view-state-to-file-tree.user.js:237-241 | Writing a list of files leaves each of them in the written state and every other file unchanged. |
| BulkUpdate.UpdateAllChildren | github-add-view-state-to-file-tree.user.js:228-242 | The recursive bulk update changes no shape and keeps well-formedness. |
| BulkUpdate.UpdateAllChildrenWritesSubtree | github-add-view-state-to-file-tree.user.js:228-242 | The recursive bulk update equals one flat sequence of writes over the files below the directory, in traversal order. |
| BulkUpdate.WriteAllKeepsAggregation | github-add-view-state-to-file-tree.user.js:237-241 | Each write, with its change delivered, keeps the invariant and the rule. |
| BulkUpdate.ToggleRoot | github-add-view-state-to-file-tree.user.js:110-112 | Toggling the root's checkbox fails exactly for tables without a root. Otherwise every file below the root takes the new state, every other file is unchanged, and the shape is kept. |
| BulkUpdate.BulkSet | github-add-view-state-to-file-tree.user.js:142-144 | A directory toggle fails exactly for an unknown directory. Otherwise every file below the directory takes the new state and every other file is unchanged. |
| BulkUpdate.BulkSetEffect | github-add-view-state-to-file-tree.user.js:228-242 | After a bulk update the invariant and the rule hold. A file changes exactly when it lies below the directory. Every directory at or below it is checked exactly when the new state is "viewed" or no file lies below that directory. |
| Session.Step | github-add-view-state-to-file-tree.user.js:328-339 | A change of pull request leaves both tables empty and the counter at 0. Registering the root gives it no parent, no children and a checked flag. A toggle fails exactly for an unknown id. Otherwise a file toggle sets just that file, and a directory toggle sets exactly the files below the directory. No other file changes. |
| Session.StepKeepsInvariant | github-add-view-state-to-file-tree.user.js:328-364 | Every entry point, applied to a state that keeps the invariant and the rule, yields such a state. |
| Session.ReachableStatesAggregate | github-add-view-state-to-file-tree.user.js:328-364 | Take any admissible sequence of events after a reset. Every state it reaches keeps the invariant and the aggregation rule. |
| Session.ReachableFlagsFollowFiles | github-add-view-state-to-file-tree.user.js:328-364 | In every reachable state, a directory is checked exactly when every file below it is viewed. |
| Session.ResetForgetsIds | github-add-view-state-to-file-tree.user.js:332-334 | After a reset, every lookup by an earlier id fails. |
| Scenarios.RegistrationBuildsTwoLevels | github-add-view-state-to-file-tree.user.js:82-173 | Three steps (the root, directory 0 under it, then a viewed file "a" in directory 0) build the expected tables. |
| Scenarios.UnviewedSecondFile | github-add-view-state-to-file-tree.user.js:166-173 | Adding an unviewed "b" to that directory unchecks both the directory and the root. |
| Scenarios.ViewedSecondFile | github-add-view-state-to-file-tree.user.js:355-363 | Marking "b" viewed checks both of them again. |

## Left out

- Presentation is left out. This covers creating and styling the checkboxes, the CSS injection, the separator and label elements, and copying each flag into its checkbox element (`document.getElementById(...).checked = ...`). Each checkbox is assumed to show its entry's flag, with one exception: toggling off a directory with no file below it unchecks its checkbox on the page, but the bulk update writes nothing, so the directory's flag stays checked (the `SubtreeFiles(s, x) == []` case of `BulkUpdate.BulkSetEffect`).
- The page scanning is left out: the `MutationObserver`, the debounce, and the walk over tree entries. That includes the walk's `return` where `continue` looks intended (lines 293-295 and 304-306), which stops a scan at the first entry already seen. Only the calls the scan makes are modelled, as events in `Session`.
- Finding a parent directory by walking up the page, and the string munging of file ids, are left out. Parent ids and file ids are inputs to registration.
- Reading the pull-request number from the URL is left out. Only its effect is modelled: a change of pull request resets the tables.
- GitHub's "Viewed" checkbox is identified with the file's recorded flag. The script compares the checkbox element itself, which agrees with the flag as long as every change reaches the listener.
- The dispatched `change` event is assumed to reach the document-level listener at once. The event is created without bubbling, so that delivery is an assumption.
- The script's DOM flag saying the root was initialised is left out; it is kept per file-tree element and survives a reset. `Session.Admissible` assumes instead that the page shows one file tree and renders no entry again, so the root is registered only into tables without one and each file id only once.
- Registering the root or a file a second time is not covered by the invariant lemmas, and it breaks the aggregation rule in the script too. The script marks elements of the page, not ids (lines 284-285, 297 and 308), and it scans every file tree on the page (lines 314-318). A second tree therefore calls `initialiseRoot` again, which replaces the root with an entry that has no children (lines 86-92), and it registers its file ids again (lines 160 and 167). For example, take a file whose siblings are all viewed. If it is first registered as not viewed and then registered again as viewed, its parent stays unchecked although every child of that parent is now checked, because a viewed registration propagates nothing (lines 171-173).
- Registration.AddDirectory: the script increments the counter and stores the new entry before it looks up the parent. An unknown parent therefore throws after those writes. The model returns an error with the tables unchanged.
- Registration.AddDirectory: the model looks up the parent in the tables as they were before the new entry. The script looks it up afterwards. The two differ only if a directory were its own parent, which a fresh id rules out.
- Registration.AddFile: on an unknown parent the script has already stored the file entry before throwing. The model returns an error with the tables unchanged.
- Registration.AddFileKeepsInvariant: requires a file id that is not yet in the table. Registering an id again overwrites its entry and appends it to the parent's list a second time, as the script does. No invariant is claimed for that case, because the script breaks the rule there too (see the line on registering a second time); `Session.Admissible` assumes a page on which it does not happen.
- ChangeEvents.FileChanged: a change for a file that is not in the table throws in the script after the checkbox has already changed on the page. The model reports the error and keeps the tables.
