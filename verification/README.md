# A verified model of the code context index

This project models the parts of the repository whose correctness is hard to see from one function, and proves
what they promise. It follows the code; where the code and its comments disagree, that is said below.

- **The live index** (`Live*.dfy`, `VectorRows.dfy`, `ReportedPaths.dfy`): a long-lived graph, manifest and vector
  table follow a disk that changes at any time, while other processes activate new generations, any fallible step
  fails and the process may crash between any two steps. `LiveModel` is the transition system: one step per file
  read, lock operation, table operation and rename. `LiveIndexObject` is the object whose methods take those steps
  one by one, with other tasks running in between; each method proves that what it has done is a run of the
  transition system (`Valid`), and where a result about runs needs a run of a certain form, the method proves
  the form: a full refresh that is applied is a full round, so it ends as convergence says (`ApplyRescan`).
  `LiveProcesses` puts any number of live indexes over the same files.
- **The graph** (`ReferenceEdges.dfy`, `ReferenceBinding.dfy`, `CodeGraph.dfy`, `IndexedGraph.dfy`): files are
  replaced in place and reference edges are recomputed for the affected sources only; the result is the graph built
  from scratch, whose reference edges are those of the same-file-first rule.
- **Searches and requests** (`CallChain.dfy`, `Impact.dfy`, `ImpactExactness.dfy`, `NodeBatches.dfy`).
- **The benchmark tools**: patches (`PatchParsing.dfy`, `Patch.dfy`, `PatchLaws.dfy`), Sainte-Lague selection
  (`Selection.dfy`), the exact signed-rank test (`Midranks.dfy`, `Wilcoxon.dfy`), compact search output
  (`Compact.dfy`).
- **Numbers** (`Words.dfy`, `Rng.dfy`, `Sha256.dfy`, `Sha256Standard.dfy`): SplitMix64 with its shuffle, and
  SHA-256 against sections 4 to 6 of FIPS 180-4.

`dafny verify dfyconfig.toml` checks everything.

## The environment of the live index

A file's stamp is never used again once the file has been written or removed (`LiveModel.Fits`, the clock of
`LiveModel.EditNext`). The active generation changes only under the activation lock, always to a new generation
(`LiveModel.OtherEnabled`), whose graph and manifest agree with the disk when they are activated and whose rows have
ids of symbols and the vectors of their texts. What is said about freshness and rows is said of one live index at a
time over the files of its generation; what is said about fencing holds for any number of them (`LiveProcesses`).
Parsing is a function of the text, and the vector of a text is a function of the text.

A path may be a symbolic link (`LiveModel.FileState`). The walk does not follow links; preparing does
(`LiveModel.Canonical`): it prepares the file the path leads to under that file's id, or nothing if the path leads
out of the project. Opening the vector table may fail, and then a deletion counts as done
(`LiveModel.CommitStep.SkipRows`). Looking up a path, testing and reading a file are one step.

## What is not true as the comments have it

The pending check (core/src/live.rs:298-308) can call a stale graph fresh, even if no state of a file ever
returns. Four runs show it, each from an ordinary first state.

1. A new file cannot be read in the round that finds it, so its entry is taken back; the next, targeted round
   reads it because it is dirty, without listing it; then it is deleted (`LiveScenarios.RetriedThenDeleted`).
2. An indexed file starts to be ignored while it still exists. The walk drops it from the manifest, but
   preparing it only asks whether it exists and reads it again (`LiveScenarios.IgnoredButKept`).
3. A crash falls between the renames of the graph and of the manifest, and a new file that only the graph has is
   deleted before the index is loaded again. A full comparison does not find it
   (`LiveScenarios.CrashBetweenRenames`). So the comment that a graph is never older than its manifest is true
   but not enough: the graph may be newer.
4. An indexed file is replaced by a symbolic link. The walk drops it from the manifest, but preparing follows the
   link and passes over the file itself, so its nodes stay (`LiveScenarios.LinkedElsewhere`).

Rows of the vector table can stay for good, too: "if there is no table there is nothing to delete"
(core/src/vector/store.rs:801-804) also holds for a table that could not be opened, so a first round that only
removes a file may leave its rows and call the file clean (`LiveScenarios.SkippedDeletion`). And the deletion by id
(core/src/vector/store.rs:844-852) spares the sibling files its comment names, but not a file whose path goes on
with a colon or a number sign (`VectorRows.LeavesAloneExactly`).

What is true is proved exactly.

- A step leaves nodes behind, in the running index or in what is stored, if and only if it is one of the steps
  that `LiveFreshness.Spoils` names (`CleanStep`). Creating, indexing and deleting a file, also while the round
  that reads it is running, is none of them.
- Each of the steps named for the running index really is missed: after it there is a run without any edit, retry
  or crash that ends with a stale graph the pending check calls fresh, unless a later round reads the file again
  and finds nothing in it (`LiveMissed.SpoilingStepIsMissed`).
- Between two rounds, a change can be missed without a further edit, retry or crash if and only if it is missed
  already or one of the three conditions of a full round does not hold (`LiveMissed.CanBeMissedExactly`).
- Whatever has happened, a quiet pending check means that the graph is right except for leftovers of files that
  the manifest does not list and the walk does not see (`QuietMeansUpToDate`).
- A full round repairs the graph if and only if three conditions hold that can be checked before it starts,
  whatever persists, loads and other processes do meanwhile: no file it reads is hidden from the walk while it
  holds text, no path with nodes that it takes up is a link that leads elsewhere, and every leftover is read again
  (`FullRoundConverges`, `ReloadConverges`). A targeted round does the same for the files in its scope and the dirty
  ones (`SettledPart`). And whatever failed before, a full round can be run to its end (`FullRoundExists`).
- If no persist stops between its two renames and no load straddles one, the load brings no leftovers
  (`LoadedGraphIsClean`).
- A file that is not dirty has wrong rows if and only if one of four things has happened to it and no later round
  has taken it up (`LiveRows.RowsRun`); in runs without links, clashing paths and unreachable embedders that means: if
  and only if a skipped deletion left rows of it (`DirtyCoversHalfWritten`).
- After a round without an edit and without a skipped deletion, the rows of a file are right if and only if the
  round read it or they were right before, also after a crash and a load (`RoundRepairsRows`, `ReloadRepairsRows`).

## Model

| member | source | states |
|---|---|---|
| LiveShape.ShapeStep | core/src/live.rs:108-128 | the bookkeeping of rounds, locks, versions and generations survives every step of every process |
| LiveFreshness.MatchingStep | core/src/live.rs:489-599 | no step of any process separates a manifest entry that matches the disk from the graph part the file parses to, in memory, in files, in a snapshot or half loaded |
| LiveFreshness.MatchingRun | core/src/live.rs:168-189 | the same over every interleaving of edits, rounds, persists, crashes, loads and activations |
| LiveFreshness.CleanStep | core/src/live.rs:441-483 | a step leaves behind nodes of a file that the manifest belonging to the graph does not list, in the running index or in what is stored, if and only if it is one of the named steps |
| LiveFreshness.CleanRun | core/src/live.rs:489-599 | without such a step, no run leaves nodes of unlisted, unseen files in a graph and a manifest that belong together |
| LiveFreshness.QuietMeansUpToDate | core/src/live.rs:298-308 | after any run, if the pending check finds nothing, the graph is the one built from the disk if and only if it has no leftovers |
| LiveFreshness.NoMissedChange | core/src/live.rs:298-308 | on runs without the named steps, a pending check that finds nothing means that the graph is the one built from the disk |
| LiveFreshness.LoadedGraphIsNotOlder | core/src/live.rs:168-203 | the manifest is read before the graph and the graph is renamed before the manifest, so wherever a load falls, a listed file whose entry still matches the disk has its current part |
| LiveFreshness.LoadedGraphIsClean | core/src/live.rs:168-203 | if no persist ends between its renames, no load straddles one and no edit or read is a named one, a load brings no nodes of unlisted, unseen files |
| LiveMissed.FullRoundExists | core/src/live.rs:338-346 | whatever failed before, the live index of the active generation can run a full round to its end |
| LiveMissed.SpoilingStepIsMissed | core/src/live.rs:298-308 | after each named step there is a run without edit, retry or crash that ends with a stale graph the pending check calls fresh, unless the file is read again by a later round and there is nothing to read in it |
| LiveMissed.CanBeMissedExactly | core/src/live.rs:298-308 | between rounds, such a run exists if and only if a change is missed already or one of the three conditions of a full round does not hold |
| LiveScenarios.InitialIsFresh | core/src/live.rs:172-272 | all that the results about freshness ask of a first state holds for an installed index that agrees with the disk |
| LiveScenarios.RetriedThenDeleted | core/src/live.rs:579-581 | a run in which a retried, unlisted file is deleted and the pending check misses it |
| LiveScenarios.IgnoredButKept | core/src/engine.rs:397-404 | a run in which a newly ignored file stays in the graph and the pending check misses it |
| LiveScenarios.CrashBetweenRenames | core/src/live.rs:716-729 | a run in which a crash between the renames leaves nodes that even a full comparison does not find |
| LiveScenarios.LinkedElsewhere | core/src/engine.rs:366-380 | a run in which an indexed file becomes a symbolic link, stays in the graph and the pending check misses it |
| LiveScenarios.SkippedDeletion | core/src/vector/store.rs:800-804 | a run in which a deletion is skipped because the table cannot be opened, and the row of a deleted file stays although nothing is dirty or pending |
| LiveFencing.WritesAreFenced | core/src/live.rs:540-570 | a step changes an existing generation only as a round or a persist of the live index, under the lock, while that generation is active and the index not superseded |
| LiveFencing.RetiredGenerationIsFrozen | core/src/live.rs:694-734 | once another generation is active, no run changes the files or rows of the old one |
| LiveFencing.SupersededStep | core/src/live.rs:317-320 | only a crash ends a superseded live index, and no step changes its graph or manifest |
| LiveFencing.SupersededWritesNothing | core/src/live.rs:352-357 | superseded is absorbing, and from then on no run writes the generation of the index |
| LiveFencing.PersistedVersionIsStored | core/src/live.rs:386-403 | whenever the persisted version is the current one, the stored graph and manifest are the live ones |
| LiveProcesses.StartIsFenced | core/src/live.rs:172-272 | before any live index is loaded, every process sees a consistent lock, pointer and set of generations |
| LiveProcesses.FencedEvent | core/src/live.rs:540-558 | among any number of live indexes, the lock has one holder, and whoever works under it finds its generation active |
| LiveProcesses.OneWriter | core/src/live.rs:540-570 | whoever changes an existing generation is a live index of it that alone holds the lock, finds it active and is not superseded |
| LiveProcesses.RetiredForAll | core/src/live.rs:694-734 | once another generation is active, none of any number of live indexes changes the files or rows of the old one |
| LiveProcesses.SupersededForAll | core/src/live.rs:317-320 | a superseded live index stays superseded among running ones, and its generation stays as it is |
| LiveRows.LoadedRowsMatch | core/src/live.rs:172-272 | after a load the rows of a file are those of its part of the graph if and only if the stored ones are: where the results about rows start |
| LiveRows.PersistedRowsMatch | core/src/live.rs:386-403 | when the current version is persisted and nothing is dirty, the stored rows of a file fit the stored part if and only if the live ones do |
| LiveRows.TablesRun | core/src/vector/store.rs:491-535 | over every run, crashes included, every stored vector is the one a fresh embedding of its text gives |
| LiveRows.RowsStep | core/src/engine.rs:547-569 | a step makes the rows of a clean file wrong, or right, exactly as named: a swap after a skipped deletion, without vectors or after a second reading, a swap that passes over a dirty file, a deletion of a clashing path, a failed replacement through a link |
| LiveRows.RowsRun | core/src/live.rs:559-581 | over every run of one process, a file that is not dirty has wrong rows if and only if one of these made them wrong and no later round took the file up |
| LiveRows.DirtyCoversHalfWritten | core/src/live.rs:559-581 | over runs without links, clashing paths and unreachable embedders, a file that is not dirty has wrong rows if and only if a skipped deletion left rows of it that no later round replaced |
| LiveRows.OpenSkipsNothing | core/src/vector/store.rs:264-271 | once the table is open, no deletion of this process is skipped |
| LiveRows.RoundRepairsRows | core/src/live.rs:495-585 | after a round without an edit or a skipped deletion, whatever failed before, the rows of a file whose path clashes with none that is read are right if and only if the round read it or they were right |
| LiveRows.ReloadRepairsRows | core/src/live.rs:168-189 | crash anywhere, load, round: the rows of such a file are right if and only if the round read it or the stored rows fitted the stored part |
| LiveRows.ReloadedRows | core/src/live.rs:168-189 | crash anywhere, load, any run: which files that are not dirty have wrong rows, skipped deletions included |
| LiveLinks.TargetIs | core/src/engine.rs:366-380 | a path is prepared under the id of the file at the end of its links, passed over if they lead out of the project, and prepared under its own id if they lead to nothing or round in a circle |
| LiveConvergence.RoundSettles | core/src/live.rs:489-599 | a round with no edit, retry or failure, whatever persists, loads and other processes do meanwhile, leaves the files in scope listed as they are on disk, nothing dirty, and exactly the files read again that a path it took up leads to; or another generation was activated and nothing of it is applied |
| LiveConvergence.SettledPart | core/src/live.rs:315-336 | after such a round a file in scope, or one that was dirty, has the part it has on disk if and only if, checkable before: read, it is not hidden while it holds text; not read, it is no leftover and no link with nodes |
| LiveConvergence.ScopedPart | core/src/live.rs:315-336 | the same for files in scope that were neither on disk nor listed; what the walk sees is always right afterwards |
| LiveConvergence.FullRoundConverges | core/src/live.rs:338-346 | a full round leaves the graph an index from scratch builds if and only if no file it reads is hidden yet readable, no path with nodes that it takes up is a link that leads elsewhere, and every leftover is read |
| LiveConvergence.ReloadConverges | core/src/live.rs:168-189 | crash anywhere, load, full round: the graph is right if and only if the loaded manifest and graph meet these three conditions |
| VectorRows.ReuseIsFresh | core/src/vector/store.rs:445-547 | reusing known vectors gives the rows that embedding afresh gives |
| VectorRows.WithoutOwned | core/src/vector/store.rs:844-852 | of every file's rows, a deletion takes those with an id of the deleted file and keeps the others in order |
| VectorRows.WithoutFile | core/src/vector/store.rs:794-799 | deleting the rows of a file leaves none of them, and leaves the rows of another file alone unless the paths clash |
| VectorRows.LeavesAloneExactly | core/src/vector/store.rs:844-852 | the deletion leaves the rows of another file alone, whatever the table holds, if and only if neither path goes on where the other ends as an id would |
| VectorRows.RowsForOwned | core/src/engine.rs:484-497 | the rows prepared for a file belong to that file |
| VectorRows.RowsForNodes | core/src/engine.rs:484-492 | a file has one row for each of its functions, methods, classes and structs, in the order of its nodes, with the node's text and the vector of that text, and no other |
| ReportedPaths.NameIsLast | core/src/live.rs:633-639 | the name of a file is what follows the last slash of its path |
| ReportedPaths.RulesAreReported | core/src/live.rs:633-639 | ignore rules are touched exactly if a reported path is, or ends in a slash and, the name of one of the three ignore files |
| ReportedPaths.FilesAreReported | core/src/lib.rs:2387-2393 | a file is compared exactly if it is a reported path or lies below one |
| LiveIndexObject.LiveIndex.Load | core/src/live.rs:172-272 | loading reads the manifest first; before the graph is read, others may do anything, also run, persist and end; the new index needs a full comparison |
| LiveIndexObject.LiveIndex.Scan | core/src/live.rs:423-483 | a comparison visits the files of its scope one by one while the disk changes, and changes nothing but the round |
| LiveIndexObject.LiveIndex.PrepareFileChanges | core/src/engine.rs:346-516 | preparing ends with every file prepared, put off, or passed over because its path leads elsewhere, or the round is given up, and the index is unchanged |
| LiveIndexObject.LiveIndex.PrepareFile | core/src/engine.rs:366-508 | what a path leads to is prepared under its own id with the part it has on disk; all its functions, methods, classes and structs wait to be embedded, and the vectors of its rows are known; a path out of the project is passed over |
| LiveIndexObject.LiveIndex.EmbedPrepared | core/src/engine.rs:521-542 | embedding request by request gives one row per waiting node, in order, with its id, its text and the vector of its text, as one call for all nodes would; an unreachable embedder is recorded |
| LiveIndexObject.LiveIndex.DeleteOldRows | core/src/engine.rs:552-563 | under the lock, of the rows of every prepared file only those stay that skipped deletions have kept, none if the table was open, and those of files with no clashing path stay in order; or the round is given up |
| LiveIndexObject.LiveIndex.WriteBatches | core/src/engine.rs:564-567 | under the lock, the table grows by the rows of all batches in order, or the round is given up |
| LiveIndexObject.LiveIndex.ReplaceRows | core/src/engine.rs:547-569 | afterwards the rows of a prepared file are the kept ones and those of the batches, and the rows of files with no clashing path are as before |
| LiveIndexObject.LiveIndex.SwapFileGraphs | core/src/live.rs:577-584 | graph, dirty files, manifest, version and rescan flag change together as the swap of the transition system |
| LiveIndexObject.LiveIndex.CheckGeneration | core/src/live.rs:540-558 | with the lock held, another active generation ends the index; otherwise the files of the round become the dirty ones |
| LiveIndexObject.LiveIndex.ApplyDelta | core/src/live.rs:489-599 | a round that is not applied leaves graph, manifest and version alone; a superseded one is reported as such |
| LiveIndexObject.LiveIndex.ApplyPaths | core/src/live.rs:315-336 | applied with no edit, unreadable file or unreachable embedder meanwhile: every reported file and every file below a reported path is listed as it is on disk; if the walk sees it, it has the part it has on disk, otherwise exactly under the condition of `SettledPart`; an ignore file, more than 128 paths or an unfinished round extend this to all files; only a round that was given up fails |
| LiveIndexObject.LiveIndex.ApplyRescan | core/src/live.rs:338-346 | applied with no edit, unreadable file or unreachable embedder meanwhile: the manifest lists the disk, the graph is the one built from it if and only if the three conditions held before, and, with the table open, rows are right where they were read or were right before; only a round that was given up fails |
| LiveIndexObject.LiveIndex.HasPendingChanges | core/src/live.rs:301-308 | with no edit meanwhile: "nothing pending" means that every entry matches the disk, the index is not superseded, and the graph is the one built from the disk if and only if it has no leftovers; "pending" means that an entry differs or the index is superseded; there is no answer only if the walk fails |
| LiveIndexObject.LiveIndex.WriteSnapshot | core/src/live.rs:694-734 | a snapshot counts as written only after both renames under the lock; a changed generation refuses it |
| LiveIndexObject.LiveIndex.Persist | core/src/live.rs:351-404 | what is reported persisted is stored; nothing is new exactly if the current version is persisted; an error is reported only if a step of the persist failed; a superseded or up-to-date index writes nothing |
| NodeBatches.Batches | core/src/engine.rs:152-180 | the requests concatenate to the nodes, each within its bounds or a single node, and no such partition has fewer |
| NodeBatches.NextEnd | core/src/engine.rs:167-175 | a request reaches as far as its bounds allow; saturating addition never matters |
| NodeBatches.GreedyIsShortest | core/src/engine.rs:152-180 | furthest-reaching requests are never outnumbered by another partition within the bounds |
| ReferenceEdges.SameLinks | core/src/graph/mod.rs:989-1001 | a source that mentions no affected name keeps its edges |
| ReferenceEdges.LinkShape | core/src/graph/mod.rs:326-426 | every edge leads from its source to a definition of a name the source mentions |
| ReferenceEdges.ScopedRefreshIsFull | core/src/graph/mod.rs:173-212 | recomputing changed files and sources that mention an affected name gives the edges of a full rebuild |
| ReferenceBinding.EdgesAreBindings | core/src/graph/mod.rs:326-426 | the reference edges of a graph, said of nodes, kinds and files alone: a call leads to what the name means in its source, a possible call to one of several definitions in its file, a mention to a type; nothing else is an edge |
| ReferenceBinding.CallBinding | core/src/graph/mod.rs:369-388 | a call is bound to the one definition in its file, possibly to each of several there, without one there to the only one elsewhere, and to none of several elsewhere |
| ReferenceBinding.MentionBinding | core/src/graph/mod.rs:394-416 | a mention refers to a type that the name means beyond doubt, and to nothing else |
| CodeGraphObject.CodeGraph.ReferenceTargetNames | core/src/graph/mod.rs:215-250 | the names of all nodes of the file that can be referred to |
| CodeGraphObject.CodeGraph.Descendants | core/src/graph/mod.rs:799-826 | following Contains edges from a file node finds exactly the nodes of the file |
| CodeGraphObject.CodeGraph.RemoveFileNodes | core/src/graph/mod.rs:799-836 | the file's nodes and every edge at them go, and nothing else |
| CodeGraphObject.CodeGraph.AppendGraph | core/src/graph/mod.rs:125-143 | the nodes and edges of a parsed file are added, and nothing else changes |
| CodeGraphObject.CodeGraph.ResolveSource | core/src/graph/mod.rs:326-426 | reading a source identifier by identifier gives the edges its tokens stand for; which ones these are, `EdgesAreBindings` says |
| CodeGraphObject.CodeGraph.RefreshReferenceEdges | core/src/graph/mod.rs:173-212 | the edges of affected sources are replaced by recomputed ones, all others stay |
| CodeGraphObject.CodeGraph.RebuildReferenceEdges | core/src/graph/mod.rs:148-159 | whatever the reference edges were, the graph is the one built from its files |
| CodeGraphObject.CodeGraph.SwapFileGraphs | core/src/engine.rs:573-603 | after replacing any files in a valid graph, nodes and edges are those of a graph built from scratch |
| IndexedGraph.UpToDateGraph | core/src/live.rs:298-308 | when every part is current, nodes and edges are those of an index built from the disk |
| IndexedGraph.SwapIsUnion | core/src/engine.rs:579-593 | replacing the files of a round one by one is replacing them at once |
| CallChain.TraceCallChain | core/src/engine.rs:1099-1153 | the chain is not empty exactly when a path of at most `maxDepth` hops over sure, inferred or possible calls and definitions exists, and then it is a shortest such path |
| CallChain.WalkBack | core/src/engine.rs:1143-1153 | reading the parents back ends, and gives a path as long as the depth of the target |
| CallChain.Reached | core/src/engine.rs:1109-1137 | a node within reach has been visited, no deeper than any path to it, by the time the search works at its depth |
| CallChain.NotReachable | core/src/engine.rs:1139-1141 | a search that ends without the target means that every path is longer than the bound |
| Impact.FileNodes | core/src/engine.rs:1197-1214 | the depth-first search finds exactly the nodes that Contains edges lead to from the file node |
| Impact.ImpactOfChange | core/src/engine.rs:1175-1280 | the result is the first `limit` entries of the list without a limit, and empty for an unknown file |
| Impact.FinishExtends | core/src/engine.rs:1227-1278 | going on never changes the entries found so far |
| ImpactExactness.ImpactIsExact | core/src/engine.rs:1216-1280 | without a limit: exactly the nodes outside the file from which one to four edges other than Contains lead to it, each once, by distance, with its shortest distance and the edge it depends through |
| ImpactExactness.RelationTellsKind | core/src/engine.rs:1565-1580 | an entry's relation tells the kind of its edge |
| Patch.LocateHunk | benchmarks/retrieval/swebench.py:424-436 | none exactly when the old side matches nowhere from the cursor on; otherwise the match closest to the expected position, the later one on a tie |
| Patch.NearestIsUnique | benchmarks/retrieval/swebench.py:424-436 | only one position is best |
| Patch.ApplyPatch | benchmarks/retrieval/swebench.py:378-421 | either every hunk is placed and the file rebuilt there, or the reported hunk, with all before it placed, matches nowhere after them |
| Patch.OutcomeIsUnique | benchmarks/retrieval/swebench.py:378-421 | a file and a patch have one outcome: one placement and one rebuilt file, or one failing hunk |
| Patch.EditHunk | benchmarks/retrieval/swebench.py:403-413 | the loop over a hunk's lines does to the new file and the line numbers what its lines say |
| Patch.PlacedIsUnique | benchmarks/retrieval/swebench.py:391-401 | drift and cursor leave one way to place the hunks |
| Patch.FirstToFail | benchmarks/retrieval/swebench.py:395-400 | when a hunk matches nowhere, no way to place the hunks gets past it |
| PatchLaws.PatchConserves | benchmarks/retrieval/swebench.py:378-421 | without its added lines the new file is the old one without its removed lines; numbers ascend and stay in range, and the lengths differ accordingly |
| PatchLaws.PatchNotes | benchmarks/retrieval/swebench.py:403-413 | the recorded numbers point at the texts the patch removes and adds, in order |
| PatchLaws.HunksDoNotOverlap | benchmarks/retrieval/swebench.py:391-413 | a later hunk starts after all the lines an earlier one uses |
| PatchLaws.ReversalUndoes | benchmarks/retrieval/swebench.py:378-421 | the reversed hunks at their positions in the new file apply without drift and give the old file back, removed and added numbers exchanged |
| PatchParsing.ParseHunk | benchmarks/retrieval/swebench.py:884-917 | reading succeeds exactly if the lines, without markers, spell a body with the counts of the header, and the body read has them |
| PatchParsing.ReadingIsUnique | benchmarks/retrieval/swebench.py:890-907 | the lines spell one body with those counts |
| Selection.SelectionOrder | benchmarks/retrieval/swebench.py:320-339 | the order takes all instances, one seat per repository in name order and then by the largest quotient, ties by name |
| Selection.OrderIsPermutation | benchmarks/retrieval/swebench.py:320-339 | an order by the rule that is long enough is a permutation of the instances |
| Selection.TakenInKeyOrder | benchmarks/retrieval/swebench.py:325-328 | each repository is taken in its key order |
| Selection.ByKeyIsStable | benchmarks/retrieval/swebench.py:325-328 | instances with one key stay in their order |
| Selection.OrderIsUnique | benchmarks/retrieval/swebench.py:331-337 | the rule leaves no choice |
| Selection.OrderIsFair | benchmarks/retrieval/swebench.py:320-339 | in every prefix, N_r / (2 s_r - 1) >= N_t / (2 s_t + 1) for every r with two seats or more and every t with seats left |
| Selection.Leader | benchmarks/retrieval/swebench.py:332-336 | the scan finds the open repository with the largest quotient, the first by name among equals |
| Selection.GroupByRepo | benchmarks/retrieval/swebench.py:322-324 | every repository's instances, in their order, and no empty group |
| Midranks.DoubledMidranks | benchmarks/retrieval/stats.py:88-104 | every index gets twice the smaller values plus the equal values plus one |
| Midranks.MidrankKeepsOrder | benchmarks/retrieval/stats.py:88-104 | ties share a rank and larger values rank higher |
| Midranks.RanksSum | benchmarks/retrieval/stats.py:88-104 | the doubled ranks of n values sum to n (n + 1) |
| Wilcoxon.Distribution | benchmarks/retrieval/stats.py:114-119 | after the loop `counts[k]` is the number of ways to sum to k |
| Wilcoxon.WaysCount | benchmarks/retrieval/stats.py:114-119 | the number of ways is the number of sign assignments whose positive ranks sum to k |
| Wilcoxon.SelectionsSize | benchmarks/retrieval/stats.py:122-122 | there are 2^n sign assignments |
| Wilcoxon.WaysTotal | benchmarks/retrieval/stats.py:114-122 | the counts total 2^n |
| Wilcoxon.WaysAreSymmetric | benchmarks/retrieval/stats.py:114-119 | the distribution is symmetric about half the rank total |
| Wilcoxon.TailProbability | benchmarks/retrieval/stats.py:114-122 | the prefix and suffix sums of the counts are the two tails, and the p-value is twice the smaller share, at most 1 |
| Wilcoxon.PValueInRange | benchmarks/retrieval/stats.py:120-122 | a p-value lies in (0, 1] |
| Wilcoxon.NegationSwapsSums | benchmarks/retrieval/stats.py:107-128 | negating every difference swaps the rank sums and keeps the p-value |
| Wilcoxon.WilcoxonSignedRank | benchmarks/retrieval/stats.py:107-128 | the test reports the number of nonzero differences, the ranks of the positive and of the negative ones by distance from zero, ties sharing their average, and the exact p-value; without differences p is 1 |
| Wilcoxon.RankSums | benchmarks/retrieval/stats.py:112-127 | twice `wPlus` is the sum, over the positive differences, of twice the number of nonzero differences closer to zero, plus the number of those as far, plus one; `wMinus` is the same over the negative ones |
| Wilcoxon.OneSided | benchmarks/retrieval/stats.py:107-128 | if no difference is negative, `wMinus` is 0, `wPlus` n (n + 1) / 2 and the p-value 2 / 2^n |
| Compact.GroupByFile | benchmarks/search/compact.py:96-102 | every kept match is in the one group of its path, in order, and files come in the order in which they are first matched |
| Compact.CompactEntries | benchmarks/search/compact.py:130-147 | definitions first, one line each; code under its scope, scopes in order of occurrence; imports under "import", comments and strings under "doc"; at most 40 numbers to a line, in order, and the others counted |
| Compact.FullEntries | benchmarks/search/compact.py:150-171 | the same with a heading per scope and one line per match of code and import |
| Compact.TextEntries | benchmarks/search/compact.py:174-176 | one line per match, in order, for a file without structure |
| Compact.RenderFile | benchmarks/search/compact.py:193-207 | the first of these entries, at most 25 location lines per file and no more than the budget left; what is not shown is counted; nothing is cut short while there is room |
| Compact.RenderWithBudget | benchmarks/search/compact.py:179-211 | at most 200 location lines; shown, left out of files and in hidden files add up to the header's total; files are hidden only when the budget is used up |
| Compact.Render | benchmarks/search/compact.py:214-226 | from matches to output, every match that is not ignored is shown or counted |
| Words.XorAssociates | core/src/rng.rs:19-21 | exclusive or of numbers bit by bit is associative |
| Rng.SpreadInverse | core/src/rng.rs:19-21 | an xor with the own right shift is undone |
| Rng.MixIsBijective | core/src/rng.rs:16-22 | every output comes from exactly one state |
| Rng.OutputsDiffer | core/src/rng.rs:16-22 | the first 2^64 outputs are all different |
| Rng.SplitMix64.NextU64 | core/src/rng.rs:16-22 | the state advances by the constant and the output is its mix |
| Rng.SplitMix64.NextBelow | core/src/rng.rs:25-28 | the next output modulo the bound |
| Rng.SplitMix64.Shuffle | core/src/rng.rs:31-36 | the array is shuffled in place by the choices drawn, one draw fewer than there are items |
| Rng.ShuffledIsPermutation | core/src/rng.rs:31-36 | a shuffle is a permutation |
| Rng.ShuffleIsExact | core/src/rng.rs:31-36 | on distinct items every permutation comes from exactly one sequence of choices |
| Sha256.Sha256 | core/src/hash.rs:17-81 | the digest is the one section 6.2.2 of FIPS 180-4 defines |
| Sha256.Pad | core/src/hash.rs:23-29 | the loop pads as section 5.1.1 of FIPS 180-4 says |
| Sha256.PaddedLength | core/src/hash.rs:23-29 | the padded length is the least multiple of 64 with nine bytes to spare |
| Sha256.FewestZeros | core/src/hash.rs:26-28 | the zero bytes are the fewest that leave eight bytes in the last block |
| Sha256.PaddingIsInjective | core/src/hash.rs:23-29 | different messages shorter than 2^61 bytes are padded differently |
| Sha256.FillSchedule | core/src/hash.rs:32-43 | the array holds the message schedule of the block |
| Sha256.Compress | core/src/hash.rs:45-65 | the 64 rounds in place are the rounds of the standard |
| Sha256.HashBlock | core/src/hash.rs:31-74 | one block takes the hash value to the next one |
| Sha256Standard.ChBit | core/src/hash.rs:48-48 | every bit of the first word chooses between those of the other two, as section 4.1.2 of FIPS 180-4 says |
| Sha256Standard.MajBit | core/src/hash.rs:55-55 | a bit is set exactly if it is set in at least two of the three words |
| Sha256Standard.SigmaBits | core/src/hash.rs:37-54 | the four functions of section 4.1.2 of FIPS 180-4, bit by bit |
| Sha256Standard.RoundConstants | core/src/hash.rs:6-15 | the 64 round constants are the first 32 bits of the fractional parts of the cube roots of the first 64 primes |
| Sha256Standard.InitialValues | core/src/hash.rs:18-21 | the initial hash values are those of the square roots of the first eight primes |
| Sha256Standard.DigestWords | core/src/hash.rs:76-80 | read as words, the bytes of the digest are the words of the last hash value |

## Left out

- Import-, receiver- and `use`-based resolution of Python and Rust references (core/src/graph/resolve.rs,
  core/src/graph/resolve_rust.rs): edges are resolved by name only, as lines 75-79 of the repository README describe it, so
  `ScopedRefreshIsFull` speaks about sources without syntax facts.
- LiveIndexObject.LiveIndex.EmbedPrepared: a round without vectors, because the embedder is unreachable or the
  embedding identity does not match, is one outcome, which `RowsRun` takes into account. A round with embedding
  disabled or not configured (core/src/vector/store.rs:500-502), which succeeds, writes no rows and does not say so, is
  not modelled.
- LiveProcesses.OneWriter: two live indexes that persist into one generation after another are fenced, but what
  they say to each other's manifests is not compared: freshness and rows are stated for one live index.
- LiveRows.RowsRun: a node is one row; splitting a long text into chunks, and the embedding of
  data files that an environment variable turns on, are not modelled.
- LiveIndexObject.LiveIndex.PrepareFileChanges: files excluded by policy are taken not to be walked, and a link to
  one counts as leading out of the project; the ids of different files are different, and occur once in a file.
- VectorRows.LeavesAloneExactly: a symbol's key is any text; the extractor's keys begin with the kind of the syntax
  node, so fewer paths clash in practice.
- NodeBatches.Batches: lengths count characters, where the code counts bytes.
- ReferenceEdges.LinkShape: identifiers are ASCII letters, digits, `_` and `$`.
- Impact.ImpactOfChange: the file node is already looked up; the score and the texts of an entry are left out,
  its relation and distance are kept.
- CallChain.TraceCallChain: the two ends are already looked up; fuzzy lookup by id is left out.
- CodeGraphObject.CodeGraph.RemoveFileNodes: nodes and edges are sets; the index-swapping storage of the graph
  library and the order of its edges are left out.
- Patch.ApplyPatch: the file headers of a patch and the regular expression for hunk headers are left out; a
  header arrives decoded.
- Selection.SelectionOrder: repository names are numbered in name order and digests are numbers in digest order.
- Wilcoxon.WilcoxonSignedRank: fractions are exact; rounding the results to floating point is left out.
- Compact.RenderWithBudget: a line is what it says about locations; its layout, the trimming of texts and the
  summary by kind in the header are left out, and whether a path is ignored is a parameter.
- Rng.SplitMix64.NextBelow: the bound is a natural number; a bound that does not fit a machine word is not cut.
- Sha256.RotateRight: words are numbers below 2^32 with exclusive or, and, and shifts defined bit by bit.
- Hybrid ranking, Wilson and bootstrap intervals: floating-point scores.
- File formats, locks and renames as operating-system objects, the async runtime and logging: each is one step
  that happens or fails.
- Tree-sitter extraction, git integration, the command line, evaluation reports and agent runners.
