# Directory migration and the stores around it

A model of the verified directory migration in `native-client/src/directory_migration.rs`, and of six smaller
state machines of the same repository, each of which must agree with something simpler.

## The migration

`Disks` is the file system as an inode store: files with their bytes, times and hard links, directories with
their entries, and links. Lookups follow directory entries only. `Worlds` is a machine on which the migration
runs while other processes use the same disk: before every system call they may do anything that the store
allows (`Grows`), any call may fail, and reads may be short. What they do, which calls fail and how short reads
are is fixed by arbitrary functions of the time of the call, so a statement about every `World` is a statement
about every interleaving. A ghost log records every step with the disk before and after it; `deeds` are the
instants of the steps by which the migration itself changed the disk.

Contracts come in two layers. For any interference they say what was *seen* during a call and which deeds were
done (`SourceSeen`, `CopySeen`, `Careful`, `AddsPlanned`). For a disk at rest (`Quiet`) lemmas turn what was seen
into what holds, and contracts say how the paths of the disk change. `Faultless` adds that no call fails any
more; with it, contracts say exactly when an operation succeeds.

From there:

- `Scans`, `Retained`, `Plans`, `Preparing` and `Checks`: listing a tree, pinning directories by identity, and preparing a plan.
- `Compare`, `Effects`, `Staging`, `Copying`, `Entries`, `Overlays` and `Copies`: copying one file, one entry and one plan.
- `Publishing`: the care taken in every step, and atomic replacement as a property of the log.
- `Verifying`, `Meters`, `Reports`, `Batches`, `Commits` and `Guarantees`: the batch with its report, progress and commit gate.
- `Retries`: a second attempt after a batch that was stopped at any instant.
- `Disturbances`: runs with interference which show that what is asked of others cannot be dropped.
- `Additions`, `Placements`, `FreePlans`, `Retaining` and `RetainedGroups`: `copy_retaining_sources`, which only ever adds.
- `SameFiles`, `Undoing`, `Creations` and `Moves`: the move with rollback and cleanup, `execute_with_cleanup`.

Assumptions, all stated in `Disks` and `Worlds`: every change of a file gives it a fresh change time; identities
are not reused; path lookups and directory reads are atomic and never follow links; other processes act finitely
often (`horizon`), without which neither the scan nor the search for a staging name need end.

## The smaller machines

- `Indexes`, `CharacterStores`, `TaskHistories`: lists with an index against plain maps.
- `TaskLists`: the merged list of live and finished tasks against one total order.
- `AssetIterators`: the stack-based iterator against the recursive listing.
- `ScriptIndexes`: the analysis cache against the analyses that were stored.
- `Scripts`, `ScriptLines`, `ScriptScenes`, `ScriptParts`, `ScriptParsers`, `PlainScripts`: the screenplay parser against a script cut at its headers.
- `CharacterTallies`, `ScriptReports`, `Storyboards`: the statistics of a parsed script, and the packages of a storyboard.

## Where the code departs from its intent

- `CharacterStore::flush` (`crates/artait-service/src/character_store.rs:116-152`) sorts the characters and leaves the index. `FlushAgreement` gives the exact condition under which lookups stay right, and `FlushMisleads` a run in which a deletion hits the wrong character.
- `sync_dir` (`crates/artait-service/src/script_index.rs:60-93`) moves the fingerprint of a changed file into a row that stays ready. `SyncAgreement` gives the exact condition under which the cache stays right, and `SyncMisleads` a run that returns a stale analysis.
- The asset iterator (`crates/artait-asset/src/lib.rs:173-201`) ends early at a file whose metadata cannot be read; `AssetIterators.NothingLost` gives the exact condition under which nothing is missing, and `ScanMisleads` a library of which nothing is sent.
- The number of an episode (`crates/artait-service/src/script_parser.rs:57-104`) is meant to start at 0 and to tell episodes apart, but the default episode takes the number of the first titled one: `IndicesClash` gives the exact condition.
- The progress of a batch (`native-client/src/directory_migration.rs:284-290`) is meant to end at the total. `LastLevelIs` gives the exact condition, which holds on a disk at rest (`HeldReportsAll`), and `ProgressFallsShort` a run with interference in which it does not.

## Model

| member | source | states |
|---|---|---|
| Paths.OverlapMeans | native-client/src/directory_migration.rs:1002-1006 | `overlaps` is symmetric, and two roots overlap exactly when some path lies beneath both; so writing beneath one root cannot touch the other. |
| Paths.RemapExactly | native-client/src/directory_migration.rs:1012-1025 | `remap_path` succeeds exactly on absolute paths without parent components that lie beneath the source, compared component by component up to folding, and moves just the root. |
| Paths.RemapRoundTrip | native-client/src/directory_migration.rs:1012-1025 | Remapping there and back gives a path with the same folded components and the same tail, and the very same path where no folding was involved. |
| Scans.CheckedDirectory | native-client/src/directory_migration.rs:864-878 | Whatever others do it only looks; at rest it accepts exactly a path other than the root of the disk all of whose ancestors are real directories. |
| Scans.Scan | native-client/src/directory_migration.rs:909-946 | A listing is strictly sorted with every directory before its contents, every entry and every directory of it was seen as listed, and the scan ends although others act; at rest it is the listing of the tree, and it fails only on links. |
| Scans.SeenAtRest | native-client/src/directory_migration.rs:909-946 | A listing that was seen piece by piece on a disk at rest has every descendant exactly once and nothing else. |
| Scans.ListingUnique | native-client/src/directory_migration.rs:909-946 | A tree has one listing, so the order in which directories are read does not show. |
| Scans.SameMembersSame | native-client/src/directory_migration.rs:661-666 | Two snapshots with the same entries are the same sequence, so unequal ones differ in an entry. |
| Scans.FurtherReached | native-client/src/directory_migration.rs:909-914 | On a disk at rest no directory is read twice, as each has one path; this bounds the outer loop. |
| PathOrder.PathsCompare | native-client/src/directory_migration.rs:944 | Paths are totally ordered component by component. |
| PathOrder.PrefixBefore | native-client/src/directory_migration.rs:944 | A directory comes before everything in it. |
| Retained.Open | native-client/src/directory_migration.rs:412-442 | Every directory of the chain was seen in its place by a lookup that follows no link; at rest an existing directory can be opened. |
| Retained.Verify | native-client/src/directory_migration.rs:532-539 | On success the path was seen anew to lead through the very directories of the chain; at rest that is exactly when they are still in place. |
| Retained.ChainAtRest | native-client/src/directory_migration.rs:412-442 | What was seen of a chain on a disk at rest is what the path leads through. |
| Retained.StagingFile | native-client/src/directory_migration.rs:474-488 | The loop over names ends, the name it takes was not in use, the file is new, and the counter has passed it. |
| Retained.StagingNamesDiffer | native-client/src/directory_migration.rs:477-481 | Different counter values give different staging names. |
| Retained.ReplaceFile | native-client/src/directory_migration.rs:489-526 | The one deed is the renaming of the staging name over the target, after its directory was seen once more to stand in its place, from the root of the disk on, and the staging name to lead to the open file; at rest it happens exactly when everything is in place. |
| Plans.RecordsHold | native-client/src/directory_migration.rs:597-609 | With every recorded entry in place, every lookup of a recorded ancestor succeeds. |
| Plans.SnapshotBeginning | native-client/src/directory_migration.rs:618-620 | The beginning of a snapshot is a snapshot, and the directory of the next entry is already in it. |
| Plans.HeldAtRest | native-client/src/directory_migration.rs:597-615 | An entry that was seen step by step on a disk at rest is where it was recorded, and so are its ancestors. |
| Plans.OpenParent | native-client/src/directory_migration.rs:597-609 | The directory reached is the one put together from the records, and each step to it was seen. |
| Plans.OpenEntry | native-client/src/directory_migration.rs:610-615 | On success the entry was seen under its name in its recorded directory with its recorded identity. |
| Preparing.CaptureAll | native-client/src/directory_migration.rs:616-627 | Every entry of the snapshot gets one record, seen with its identity, and with its stamp if it is a file; on a stable tree the ancestor lookup never misses. |
| Preparing.CheckTargets | native-client/src/directory_migration.rs:631-650 | At rest and without failures, `check_targets` accepts exactly when the destination is in place and the overlay is type-compatible: directories onto directories or nothing, files onto single-link files or nothing, no link on the way. |
| Preparing.MissingFits | native-client/src/directory_migration.rs:635-642 | Where a directory on the way is missing, whatever lies below fits. |
| Preparing.Prepare | native-client/src/directory_migration.rs:46-93 | A plan was seen piece by piece during the call, does not overlap a protected root, and at rest is exactly what stands there and fits; without failures it is refused only when the request is not acceptable. |
| Preparing.ReadyAcceptable | native-client/src/directory_migration.rs:46-93 | What could be planned at rest was acceptable: no links or second links in the source, and an overlay that fits. |
| Checks.VerifySource | native-client/src/directory_migration.rs:651-668 | On success both roots, every recorded identity and stamp, and the whole listing were seen again; an entry named by the error is one of the plan, or new at its path. |
| Checks.SourceAtRest | native-client/src/directory_migration.rs:651-668 | What was seen of a source on a disk at rest holds there all together. |
| Checks.Changed | native-client/src/directory_migration.rs:661-666 | The `unwrap` cannot fail: two different snapshots always have an entry in which they differ. |
| Checks.CheckConflicts | native-client/src/directory_migration.rs:948-962 | At rest, it accepts exactly the destinations that have none of the entries. |
| Compare.Fill | native-client/src/directory_migration.rs:584-588 | Whatever the lengths of the reads, a file that stays as it was gives the bytes asked for, or fewer only at its end. |
| Compare.CompareBytes | native-client/src/directory_migration.rs:578-591 | For every pattern of short reads, on files that stay as they were the loop tells whether their bytes are equal. |
| Compare.RetainedEqual | native-client/src/directory_migration.rs:574-593 | For any interference and any short reads, "equal" means that both files held the same bytes at one instant of the call; for files nobody changes, the answer is whether they are equal. |
| Worlds.UnchangedBetween | native-client/src/directory_migration.rs:556-565 | A file found with the stamp it had was the same at every instant between. |
| Disks.SameStampSameFile | native-client/src/directory_migration.rs:556-565 | With a fresh change time at every change, equal stamps of one file mean an unchanged file. |
| Disks.DirectoryPathUnique | native-client/src/directory_migration.rs:443-473 | A directory is reached by one path only. |
| Disks.RegularPathUnique | native-client/src/directory_migration.rs:389-409 | A file that passes the check for a single link is reached by one path only. |
| Effects.CreateFilePuts | native-client/src/directory_migration.rs:443-473 | A new file changes one path of the disk. |
| Effects.WriteFilePuts | native-client/src/directory_migration.rs:754 | Writing to a file with one link changes what one path shows. |
| Effects.PublishPuts | native-client/src/directory_migration.rs:500 | Staging a file and renaming it over the target changes the target only, and leaves no staging name. |
| Staging.CopyBytes | native-client/src/directory_migration.rs:747-761 | Only the staged file is written to; if the input is still the one opened, just its bytes were read and reported, and at rest the copy is equal to it after every run that ends well. |
| Staging.StageCopy | native-client/src/directory_migration.rs:733-766 | One staging file is created and only it is written to; on success it was found equal to the input after the last write, and at rest nothing else has changed after any step. |
| Copying.ObserveTarget | native-client/src/directory_migration.rs:727-732 | The version returned was seen in the target directory during the call, or the name was seen to be free. |
| Copying.ReplaceTarget | native-client/src/directory_migration.rs:767-777 | The target was seen again in the version first observed, and then the staged file was renamed over it, which is the only deed. |
| Copying.PlaceCopy | native-client/src/directory_migration.rs:727-777 | A file is published only by staging, comparing, checking the target and its directory again and renaming, in this order, and the identity returned is that of the very file so published for this entry; at rest every step leaves the disk as it was but for a staging file, or puts the complete copy in place. |
| Copying.CopyDirectory | native-client/src/directory_migration.rs:727-734 | A directory that is there is taken as it is, and otherwise one is made, in a directory seen in its place since the deed before; the identity returned was seen under the name. Nothing else changes at rest. |
| Entries.CopyEntry | native-client/src/directory_migration.rs:721-790 | One entry, with its record: for any interference done with care, with the identity of the file this run published for it, or of the directory seen under its name; at rest placed exactly where planned with the contents of its source. |
| Overlays.LaidMore | native-client/src/directory_migration.rs:721-790 | Placing one more entry keeps those placed before and touches nothing else. |
| Overlays.SourceBeside | native-client/src/directory_migration.rs:651-668 | What is placed beneath a destination leaves every source that does not overlap it exactly as recorded. |
| Copies.CopyFiles | native-client/src/directory_migration.rs:710-812 | For any interference only careful steps, and the recorded identities are those of what was published or seen where each entry goes; at rest the destination is overlaid by the entries, in order, midway after every step; the report counts every entry done, and on failure exactly one more line. |
| Verifying.VerifyCopy | native-client/src/directory_migration.rs:814-836 | On success the whole source and every target were seen as recorded during the call, and every file target equal to its source. |
| Verifying.CopyAtRest | native-client/src/directory_migration.rs:814-836 | What was seen of source and targets on a disk at rest holds all together. |
| Publishing.AtomicReplacement | native-client/src/directory_migration.rs:474-526 | At every instant of every run, failed or not, a name that others leave alone, as they do the file staged for it until it is renamed, shows what it showed before, a complete copy that had passed the comparison, or a directory the migration made; never part of a file. What others do to anything else does not matter. |
| Disturbances.HandsOffNeeded | native-client/src/directory_migration.rs:474-526 | The condition on the staged file is needed: a run in which others leave the name alone and every deed is done with care, and yet, because others wrote to the staged file between comparison and renaming, the name ends with contents nobody compared. |
| Publishing.OverwritesWhatWasSeen | native-client/src/directory_migration.rs:767-777 | If nobody else acts between the last check of the target and the renaming, the version overwritten is the one first observed. |
| Publishing.WritesElsewhere | native-client/src/directory_migration.rs:747-761 | The file being written to is never one that a planned name shows. |
| Batches.SumBytes | native-client/src/directory_migration.rs:277-281 | The total is refused exactly when it does not fit into 64 bits. |
| Batches.CarriedMore | native-client/src/directory_migration.rs:286-294 | A later plan of the batch leaves every earlier one carried out and every later one feasible. |
| Commits.ReportBlame | native-client/src/directory_migration.rs:299-306 | The report is as before, or one file of the plan that had been counted is taken out of both counters, exactly by its size, and listed as failed; neither saturating subtraction saturates. |
| Commits.VerifyPlans | native-client/src/directory_migration.rs:298-309 | Either every plan was seen complete during the loop and the report is as before, or the books still balance. |
| Commits.CommitsWhatHolds | native-client/src/directory_migration.rs:296-311 | If others rest from the start of the final verification, all sources and all targets of all plans hold together at the commit, and the targets have the identities of what this very run published or saw where they go. |
| Commits.OverlaidNow | native-client/src/directory_migration.rs:270-311 | A batch that was verified leaves the old contents overlaid by all source trees, with every unrelated path as it was. |
| Commits.CopyBatch | native-client/src/directory_migration.rs:270-323 | In every interleaving it commits at most once, and only after the last copying step of the whole batch and after every source and target of every plan was seen again, each target with the identity recorded when this run published it, or saw it as a directory; progress starts at 0, never falls and never passes the total, and on success the last report names the total exactly if the last plan with bytes to report was captured as it was listed and nothing was listed to be copied after it; the books balance, an error is explained in exactly one list unless the byte total overflowed; at rest the sources stay, the destinations are overlaid, and a success reports the total; without failures it succeeds exactly when the total fits. |
| Batches.LastLevelIs | native-client/src/directory_migration.rs:284-290 | What the last report of a successful batch names never exceeds the total, and is the total exactly if the last plan with bytes to report was captured as it was listed and nothing was listed to be copied after it. |
| Batches.OneReportsAll | native-client/src/directory_migration.rs:284-290 | For a single plan: exactly if every file was captured with the size it was listed with. |
| Batches.HeldReportsAll | native-client/src/directory_migration.rs:284-290 | If every source stands as it was recorded, that is so. |
| Disturbances.ProgressFallsShort | native-client/src/directory_migration.rs:616-630 | Under interference it need not be: a run in which every check of the preparation and of the final verification finds what it looks for, and the last report names less than the total. |
| Guarantees.NeverPartial | native-client/src/directory_migration.rs:474-526 | The guarantee of atomic replacement for a whole batch and any of its instants, whatever others do to other names and files. |
| Guarantees.MidwayAtEveryInstant | native-client/src/directory_migration.rs:313-322 | At rest, every instant of a batch shows each path as it was, as planned, or as a new staging file. |
| Guarantees.SourcesUntouched | native-client/src/directory_migration.rs:313-322 | At any such instant nothing beneath a source has changed. |
| Retries.RetryConverges | native-client/src/directory_migration.rs:1086-1094 | A run stopped anywhere, prepared again and finished, ends like an uninterrupted one: the planned and all older paths are the same, and all that is left over are staging files. |
| Retries.AcceptableMidway | native-client/src/directory_migration.rs:1086-1094 | At every instant of a batch at rest, each of its requests could be prepared again: nothing a stopped run leaves stands in the way of the next one. |
| Retries.Retry | native-client/src/directory_migration.rs:1086-1094 | Planning every request anew and running the batch, on a disk left midway: it succeeds if no call fails, and on success the targets have what their sources had. |
| Retries.StopAndRetry | native-client/src/directory_migration.rs:1086-1094 | A batch and, on the disk as it was at any instant of its run, a second attempt: without failures the second attempt succeeds however far the first one got, and every path ends as after a run without interruption, but for staging files. |
| Guarantees.Migrate | native-client/src/directory_migration.rs:46-115 | Preparing and copying one directory, at rest and without failures, succeeds exactly on the acceptable requests whose planned names are not staging names. |
| Meters.RisingMeans | native-client/src/directory_migration.rs:284-290 | Progress reports never decrease, name the same total, and never exceed it. |
| Meters.Meter.LevelIs | native-client/src/directory_migration.rs:288 | Neither the saturating addition nor the cut at the total ever takes effect. |
| Reports.MigrationReport.TakeBack | native-client/src/directory_migration.rs:302-304 | A failed final verification moves one file from the copied to the failed ones. |
| Reports.MigrationReport.AddFailure | native-client/src/directory_migration.rs:799-806 | A failed file goes to the failed files, a failed directory to the operation errors. |
| Reports.PrefixCounts | native-client/src/directory_migration/report.rs:4-15 | What has been counted never exceeds the files and bytes of the plan. |
| Additions.NothingLost | native-client/src/directory_migration.rs:669-708 | No deed of a run that only adds changes or removes anything that stood on the disk when it began, whatever others do. |
| Additions.AllIsKept | native-client/src/directory_migration.rs:669-708 | If others rest, all of it is still there at every instant. |
| Retaining.CopyVerified | native-client/src/directory_migration.rs:669-708 | One plan copied where nothing stood: it only adds planned entries, in directories seen in their place, and records for each the identity of what it added; it reports rising progress. At rest nothing but targets appears even on failure, success puts every copy in place, and without failures it succeeds when the source is as recorded and no target is taken. |
| Retaining.CopyNewEntry | native-client/src/directory_migration.rs:675-699 | One entry added under its final name, which was not in use: for any interference by a deed in the directory seen in its place, with the identity of what was added; at rest nothing but its place changes, and it fails without a failing call only if the entry or its place is not as it should be. |
| FreePlans.CarriedFreeNext | native-client/src/directory_migration.rs:851-855 | Carrying out one plan of a group leaves the earlier ones carried out, and every later one exactly as free as it was. |
| RetainedGroups.CopyRetaining | native-client/src/directory_migration.rs:841-862 | For any interference it only adds planned entries, and commits at most once and only after every source and every target, with the identity recorded when this run added it, was seen after the last copy of the group. It refuses an empty group and an overflowing total before doing anything. At rest nothing that stood is touched and nothing appears but targets, even when it fails; success leaves the old contents overlaid by the sources; and with sources and destinations apart and no failing call it succeeds exactly when the group is not empty, the total fits, every source is as recorded and no target is taken. |
| SameFiles.SameContents | native-client/src/directory_migration.rs:964-984 | For any interference, "yes" means that the two files opened held the same bytes, unless one of them was changed while it was read; at rest the answer is whether they are equal. The loop ends although files may grow. |
| SameFiles.EnsureRegular | native-client/src/directory_migration.rs:892-902 | At rest it accepts exactly a regular file beneath real directories. |
| Undoing.MadeMore | native-client/src/directory_migration.rs:132-146 | Creating something where nothing stood keeps a run undoable. |
| Undoing.LastIsEmpty | native-client/src/directory_migration.rs:191-208 | Undoing in reverse, every directory is empty when its turn comes. |
| Undoing.UndoneMore | native-client/src/directory_migration.rs:191-208 | Undoing the last thing created leaves the disk as it was before that thing was created. |
| Undoing.RollBack | native-client/src/directory_migration.rs:189-214 | The rollback removes only what the run created, files only with the stamp they had; at rest, a complete rollback restores what every path led to, an incomplete one has changed nothing but what was created, and if no call fails any more it is complete. |
| Creations.MakeAll | native-client/src/directory_migration.rs:130-168 | The loop only adds; at rest its result is undoable at any point, and on success every target shows what its source showed. |
| Creations.MakeAndCommit | native-client/src/directory_migration.rs:129-188 | The commit comes after every deed, at most once, and at rest only when the source is as in the snapshot and every copy equal to its source. |
| Moves.RemovesOnlyCopied | native-client/src/directory_migration.rs:232-235 | If nobody acts while an entry is cleaned up, a source file that is removed has an equal copy at its target at that very moment. |
| Moves.CleanUp | native-client/src/directory_migration.rs:222-243 | Every entry is either removed, a file only with the size and time of the snapshot and right after it was found equal to its copy, or listed among the leftovers; at rest nothing else changes, and without failures nothing is left over. |
| Moves.Execute | native-client/src/directory_migration.rs:118-246 | Before the commit the move only adds; if it fails it undoes only what it added, and at rest a complete rollback restores every path; only after the commit does it remove anything; at rest a success is a move that leaves other paths alone; without failures it succeeds exactly when the source is as in the snapshot and nothing stands in the way. |
| Indexes.LookupsAgree | crates/artait-service/src/character_store.rs:104-113 | An index gives for every identifier what the list, read as a map, holds. |
| Indexes.IndexInverts | crates/artait-service/src/task_history.rs:106-114 | With distinct identifiers the index is the exact inverse of the list. |
| Indexes.Rebuild | crates/artait-service/src/character_store.rs:104-113 | The rebuilt index is right for the list. |
| Indexes.SortedAgreement | crates/artait-service/src/character_store.rs:116-152 | An old index gives the right answers for a sorted list exactly if the list was in order already. |
| CharacterStores.CharacterStore.Flush | crates/artait-service/src/character_store.rs:116-152 | The new list, file and dirty flag in every case of the writing, with an index that stays within the list. |
| CharacterStores.FlushAgreement | crates/artait-service/src/character_store.rs:116-152 | Flushing keeps lookups right exactly if the characters were already in order, newest first. |
| CharacterStores.FlushMisleads | crates/artait-service/src/character_store.rs:116-152 | Two characters in the wrong order: after a flush a lookup finds the other one, and deleting deletes the other one. |
| CharacterStores.CharacterStore.FlushAndReload | crates/artait-service/src/character_store.rs:74-152 | A flush that was written, followed by a reload, gives the same maps and a right index. |
| CharacterStores.CharacterStore.Reload | crates/artait-service/src/character_store.rs:74-102 | The lists, the index and the dirty flag for each state of the file. |
| CharacterStores.CharacterStore.CreateCharacter | crates/artait-service/src/character_store.rs:167-182 | The map gains the character under its identifier, and stays sound if that is new. |
| CharacterStores.CharacterStore.UpdateCharacter | crates/artait-service/src/character_store.rs:185-195 | The record changes in the map if the updater keeps its identifier; an unknown identifier is an error that changes nothing. |
| CharacterStores.CharacterStore.DeleteCharacter | crates/artait-service/src/character_store.rs:198-205 | The identifier leaves the map, and the others keep theirs. |
| CharacterStores.CharacterStore.GetCharacter | crates/artait-service/src/character_store.rs:208-210 | It answers what the map holds. |
| CharacterStores.CharacterStore.Trim | crates/artait-service/src/character_store.rs:230-238 | What is kept is part of the map and at least as new as what is not, and just as many as the limit allows. |
| CharacterStores.CharacterStore.ImportCharacters | crates/artait-service/src/character_store.rs:417-429 | The map gains all imported characters. |
| CharacterStores.CharacterStore.DeleteFolder | crates/artait-service/src/character_store.rs:274-288 | The folder leaves its map, and its characters stay, without a folder. |
| CharacterStores.CharacterStore.MoveToFolder | crates/artait-service/src/character_store.rs:296-300 | The character of this identifier changes its folder in the map. |
| CharacterStores.CharacterStore.CreateFolder | crates/artait-service/src/character_store.rs:243-263 | The map of folders gains the new one. |
| CharacterStores.CharacterStore.RenameFolder | crates/artait-service/src/character_store.rs:266-271 | The folder of this identifier changes its name in the map; an unknown one is an error. |
| CharacterStores.CharacterStore.EnsureProjectFolder | crates/artait-service/src/character_store.rs:432-460 | The first folder of the project, or a new one; never a second one. |
| TaskHistories.TaskHistory.Upsert | crates/artait-service/src/task_history.rs:106-114 | The map gains or replaces the entry, and the index stays the exact inverse of the list. |
| TaskHistories.TaskHistory.Get | crates/artait-service/src/task_history.rs:117-119 | It answers what the map holds. |
| TaskHistories.TaskHistory.Recent | crates/artait-service/src/task_history.rs:122-127 | The first so many of the list sorted by time, latest first, and so the latest entries: no entry left out is later than one shown. |
| TaskHistories.LatestExactly | crates/artait-service/src/task_history.rs:122-127 | Which entries these are depends on the list alone: of entries of the same time those that stand first are taken, in their order. |
| Sorting.SortIsStable | crates/artait-service/src/task_history.rs:122-127 | Sorting leaves what the order does not tell apart in the order in which it stood. |
| Sorting.StablyUnique | crates/artait-service/src/task_history.rs:122-127 | There is only one sorted sequence that does. |
| TaskHistories.TaskHistory.RemoveByFilter | crates/artait-service/src/task_history.rs:138-156 | Just the entries the filter names leave the map, the rest keeps its order, and the file is written only if something left. |
| TaskHistories.TaskHistory.RemoveById | crates/artait-service/src/task_history.rs:159-170 | Just this entry leaves the map and the list. |
| TaskHistories.TaskHistory.Trim | crates/artait-service/src/task_history.rs:218-228 | The latest entries are kept, and the index fits them. |
| TaskLists.CompareOrders | crates/artait-app/src/bridge.rs:425-439 | The comparator is a total order without ties between items of different identifiers. |
| TaskLists.TaskListUnique | crates/artait-app/src/bridge.rs:376-439 | There is only one sorted list of what is to be shown, whatever the order of the hash map. |
| TaskLists.MergeHistory | crates/artait-app/src/bridge.rs:387-422 | The merge holds every live task, adds just the entries that are not live, and has no identifier twice. |
| TaskLists.TaskList | crates/artait-app/src/bridge.rs:376-439 | The list shows exactly the live tasks and those of the latest 200 of the history, as it stands, that are not live, each once, in order; so it is determined by the tasks and the history. |
| TaskLists.TaskBoard.Apply | crates/artait-app/src/bridge.rs:232-318 | A task enters the map only when it starts and under its own identifier, other events change only their own task and only if it is there, and a finished task goes on record among the latest 500. |
| AssetIterators.PreorderIsReached | crates/artait-asset/src/lib.rs:173-201 | The recursive listing holds exactly what can be reached through directories that can be listed without entering skipped names. |
| AssetIterators.PreorderAscends | crates/artait-asset/src/lib.rs:173-201 | It is strictly sorted by components. |
| AssetIterators.AssetIterator.Next | crates/artait-asset/src/lib.rs:173-201 | Each call with the explicit stack takes the next asset of the recursive listing; a file without readable metadata reads as the end. |
| AssetIterators.InitialScan | crates/artait-asset/src/lib.rs:96-118 | The chunks concatenate to what the iterator gives, each has 1 to 500 assets, and one Done event follows them all. |
| AssetIterators.NothingLost | crates/artait-asset/src/lib.rs:173-201 | All assets are sent exactly if the metadata of all of them can be read. |
| AssetIterators.ScanMisleads | crates/artait-asset/src/lib.rs:173-201 | A directory of two files of which the first cannot be read: the scan ends before anything is sent, and the second file is lost. |
| ScriptIndexes.SyncAgreement | crates/artait-service/src/script_index.rs:60-93 | Synchronizing keeps the cache right exactly if it meets no ready row whose file has changed. |
| ScriptIndexes.StaleHit | crates/artait-service/src/script_index.rs:60-93 | Where it meets one, the next lookup returns the analysis of the old contents for the new file. |
| ScriptIndexes.SyncMisleads | crates/artait-service/src/script_index.rs:60-236 | The run of storing, editing, synchronizing and looking up that returns the stale result. |
| ScriptIndexes.ScriptIndexStore.CachedAnalysis | crates/artait-service/src/script_index.rs:119-176 | While the cache is right, a hit is the analysis last stored for the present size and time. |
| ScriptIndexes.ScriptIndexStore.UpsertAnalysis | crates/artait-service/src/script_index.rs:178-236 | The stored analysis is the next hit for its file, other paths keep their hits, and the cache stays right. |
| ScriptIndexes.ScriptIndexStore.MarkParseError | crates/artait-service/src/script_index.rs:238-272 | The path has no hit any more, other paths keep theirs, and the cache stays right. |
| ScriptIndexes.ScriptIndexStore.SyncDir | crates/artait-service/src/script_index.rs:60-93 | The rows after it, and that it keeps the cache right exactly under the condition above. |
| CharacterTallies.CastIs | crates/artait-model/src/script.rs:191-201 | The cast of a scene has everyone who is listed or speaks, once. |
| CharacterTallies.ExtractCharacters | crates/artait-service/src/script_pipeline.rs:65-117 | Each name appears once, with the number of scenes whose cast has it, and the dialogue counts sum to the number of dialogue lines. |
| CharacterTallies.DialoguesAddUp | crates/artait-service/src/script_pipeline.rs:65-117 | Every dialogue line is counted for exactly one name. |
| CharacterTallies.AnalyzedDialogues | crates/artait-service/src/script.rs:270-293 | The dialogue count of the analysis is the sum of the dialogue counts of the characters. |
| Storyboards.SplitShots | crates/artait-service/src/script.rs:67-89 | The shots concatenate to all lines from the first header on, each has a header exactly at its beginning, and there is none exactly if there is no header. |
| Storyboards.SplitPackages | crates/artait-service/src/script.rs:63-126 | The packages concatenate to all lines from the first header on, their ranges cover the shots without gap or overlap, all but the last have the number asked for; without a header the whole text is one package. |
| ScriptParts.PartsAre | crates/artait-service/src/script_parser.rs:64-101 | Cutting at headers gives parts that make up all lines, each but the first with a header and none with a second one. |
| ScriptParts.PartsUnique | crates/artait-service/src/script_parser.rs:64-101 | Those are the only such parts. |
| ScriptScenes.AddStores | crates/artait-service/src/script_parser.rs:115-161 | Storing a line adds just what its kind gives and leaves the other kinds of the scene alone. |
| ScriptScenes.FilledExactly | crates/artait-service/src/script_parser.rs:115-161 | A scene made from some lines is the one scene of its header that holds, kind by kind and in order, just what they give. |
| ScriptParsers.ParseLines | crates/artait-service/src/script_parser.rs:53-175 | The episodes are those of the script cut at its episode headers, with their titles and numbers, before them the default one if anything is stored there, and their scenes are those of each part cut at its scene headers, each with its header and its lines; without an open episode, scenes are kept only from the first one on that stores something. |
| ScriptParsers.KeptIs | crates/artait-service/src/script_parser.rs:77-109 | What is dropped are the leading scenes before any episode that have nothing to store. |
| ScriptParsers.NothingLost | crates/artait-service/src/script_parser.rs:53-175 | The episodes hold, kind by kind and in order, just what all lines give: nothing is lost or doubled. |
| ScriptParsers.IndicesClash | crates/artait-service/src/script_parser.rs:57-104 | Two episodes have the same index exactly if something is stored before the first of the episode headers. |
| PlainScripts.SplitBlocks | crates/artait-service/src/script_parser.rs:237-256 | The blocks are the parts between scene headers, without an empty first one. |
| PlainScripts.ParsePlain | crates/artait-service/src/script_parser.rs:181-235 | One episode with one scene for each block, in order, with the header of the block, or the name of an unnamed scene, and the lines of the block. |
| PlainScripts.PlainLosesNothing | crates/artait-service/src/script_parser.rs:181-235 | The episode holds, kind by kind and in order, just what all lines give. |
| PlainScripts.ParseScript | crates/artait-service/src/script_parser.rs:19-34 | An empty text gives nothing; otherwise the structured or the plain reading of the classified lines, which either way holds just what they give. |
| ScriptReports.ParsedDialogues | crates/artait-service/src/script.rs:270-281 | The dialogue lines that the statistics find in a parsed script are as many as the script has spoken lines. |
| ScriptReports.AnalyzeScript | crates/artait-service/src/script.rs:270-293 | The report counts the episodes and scenes of the reading, one character for each name in a cast, and as many dialogues as there are spoken lines, which is what all characters speak together. |

## Left out

- The Windows branches of the migration (handle sharing, rename by handle); the model follows the Unix ones.
- The order in which `fsync` makes things durable: a flush is a call that may fail and changes nothing.
- The checks against home and system directories taken from environment variables, and `canonicalize`: paths are given in canonical form.
- A partial `write_all`: a write happens as a whole or not at all, so partial bytes of one piece are not distinguished from those of the piece before.
- The process number and the time in staging names: names differ by the counter, and are recognized by their form.
- Renaming a directory over an empty one, and permission bits.
- 64-bit overflow of the sum of sizes within one plan, which is taken to fit; the sum over plans is checked as in the code.
- Texts of error messages and the rendering of reports: only the lists and counters are modelled.
- RetainedEqual: `usize` is taken to have 64 bits, as the cast of the remaining length needs.
- CopyRetaining: its progress callback cannot refuse in the source; in the model it may, which only adds runs.
- Execute: the exact restoration and the exact success condition are stated for a disk at rest, as other processes could otherwise have changed what is restored; the progress values are not stated, and the read-ahead of buffered readers is not modelled.
- RollBack: that a single failing call leaves a complete rollback is stated through its two conditions, stamps noted and no call failing after the turn.
- Scan: termination rests on the other processes acting finitely often.
- Migrate: requests that plan a staging name as a file name are left undecided.
- `render` of the report, `manifest` and `same_path`, which are one-line views of what is modelled.
- Parsing of relative paths and of non-Unicode names; names are compared as sequences of characters.
- TOML, JSON and SQL encodings: files and tables are sequences and maps, and a write succeeds or fails as a whole.
- `search`, the filters, views and variations of the character store, and `recent` of the script index: one-branch queries.
- `scene_store.rs`, which is the character store without its sort.
- The counts shown beside the task list, the fields of tasks that neither merge nor order looks at, and everything drawn on the screen.
- The asset metadata read beside each path, and the file watcher after the initial scan.
- `normalize_script`, joining and splitting of lines into texts: scripts are sequences of lines.
- Providers, network, keyring, thumbnails, drag and drop, and window code.
