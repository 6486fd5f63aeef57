# A model of the HermitStash sync client

This project states, and proves, what the sync client keeps true while it mirrors a server bundle
into a local folder: what the persisted cursor may pass, which bytes may be overwritten, what a
SYNCED row or a SYNCED engine vouches for, and how the smaller machines around it (key rotation,
self-update, locks, timers, filters, the upload stream, the action-pin script) survive crashes and
interleavings.

`dafny verify dfyconfig.toml` verifies all of it.

## How it is laid out

| file | about |
|---|---|
| `Types.dfy` | paths, contents, rows, server events |
| `Replica.dfy` | folder and `files` table; what each server-event handler and sweep turn does to them, with a separate outcome for every operation that can fail |
| `Session.dfy` | cursor, watermark, phase, counters; when the engine may call itself SYNCED |
| `World.dfy` | both together, with uploads in flight and buffered deletes; local changes, rescans, recoveries |
| `Safety.dfy`, `LocalSafety.dfy` | rows stay honest and no bytes are lost, with the exact condition where the code does lose some |
| `Effects.dfy`, `Answers.dfy` | what a handler that reports success has done; exactly how each event is answered |
| `Transfers.dfy` | a handler, turn or listing up to its download, and the download's end |
| `Runs.dfy`, `Sweeps.dfy` | whole runs of all of it, in any order; sweeps turn by turn |
| `LocalDuties.dfy` | exactly what local activity makes the engine do |
| `Ledger.dfy`, `Progress.dfy` | no lost event; SYNCED covers the tip; wedge redials are bounded |
| `CatchUp.dfy`, `Duties.dfy` | a catch-up ends, the cursor gets on, a wedge is undone: the duties over whole runs |
| `Convergence.dfy`, `RunConvergence.dfy` | the folder converges to the log |
| `Replays.dfy` | what sending a suffix of the log again does |
| `Engine.dfy` | the engine as one mutable object, each method proved to be the corresponding function above |
| `Rotation.dfy` | CA rotation and boot recovery over nine files |
| `Updater.dfy` | self-update probation and rollback |
| `PathLock.dfy`, `RenameBuffer.dfy` | per-path lock, buffered deletes and their timers |
| `PathFilter.dfy`, `Walk.dfy` | pattern matcher and classifier, pruning walk |
| `UsesLine.dfy` | the `uses:` line parser, checker and fixer |
| `Connection.dfy`, `WatcherRecovery.dfy`, `UploadGuard.dfy` | WebSocket wrapper, watcher restarts, upload framing |

A content stands for its checksum: two contents are equal exactly when their checksums are. An
operation that can fail takes its outcome as a parameter, one for each call that can fail on its
own, so the theorems hold for every combination of outcomes.

What runs interleave: a handler, a sweep's turn and a listed file each go up to their download in
one step and end with it in another; a sweep is as many turns, from rows it read before the first.
Events, heartbeats, listings, rescans and sweeps share one chain, as in the source, so none of them
falls inside another. The user, the watcher, delete timers, uploads, the connection and a restart
of the process fall anywhere, the watcher's events being dropped for a name while it is being
downloaded; a restart in the middle of a download leaves the file in place or not, its row as it was.
The server's history (`ever`), the conflict copies and the ledger are kept only to
state properties.

## What the code does not establish

These came out of the proofs. Each has a concrete case and the exact condition under which the
code does what it promises.

- A file the user writes while its name is being downloaded is overwritten with no copy: the
  conflict check is over by then (`Runs.ForesightIsExact`, `Runs.EditDuringDownloadIsLost`).
- When the conflict copy cannot be made the download goes ahead (`Safety.IncomingKeepsBytes`), also
  after a case rename or a server rename whose own move worked: a name short enough for the scratch
  suffix of the one and too long for the suffix of the other is enough
  (`Safety.CaseVariantDestroysBytes`, `Safety.RenameOverwritesEdit`).
- A case rename is two renames; if the second fails, and the undo of the first too, the file stays
  under a scratch name that the next boot deletes (`Safety.CaseVariantDestroysBytes`).
- Initial sync does not even try to copy aside a file it could not hash, although the comment above
  `_maybeSaveConflictCopy` promises to fail closed (`Safety.InitialFileKeepsBytes`,
  `Safety.InitialSyncDestroysUnhashable`).
- A server rename moves onto an occupied name without a conflict copy, and its fallback unlinks the
  old name without looking (`Safety.RenameKeepsBytes`, `Safety.RenameDestroysBytes`); one that also
  changes content, onto a file that already has that content, ends SYNCED over the wrong bytes
  (`Replays.RenameMirrors`). Without any fault or local edit, replaying a rename whose old name has
  been taken again does just that (`Replays.ReplayIsHarmless`, `Replays.TwinFreeReplays`,
  `Replays.ReplayCorrupts`).
- A server rename of a row that still owes a download compares only checksums, so it turns the debt
  into a pending upload of stale bytes (`Ledger.RenameOfOwedRow`, `Ledger.RenameForgetsDownload`,
  `Convergence.RenameTracks`).
- A download commits over whatever its row has become, and a sweep works from rows read before its
  first turn; an upload that ends in between leaves a SYNCED row whose checksums disagree
  (`Runs.RunKeepsGood`, `Runs.StaleTurnIsDishonest`, `Sweeps.UndisturbedRunIsHonest`,
  `Safety.SweepRowHonesty`, `LocalSafety.DownloadHonesty`, `LocalSafety.UploadInsideDownload`).
- Opening a session clears the watermark while events of the previous session may still be queued;
  applying one of them then carries the cursor past a refused event (`Ledger.StaleQueuePassesGap`).
  The run theorems deliver a session's events from the cursor it opened at.
- `_maybeMarkSynced` replaces RECONNECTING, and even a sticky ERROR, by SYNCED when a transfer ends;
  and a close under a rejection kept from an earlier connection leaves the phase as it was
  (`Session.PhaseTellsConnection`, `Session.SyncedWithoutConnection`, `Session.SyncedAfterRejection`).
- A file that grows during its upload trips a guard whose error nobody listens to: the request and
  the descriptor stay open until something else ends them (`UploadGuard.TrippedStaysOpen`).
- Backup copies of the identity are not atomic and are never removed: a crash inside the copy of
  `ca.prev`, or in a later rotation, restores a trio that is not one generation
  (`Rotation.FirstRotationIsCrashSafe`, `Rotation.LaterRotationIsCrashSafe`,
  `Rotation.CleanCrashesSurvive`, `Rotation.TornCrashesSurvive`).
- The probation timer deletes a marker written for a newer version
  (`Updater.OldTimerForgetsNewMarker`), a crash between unlinking the backup and deleting the
  marker leaves a marker without a backup (`Updater.StepKeepsBackup`), and a binary installed by
  hand inherits a stale marker of its version (`Updater.AdoptedMarkerRollsBackTooFar`).
- `_walkDir` prunes with every ignore pattern, so a basename pattern that names a directory hides
  files the filter would sync (`Walk.PruningIsExact`, `Walk.BasenamePatternLosesFiles`).
- A pattern reported as matching nothing matches a path that contains it literally
  (`PathFilter.UnsupportedCanMatchStars`).
- A quoted action path with a '#' or a leading blank does not survive `--fix`, and can come back as
  another action (`UsesLine.FixRoundTrips`, `UsesLine.QuotedPathIsLost`, `UsesLine.HashedPathIsLost`).

## Model

| member | source | states |
|---|---|---|
| `Ledger.NoLostEvent` | lib/sync-engine.js:2643-2692 | over every run of sessions, drops, replays, sweeps, listings, downloads in progress, resyncs and local activity from a fresh cursor, every event at or below the persisted cursor has taken effect (its row and bytes are there, or the user's own bytes are), was out of scope, is still owed by a row naming its file id and checksum, was owed and has since landed, or gave way to a later change of the same file; a refused event lies above the cursor. The one exception, a rename that settles over other bytes, is `Forgotten` and vouches for its exact condition |
| `Ledger.RunAccounts` | lib/sync-engine.js:1070-1083 | the invariant behind it, kept by every step of every run: each delivered event has an entry, each owed one its row, each refused one the watermark |
| `Ledger.DeferredIsOwed` | lib/sync-engine.js:1381-1387 | a handler whose download failed leaves a PENDING_DOWNLOAD or ERROR row naming exactly that event's file id and checksum |
| `Ledger.TurnOwesOrLands` | lib/sync-engine.js:1903-1962 | a sweep's turn stops owing an event only by landing its file: SYNCED, with its bytes on disk |
| `Ledger.FetchOwesOrLands` | lib/sync-engine.js:2787-2832 | and so does the end of a download |
| `Ledger.ApplyFrame` | lib/sync-engine.js:1304-1393 | a handler changes no row but its own file's, a case variant's and a rename's source |
| `Ledger.RenameOfOwedRow` | lib/sync-engine.js:1752-1820 | a server rename of a row that owes a download, onto any destination, keeps the debt or lands the file if and only if the bytes it moves already are the owed content and the row does not say otherwise, or, moving nothing, its fallback is not short-circuited by other bytes |
| `Ledger.RenameForgetsDownload` | lib/sync-engine.js:1790-1806 | concretely: a failed replacement followed by a rename becomes a pending upload of the stale bytes |
| `Ledger.StaleQueuePassesGap` | lib/sync-engine.js:690-693 | opening a session clears the watermark; if later events of the old session are still queued, the cursor passes the refused event if and only if one of them is applied |
| `Answers.EventAnswer` | lib/sync-engine.js:1085-1110 | for every folder, table, event and outcome of what can fail: an event is refused if and only if a removal finds a file it cannot hash, cannot unlink although it is the server's, or cannot copy aside although it is not, or an incoming file is tracked under another casing and cannot be renamed; it is deferred if and only if it needs a download that fails, and otherwise applied |
| `Answers.RemovalAnswer` | lib/sync-engine.js:1575-1642 | a removal that is not barred takes row and file away, and a file that is not what the server is known to hold becomes the newest conflict copy; one that is changes nothing |
| `Answers.RemovalKeepsEdit` | lib/sync-engine.js:1601-1634 | in particular another device's delete is neither put off by a local edit nor destroys it |
| `Answers.ArrivalAnswer` | lib/sync-engine.js:1304-1475 | an incoming file leaves exactly one row, in every column, the file and at most one conflict copy, by whether it is present, known, hashable, copied and fetched |
| `Answers.RenameAnswer` | lib/sync-engine.js:1724-1844 | a server rename moves file and row together if and only if the file is there, can be moved and its row has the announced content, and keeps an edit waiting for its upload; otherwise it clears the old name and brings the file in |
| `Answers.LookupAnswer` | lib/state-db.js:174-178 | the tracked row of a path: its own, or on a folding volume that of the case variant found |
| `Answers.TurnAnswer` | lib/sync-engine.js:1913-1962 | a sweep's turn passes, settles by the file that is there, or fetches after moving aside what is neither; it counts as landed exactly in the last two, the fetch having worked |
| `Answers.ListingAnswer` | lib/sync-engine.js:2414-2453 | a listed file is taken as it is, or fetched after its earlier version is moved aside, with every column of its row |
| `Duties.DeliveryAnswer` | lib/sync-engine.js:1070-1083 | in every state a run reaches a delivered event goes unmet if and only if it is barred; the cursor then stays below it, a download leaves it where it is, and any other event takes it to the event itself, or to just below the first refused one |
| `Duties.FetchAnswer` | lib/sync-engine.js:2643-2666 | and the end of an event's download takes the cursor along if it succeeded, and only then |
| `Duties.DownloadIsOwed` | lib/sync-engine.js:1370-1387 | while an event or a listed file is being downloaded its row is PENDING_DOWNLOAD and names what is fetched, so a process that dies leaves a debt the next one sees |
| `Duties.ScopeAnswer` | lib/sync-engine.js:1706-1722 | what is left of an event for this client enters its part of the listing just as the event enters the whole: a rename out of scope is a removal there, one into it an add |
| `Effects.ApplyTakesEffect` | lib/sync-engine.js:1304-1866 | a handler that reports success has either left a row that owes exactly the event's content, or the folder shows the event: an incoming file's row names its id and checksum and says SYNCED only of its bytes, which are at its name unless the user's own were left there; a removed file has neither row nor file; a renamed one has left its old row. Exactly when a rename does not forget |
| `Effects.IncomingTakesEffect` | lib/sync-engine.js:1304-1393 | an add or replace that succeeds leaves row, status and bytes as stated, for both the short circuit and the download |
| `Effects.DeleteTakesEffect` | lib/sync-engine.js:1575-1642 | a successful remove leaves neither row nor file, and no row under another casing |
| `Runs.NoUserBytesDestroyed` | lib/sync-engine.js:1268-1302 | over every run of foreseen steps, starting with nothing unbacked under a download, bytes the user does not touch are still at their name (as server renames lead it), in a conflict copy, or were once held by the server. A step is foreseen if, checked before it, with its download taken to succeed: a server event meets the condition of `Safety.ApplyKeepsBytes`; a sweep's turn or a listed file that fetches over unbacked bytes can copy them aside (a listed file: and was hashed beforehand); and the user writes nothing new to a name while it is being downloaded |
| `Runs.ForesightIsExact` | lib/sync-engine.js:1268-1302 | for each step that condition is exact: it holds if and only if the step loses no bytes but the user's own doing and leaves nothing unbacked under a download |
| `Runs.ForesightIsNeeded` | lib/sync-engine.js:2787-2812 | and a step that is not foreseen loses bytes at once, or loses them when its download succeeds |
| `Runs.EditDuringDownloadIsLost` | lib/sync-engine.js:2779-2787 | concretely: the event is foreseen, the user's write to the name being downloaded is not, and it is overwritten with no copy |
| `Runs.RunKeepsGood` | lib/sync-engine.js:2787-2812 | rows are honest (a SYNCED row's two checksums agree) throughout a run, sweeps turn by turn and downloads in progress, if and only if every download ended while its row still named what it fetched; that every server checksum is content the server really held, in rows, snapshots and downloads alike, needs no condition |
| `Runs.StepKeepsGood` | lib/sync-engine.js:1522 | each single step keeps rows honest if and only if it is not the end of a download whose row has moved on |
| `Runs.StepKeepsSound` | lib/sync-engine.js:1070-1083 | and keeps every server checksum server-held, whatever fails in it |
| `Runs.StaleTurnIsDishonest` | lib/sync-engine.js:1903-1962 | concretely, in six steps: an upload that ends between a sweep's reading of a row and its download leaves a SYNCED row that lies, which no rescan notices |
| `Sweeps.UndisturbedRunIsHonest` | lib/sync-engine.js:1903-1962 | rows stay honest over every run, whatever fails, in which no local change, upload or recovery concerns a row between a sweep's reading of it and its turn, or while it downloads |
| `Runs.UninterruptedEvent` | lib/sync-engine.js:1070-1083 | an event and the end of its download, with nothing between, are exactly `World.Receive`, the function the engine class is proved against |
| `Runs.UninterruptedSweep` | lib/sync-engine.js:1877-1970 | a sweep whose turns and downloads follow each other is exactly `World.Sweep` |
| `Runs.UninterruptedListing` | lib/sync-engine.js:2414-2453 | a listed file and the end of its download are exactly `World.List` |
| `Transfers.ReceiveIsBoth` | lib/sync-engine.js:1304-1393 | what a handler does up to its download, followed by the download's end, is the whole handler, in folder, rows, cursor and counters |
| `Transfers.TurnIsBoth` | lib/sync-engine.js:1903-1962 | so for a sweep's turn |
| `Transfers.ListIsBoth` | lib/sync-engine.js:2414-2453 | and for a listed file |
| `Safety.ApplyKeepsBytes` | lib/sync-engine.js:1085-1110 | a server event loses no local bytes if and only if it is careful, with the handler's own move, the case rename and the conflict copy each failing on its own |
| `Safety.IncomingKeepsBytes` | lib/sync-engine.js:1297-1301 | an added or replaced file keeps the bytes at its name if and only if they are backed elsewhere, no case rename strands them under its scratch name, and no download lands after the conflict copy failed, whichever casing the row had |
| `Safety.CaseVariantDestroysBytes` | lib/sync-engine.js:1403-1475 | concretely: the case rename works, the conflict copy does not, and the download overwrites a local edit; or the second half of the case rename fails and the edit is left under a scratch name |
| `Safety.DeleteKeepsBytes` | lib/sync-engine.js:1575-1642 | a server delete loses no bytes, whatever fails: it unlinks only content the server has held |
| `Safety.RenameKeepsBytes` | lib/sync-engine.js:1752-1757 | a server rename loses no bytes if and only if its destination is free or backed, its unchecked unlink finds backed bytes, and its fallback's download lands over nothing that its conflict copy failed to save |
| `Safety.RenameDestroysBytes` | lib/sync-engine.js:1849-1866 | three concrete losses: a move onto an occupied name, the unchecked unlink of a locked source, and a case-only rename that also changes content |
| `Safety.RenameOverwritesEdit` | lib/sync-engine.js:1797-1844 | concretely: a server rename that also changes the content moves a locally edited file, fails to copy it aside, and overwrites it |
| `Safety.CheckedDownloadBytes` | lib/sync-engine.js:1268-1302 | behind all of these: a download after a conflict check keeps the bytes at its name if and only if they are backed, the copy works, or the download fails |
| `Safety.SweepRowKeepsBytes` | lib/sync-engine.js:1944-1958 | a sweep's turn keeps the bytes at its name if and only if they are backed, the turn lands nothing, or the conflict rename works |
| `Safety.InitialFileKeepsBytes` | lib/sync-engine.js:2414-2453 | initial sync keeps the bytes at a listed name if and only if they are backed, the download fails, the earlier hash already is the listed one, or there was an earlier hash and the conflict copy works |
| `Safety.InitialSyncDestroysUnhashable` | lib/sync-engine.js:2414-2450 | concretely: a local file that cannot be hashed is overwritten without a conflict copy |
| `Safety.ApplyKeepsRows` | lib/sync-engine.js:1304-1648 | every server event, under any faults, leaves honest rows that name server-held content |
| `Safety.InitialFileKeepsRows` | lib/sync-engine.js:2414-2453 | a listed file leaves honest, server-held rows, however old the hash it was compared by |
| `Safety.SweepRowHonesty` | lib/sync-engine.js:1917-1929 | a sweep's turn leaves an honest row if and only if the row still names what the sweep's snapshot named, or the turn lands nothing it must vouch for |
| `Safety.SweepRowHeld` | lib/sync-engine.js:1903-1962 | and in either case its server checksum is content the server held, however old the snapshot |
| `LocalSafety.SyncedUploadMatchesDisk` | lib/sync-engine.js:3404-3498 | an upload ends SYNCED if and only if the file on disk is what the server received; the row never records bytes the server did not receive |
| `LocalSafety.RescanSeesDivergence` | lib/sync-engine.js:2281-2316 | disk bytes a SYNCED row does not name are seen by the next rescan, which uploads exactly them or renames a deleted file to them |
| `Runs.NoLostLocalUpdate` | lib/sync-engine.js:2281-2316 | and so after any run: bytes that differ from the server's at a SYNCED row are taken up by the next rescan of the file |
| `World.NameParts` | lib/sync-engine.js:2960-2970 | rename detection's base name and directory put the path back together |
| `World.NoSecondRename` | lib/sync-engine.js:2960-2985 | the upload that replaces a failed rename looks for renames again and finds none: the one candidate has been used up |
| `LocalSafety.RenameRecords` | lib/sync-engine.js:3226-3275 | a local rename whose server call worked, or whose delete and re-read did, leaves a row that records the bytes on disk |
| `LocalSafety.DownloadHonesty` | lib/sync-engine.js:2799-2812 | a download commits an honest row if and only if the row still names what it fetched |
| `LocalSafety.UploadInsideDownload` | lib/sync-engine.js:3440-3466 | why that condition matters: an upload of the same file that ends between the conflict check and the download leaves a dishonest SYNCED row |
| `LocalSafety.LocalModifyKeeps` | lib/sync-engine.js:2887-3016 | a local change never touches files and keeps rows honest and server-held |
| `LocalDuties.DeleteAnswer` | lib/sync-engine.js:3095-3202 | a confirmed local delete calls the server if and only if the engine runs, the file is still gone, and the row has a file id and a local checksum; the row leaves the table if and only if that call is acknowledged, is PENDING_DELETE with its other columns as they were if it fails, and nothing changes without it |
| `LocalDuties.DeleteIsRetried` | lib/sync-engine.js:2202-2226 | a delete whose call failed is made again by the next pass over such rows, and the row goes once that is acknowledged |
| `LocalDuties.RecoverDeleteAnswer` | lib/sync-engine.js:2202-2226 | that pass touches exactly the PENDING_DELETE rows whose file is gone |
| `Duties.DeletesAreAcknowledged` | lib/sync-engine.js:3095-3202 | in every state of every run, no row leaves through a fired or retried local delete unless the server acknowledged it |
| `LocalDuties.FiringAnswer` | lib/sync-engine.js:3057-3061 | a buffered delete whose timer fires leaves the buffer, and is dropped if the file is back |
| `LocalDuties.LocalDeleteAnswer` | lib/sync-engine.js:3046-3075 | a file found gone is buffered under its row if the server has it, else its row goes at once |
| `LocalDuties.ModifyAnswer` | lib/sync-engine.js:2887-3016 | a changed file whose row has other bytes is the new name of the one buffered delete of just those bytes nearby, or, with none, several or no bytes, is uploaded; it cancels its own buffered delete either way |
| `LocalDuties.LocalRenameAnswer` | lib/sync-engine.js:3226-3290 | each ending of a detected rename: the row moves and is SYNCED only over the server's bytes; in error while stopping; deleted and uploaded, or queued if the delete fails too |
| `LocalDuties.UploadAnswer` | lib/sync-engine.js:3404-3498 | each ending of an upload, in every column of its row: in error, SYNCED exactly when the file still is what the server received, to be sent again, or to be deleted there |
| `LocalDuties.RecoverUploadAnswer` | lib/sync-engine.js:2090-2190 | a pending upload is settled if and only if the server has the file as it is, else sent with its present bytes; so is a first upload that failed |
| `LocalDuties.NoUploadLeftLying` | lib/sync-engine.js:2090-2190 | so after a pass no pending upload whose file can be read is neither under way with the file's bytes nor done |
| `LocalDuties.ScanAnswer` | lib/sync-engine.js:2281-2316 | a file met by a rescan or scan is taken up if and only if its row has other bytes |
| `Duties.WatcherAnswer` | lib/sync-engine.js:2850-2886 | the watcher's events are taken up unless the engine is stopped or has failed |
| `Convergence.ApplyTracks` | lib/sync-engine.js:1304-1866 | one event, under any faults, leaves every name with its logged file, a row owing exactly it, or neither, if and only if a rename among them follows through; a refused event changes nothing of that |
| `Convergence.RenameTracks` | lib/sync-engine.js:1724-1844 | when a rename does: exactly if it relocates a row that owed nothing, or just the bytes it moves; or its fallback is not short-circuited by other bytes and a file it could not move can be unlinked |
| `Convergence.SweepRowTracks` | lib/sync-engine.js:1903-1962 | a sweep's turn keeps that, and a turn that lands settles its row |
| `Convergence.NothingStrandedIsAtRest` | lib/sync-engine.js:1877-1970 | with nothing stranded, rows and disk are exactly the log's listing |
| `Replays.ReplayIsIdempotent` | lib/sync-engine.js:1353-1370 | entering any suffix of the log again, renames included, leaves its listing as it was |
| `Replays.ReplayIsHarmless` | lib/sync-engine.js:1353-1370 | re-delivering any suffix of the log, renames included, to an up-to-date folder, with every hash, download and unlink working and conflict copies and moves working or not, ends in the same disk and rows with no conflict copy, if and only if playing the suffix on the log's own listing ends there; with no rename onto a twin in it, always |
| `Replays.ReplayPlays` | lib/sync-engine.js:1304-1866 | behind it: over any stretch of any log the folder shows exactly what playing that stretch says, bytes, rows and conflict copies |
| `Replays.TwinFreeReplays` | lib/sync-engine.js:1752-1834 | after every event of the replay the folder shows the listing with that event entered, if and only if no rename in it moves a file onto one that already has the announced content and another than the file's own; and then the replay is harmless |
| `Replays.ReplayCorrupts` | lib/sync-engine.js:1752-1834 | concretely: a file is renamed and its name taken again; replayed from the rename on, the second file's bytes lie under both names, one row SYNCED at the first one's |
| `Replays.TwinCanMend` | lib/sync-engine.js:1752-1834 | and such a rename is not yet harm in the end: two later replacements of the name put it right |
| `Replays.RenameMirrors` | lib/sync-engine.js:1724-1834 | a server rename without faults leaves exactly the renamed listing on disk and in the rows, if and only if it meets no such twin |
| `RunConvergence.ConvergesToLog` | lib/sync-engine.js:1304-1866 | over every run without local edits, renames in the log included, once a session has delivered the whole log and refused nothing, the table tracks the log's listing, whatever failed, dropped or was replayed before |
| `RunConvergence.OneGoodSweepHeals` | lib/sync-engine.js:1877-1970 | one sweep whose downloads all succeed, whatever the connection does between its turns, then makes disk and rows equal to the log's files |
| `RunConvergence.RunStaysOnCourse` | lib/sync-engine.js:2643-2666 | the invariant behind it: name by name the table is at some log position at or past the first refused event |
| `Session.SyncedIsHonest` | lib/sync-engine.js:2591-2641 | in any interleaving of handlers, transfers, drops and sweeps the engine leaves CATCHING_UP for SYNCED only with nothing outstanding and after a heartbeat of this session whose sequence number the cursor has reached |
| `Session.OnlyLatchEndsCatchUp` | lib/sync-engine.js:2633-2641 | no transfer's end makes that transition unless the latch is set |
| `Session.LatchIsWitnessed` | lib/sync-engine.js:2605-2608 | the latch is only ever set by such a heartbeat of the current session |
| `CatchUp.HeartbeatAnswer` | lib/sync-engine.js:2591-2622 | a heartbeat while catching up makes the engine SYNCED if and only if nothing is in flight and it says, or an earlier one said, that the cursor has the tip (a zero only of an empty bundle); a higher one is kept as the tip |
| `CatchUp.EndsCatchUp` | lib/sync-engine.js:2633-2641 | the one step that ends a catch-up, exactly: such a heartbeat, or the end of the last handler or download after one |
| `CatchUp.CatchUpEnds` | lib/sync-engine.js:2591-2641 | over every run: once a session has heard such a heartbeat, and nothing opens, closes, fails or restarts before handlers and downloads are all back to zero, the engine is SYNCED at that point |
| `CatchUp.InFlight` | lib/sync-engine.js:2724-2846 | over every run, handlers, downloads and uploads in flight are those begun less those ended |
| `CatchUp.CursorAdvances` | lib/sync-engine.js:2643-2666 | an applied event takes the cursor to it, or to just below the first refused one, and clears its own refusal |
| `CatchUp.LowestIsKept` | lib/sync-engine.js:2043-2048 | a refused event is remembered unless an earlier one is |
| `CatchUp.PhaseAnswers` | lib/sync-engine.js:1027-1060 | what the engine shows when the connection comes, goes, fails or is refused, and when transfers begin |
| `Session.OnlyEndsShowSynced` | lib/sync-engine.js:1048-1060 | outside CATCHING_UP and SYNCED a step shows SYNCED if and only if it is the end of a transfer or rename with nothing else in flight on an engine not stopped; the connection plays no part, and an upload's own end never does it |
| `Session.PhaseTellsConnection` | lib/sync-engine.js:1048-1060 | over every run CATCHING_UP and SYNCED imply an open connection at every moment if and only if no step misleads: no such end falls while the connection is down, and no close falls under a sticky rejection |
| `Session.SyncedWithoutConnection` | lib/sync-engine.js:1048-1060 | concretely: a download that ends after a drop shows SYNCED |
| `Session.SyncedAfterRejection` | lib/sync-engine.js:1027-1031 | and so does one that ends after a permanent rejection |
| `Session.UpdateSeqKeepsGap` | lib/sync-engine.js:2643-2666 | the cursor never moves back, never reaches a refused event, and only that event's own success clears it |
| `Progress.SyncedCoversTip` | lib/sync-engine.js:2591-2622 | when a run goes from CATCHING_UP to SYNCED that step is a heartbeat, and every event up to the number it carries is in the ledger and none is unmet |
| `Duties.HeartbeatSyncs` | lib/sync-engine.js:2591-2622 | over every run from an idle start, a heartbeat while catching up ends it if and only if its number is at or below the cursor, a zero only of an empty bundle |
| `Duties.SweepUnwedges` | lib/sync-engine.js:1984-2036 | over every run from a fresh cursor, the end of a sweep redials if and only if it finds the engine catching up to a tip above the cursor with no refused event to wait for, has landed something and leaves no row stranded |
| `Duties.LandedCounts` | lib/sync-engine.js:1913-1962 | what it counts as landed: its turns that land at once and its downloads that succeed |
| `Progress.RedialDrains` | lib/sync-engine.js:1984-2036 | a wedge redial changes no cursor, starts with work waiting (a stranded row, a sweep or a download under way) and leaves none |
| `Progress.RedialsArePaidFor` | lib/sync-engine.js:1984-2036 | each redial is paid for by a step that newly stranded a row, so finitely many transfer failures mean finitely many redials |
| `Engine.StateDb.UpsertFile` | lib/state-db.js:188-217 | inserts or replaces one row |
| `Engine.StateDb.UpdateFileStatus` | lib/state-db.js:219-221 | changes the status of a row that exists, and nothing else |
| `Engine.StateDb.RemoveFile` | lib/state-db.js:223-225 | deletes one row |
| `Engine.StateDb.RenameFile` | lib/state-db.js:235-246 | moves a row in one transaction: whichever statement fails, both halves happen or neither |
| `Engine.StateDb.ClearAll` | lib/state-db.js:258-269 | clears rows and cursor, both or neither |
| `Engine.StateDb.GetFileFolded` | lib/state-db.js:174-178 | the exact row first, else on a folding volume a case variant |
| `Engine.StateDb.GetFilesByStatus` | lib/state-db.js:184-186 | every row of that status, each once, and no other |
| `Engine.SyncEngine.constructor` | lib/sync-engine.js:81-120 | a disconnected engine over a folder and a database, nothing in flight |
| `Engine.SyncEngine.MaybeFinishCatchUp` | lib/sync-engine.js:2633-2641 | does what `Session.FinishCatchUp` says |
| `Engine.SyncEngine.MaybeMarkSynced` | lib/sync-engine.js:1048-1060 | does what `Session.MarkSynced` says |
| `Engine.SyncEngine.UpdateSeq` | lib/sync-engine.js:2643-2692 | does what `Session.UpdateSeq` says to cursor and watermark |
| `Engine.SyncEngine.NoteUnappliedSeq` | lib/sync-engine.js:2043-2048 | keeps the lowest refused sequence number |
| `Engine.SyncEngine.HandleHeartbeat` | lib/sync-engine.js:2591-2622 | does what `Session.Heartbeat` says and nothing else |
| `Engine.SyncEngine.OnOpen` | lib/sync-engine.js:672-693 | starts a fresh catch-up: phase, latch, tip and watermark |
| `Engine.SyncEngine.OnClose` | lib/sync-engine.js:733-742 | RECONNECTING, unless disconnected or permanently rejected |
| `Engine.SyncEngine.OnReconnecting` | lib/sync-engine.js:763-765 | RECONNECTING, whatever the phase was |
| `Engine.SyncEngine.OnError` | lib/sync-engine.js:744-747 | ERROR, and nothing else |
| `Engine.SyncEngine.OnUpgradeRejected` | lib/sync-engine.js:1027-1031 | sticky ERROR |
| `Engine.SyncEngine.LookupTracked` | lib/sync-engine.js:3653-3655 | the tracked row for a path, case-folded where the volume is |
| `Engine.SyncEngine.MaybeSaveConflictCopy` | lib/sync-engine.js:1268-1302 | moves the file aside exactly when its bytes are neither incoming nor known, and a failed move leaves it |
| `Engine.SyncEngine.DownloadFile` | lib/sync-engine.js:2724-2847 | lands file and SYNCED row, or an ERROR status, with its counters and phase |
| `Engine.SyncEngine.ReconcileCaseRename` | lib/sync-engine.js:1403-1475 | moves name and row to the server's casing and downloads unless the bytes match |
| `Engine.SyncEngine.HandleFileAdded` | lib/sync-engine.js:1304-1393 | is `Replica.Add` on folder and table and one bracketed handler on the control state |
| `Engine.SyncEngine.HandleFileReplaced` | lib/sync-engine.js:1477-1548 | is `Replica.Replace`, bracketed |
| `Engine.SyncEngine.HandleFileRemoved` | lib/sync-engine.js:1550-1648 | is `Replica.Delete`, bracketed |
| `Engine.SyncEngine.HandleFileRemovedNoSeq` | lib/sync-engine.js:1849-1866 | is `Replica.DeleteQuietly` |
| `Engine.SyncEngine.TryRelocate` | lib/sync-engine.js:1748-1812 | moves the file, and the row with it exactly when the moved content is the announced one |
| `Engine.SyncEngine.HandleFileRenamed` | lib/sync-engine.js:1682-1844 | is `Replica.Rename` with both names in scope, a delete or an add across the boundary, and only a cursor advance outside it |
| `Engine.SyncEngine.OnServerMessage` | lib/sync-engine.js:1070-1110 | one event start to end is `World.Receive`: the function the run theorems are about |
| `Engine.SyncEngine.SyncListedFile` | lib/sync-engine.js:2403-2454 | is `World.List` |
| `Engine.SyncEngine.RecoverRow` | lib/sync-engine.js:1903-1962 | is `Replica.SweepRow`, and says whether the row landed |
| `Engine.SyncEngine.RecoverRows` | lib/sync-engine.js:1913-1962 | the turns of a sweep over its snapshots, in order, with the count of rows landed |
| `Engine.SyncEngine.RecoverPending` | lib/sync-engine.js:1877-1970 | sweeps every stranded row once, in the table's order, and is `World.Sweep` |
| `Engine.SyncEngine.MaybeRecoverCatchUpWedge` | lib/sync-engine.js:1984-2036 | redials exactly under `Session.Redials`, counting the rows still outstanding |
| `Engine.SyncEngine.ExecuteDeleteLocked` | lib/sync-engine.js:3111-3203 | is `World.ExecuteDelete`, with its three verdicts |
| `Engine.SyncEngine.HandleLocalRename` | lib/sync-engine.js:3206-3299 | is `World.LocalRename`, fallback included |
| `Engine.SyncEngine.HandleLocalModify` | lib/sync-engine.js:2887-3010 | is `World.LocalModify`: own buffered delete cancelled, no-change guard, single-candidate rename, upload |
| `Engine.SyncEngine.FindRenames` | lib/sync-engine.js:2962-2974 | finds exactly the buffered deletes of equal content in the same directory or under the same base name |
| `Engine.SyncEngine.HandleLocalDelete` | lib/sync-engine.js:3030-3075 | is `World.LocalDelete` |
| `Engine.SyncEngine.DeleteTimerFires` | lib/sync-engine.js:3057-3061 | is `World.DeleteFires` |
| `Engine.SyncEngine.UploadAnswered` | lib/sync-engine.js:3313-3531 | is `World.UploadEnds` |
| `Engine.SyncEngine.RescanFile` | lib/sync-engine.js:2288-2318 | is `World.RescanFile` |
| `Engine.SyncEngine.ScanFile` | lib/sync-engine.js:2488-2553 | is `World.ScanFile` |
| `Engine.SyncEngine.RescanMissing` | lib/sync-engine.js:2331-2350 | is `World.RescanMissing` |
| `Engine.SyncEngine.RecoverUpload` | lib/sync-engine.js:2090-2190 | is `World.RecoverUpload` |
| `Engine.SyncEngine.RecoverDelete` | lib/sync-engine.js:2202-2226 | is `World.RecoverDelete` |
| `Engine.SyncEngine.Reset` | lib/sync-engine.js:932-995 | is `World.Resync`, once everything has drained |
| `Rotation.FirstRotationIsCrashSafe` | lib/sync-engine.js:1190-1213 | with no backups at the start, a rotation cut short anywhere, then any number of recoveries cut short, then one that completes, leaves one generation, if and only if the crash did not fall inside the copy of the CA's backup |
| `Rotation.RecoveryAbsorbsCrashes` | lib/sync-engine.js:414-469 | however many recoveries were cut short, even halfway through a copy, the one that completes ends where a single uninterrupted one would have |
| `Rotation.UnstagedTearIsNotAbsorbed` | lib/sync-engine.js:424-447 | without a stage left behind that fails: a half-done restore can look consistent |
| `Rotation.LaterRotationIsCrashSafe` | lib/sync-engine.js:1198-1207 | with backups of an earlier rotation in place, a rotation cut short anywhere, torn copies included, then any number of recoveries cut short, then one that completes, leaves one generation, if and only if the backups as that crash left them are incomplete or of one generation, or the crash came before the first copy or after enough of the new trio |
| `Rotation.CleanCrashesSurvive` | lib/sync-engine.js:1198-1207 | so every crash that tears no copy is survived if and only if the old backups hold no complete foreign trio at any point of the new backup |
| `Rotation.TornCrashesSurvive` | lib/sync-engine.js:1198-1207 | and every crash but the one inside the copy of the CA's backup if and only if there is no CA backup yet; that one never |
| `Rotation.SecondRotationRestores` | lib/sync-engine.js:1198-1213 | what a second rotation restores, crash point by crash point: the older identity, two mixed trios, the current one, the new one |
| `Rotation.BootClearsStage` | lib/sync-engine.js:449-466 | a completed recovery leaves no stage file and keeps the backups |
| `Rotation.StepByStep` | lib/sync-engine.js:1190-1207 | a rotation is nine file operations and a recovery three or six, each the stated one, in that order |
| `Rotation.Volume.HandleCaRotation` | lib/sync-engine.js:1190-1207 | the nine file operations, cut after any number, leave exactly `Rotated` |
| `Rotation.Volume.RecoverMtlsFromBackup` | lib/sync-engine.js:407-469 | recovery, cut after any number of operations, leaves exactly `Recovered` |
| `Updater.RollbackIsWarranted` | lib/updater.js:704-840 | a rollback happens only with a marker for the binary in place, past the window, with no clean stop stamped and the installed digest; it restores the very binary that install moved aside, and clears the way for no second one |
| `Updater.RollsBackExactly` | lib/updater.js:704-840 | a boot puts the backup in place if and only if the marker is for the binary in place, its window is over, no clean stop is stamped, the digest is the installed one or cannot be compared, and the backup can be restored |
| `Updater.BootWorks` | lib/updater.js:704-840 | what a boot does to binary, backup and marker, one operation after the other, for every cut |
| `Updater.BootArmsTimer` | lib/updater.js:728-751 | a boot leaves a process whose probation timer can fire if and only if it completes inside the window of the binary in place |
| `Updater.FiringClears` | lib/updater.js:730-747 | a firing unlinks the backup if the marker is its version's, then deletes the marker |
| `Updater.FiringSettles` | lib/updater.js:728-751 | so over every run after a firing no boot rolls back until another install |
| `Updater.ProbationEndsWell` | lib/updater.js:728-751 | an update that lives through its window is kept, however long it runs and however it ends |
| `Updater.InstallLeaves` | lib/updater.js:448-492 | an install leaves the new binary, the old one as backup and a marker for both |
| `Updater.InstallFails` | lib/updater.js:493-552 | one that does not come about leaves the old binary and no backup; a binary that cannot be started, no marker |
| `Updater.StopStamps` | lib/updater.js:356-372 | a clean stop stamps the marker if and only if it is the running version's |
| `Updater.RollbacksArePaidFor` | lib/updater.js:704-840 | over every run with crashes at any file operation, rollbacks never outnumber installs |
| `Updater.CleanStopSettles` | lib/updater.js:356-372 | after a stamped clean stop no boot downgrades until something else is installed |
| `Updater.StepKeepsBackup` | lib/updater.js:730-768 | a pending marker's version has its backup in place; every step keeps that if and only if it is not cut short between unlinking the backup and deleting the marker, and is not a foreign replacement that happens to be the version a marker without a backup names |
| `Updater.AdoptedMarkerRollsBackTooFar` | lib/updater.js:753-838 | concretely: a binary put in place by hand, of the version a stale marker names, is rolled back to the version before the last |
| `Updater.RunKeepsBackup` | lib/updater.js:448-492 | and so over every run without such a cut or replacement |
| `Updater.MissingBackupIsHarmless` | lib/updater.js:803-838 | after such a cut the binary stays as it is |
| `Updater.OldTimerForgetsNewMarker` | lib/updater.js:730-747 | an install inside the previous one's probation keeps its marker if and only if the old timer stays silent until the process exits |
| `Updater.Daemon.CheckRollback` | lib/updater.js:704-840 | the boot check, cut after any number of file operations, is `Boot` |
| `Updater.Daemon.MarkGracefulShutdown` | lib/updater.js:356-372 | is `CleanStop` |
| `Updater.Daemon.ProbationEnds` | lib/updater.js:730-747 | is `TimerFires` |
| `Updater.Daemon.PerformInstall` | lib/updater.js:448-552 | marker, backup cleared, swap, spawn: is the composition of those steps |
| `PathLock.MutualExclusion` | lib/sync-engine.js:242-264 | in every interleaving two bodies for one path never overlap, a path nobody uses or leaves has no slot, and bodies start in the order of arrival |
| `PathLock.IdentityCheckMatters` | lib/sync-engine.js:259-263 | without the identity check on the way out, two bodies for one path run at once |
| `PathLock.PathLocks.Enter` | lib/sync-engine.js:248-256 | finds or makes the slot's mutex and takes it or queues, keeping the invariant |
| `PathLock.PathLocks.Exit` | lib/sync-engine.js:255-257 | releases to the first waiter, keeping the invariant |
| `PathLock.PathLocks.Tidy` | lib/sync-engine.js:257-263 | drops the slot exactly when its own mutex is idle, keeping the invariant |
| `RenameBuffer.BufferedDeletesAreConserved` | lib/sync-engine.js:2937-2985 | in every run entries and armed timers match one to one, and each buffered delete is waiting or has ended in exactly one way that later steps do not revise; a rename consumed one of equal checksum and size, nearby |
| `RenameBuffer.FromEmpty` | lib/sync-engine.js:3046-3075 | so armed timers and endings together count every delete ever buffered |
| `RenameBuffer.MatchesAreCandidates` | lib/sync-engine.js:2960-2985 | the buffer's matches and `World`'s rename candidates are the same entries |
| `RenameBuffer.AppearAnswer` | lib/sync-engine.js:2937-2985 | a file that appears cancels exactly its own path's delete, and consumes another if and only if that is the only match of a new, non-empty file |
| `RenameBuffer.UnclearedTimerFiresTwice` | lib/sync-engine.js:3046-3066 | why the prior timer is cleared: otherwise one entry is deleted twice |
| `RenameBuffer.Buffered.HandleDelete` | lib/sync-engine.js:3046-3075 | replaces entry and timer together |
| `RenameBuffer.Buffered.CancelRecreated` | lib/sync-engine.js:2937-2942 | a recreate cancels its own path's delete and no other |
| `RenameBuffer.Buffered.TimerFires` | lib/sync-engine.js:3057-3061 | the entry a firing timer removes is its own |
| `RenameBuffer.Buffered.Stop` | lib/sync-engine.js:816-821 | teardown disarms every timer |
| `PathFilter.MatchIsSegmentwise` | lib/path-filter.js:33-95 | for every canonical path the matcher is exactly the segment-by-segment meaning of the pattern's kind, an unsupported one matching nothing that is free of '*' |
| `PathFilter.UnsupportedMatchNothing` | lib/path-filter.js:108-151 | a list of patterns classified unsupported matches no such path, folded or not |
| `PathFilter.UnsupportedIsLiteral` | lib/path-filter.js:33-95 | a pattern classified unsupported matches a path if and only if it is free of the refused characters and is literally the path, its base name, or after a leading '*' the end of its base name |
| `PathFilter.UnsupportedCanMatchStars` | lib/path-filter.js:33-95 | a list of such patterns matches exactly the paths one of them matches literally, all of which contain a '*' |
| `PathFilter.StarredNameMatches` | lib/path-filter.js:48 | and there are such paths: `a*b` matches itself |
| `PathFilter.TrailingStarsAreOptional` | lib/path-filter.js:83-95 | a star-free path-qualified pattern matches exactly what its recursive form does, for every path |
| `PathFilter.SubtreesAreClosed` | lib/path-filter.js:62-95 | recursive-dir and path-qualified patterns that match a directory match everything below it |
| `PathFilter.SplitPrefix` | lib/path-filter.js:70 | the character prefix test is a test on whole segments: no longer-named sibling matches |
| `PathFilter.ShapeKeepsKind` | lib/path-filter.js:159-176 | case folding does not change a pattern's kind |
| `PathFilter.WarnsExactly` | lib/path-filter.js:108-151 | the classifier warns exactly of a pattern that is empty, begins or ends with '/', has a special character, or has a '*' the matcher does not understand where it stands |
| `PathFilter.SyncsExactly` | lib/path-filter.js:153-190 | a path syncs if and only if no ignore pattern matches it and the include list is empty or has one that does |
| `Walk.WalkDir` | lib/sync-engine.js:2560-2589 | the recursive walk lists exactly `Listed`, symlinks and scratch files left out |
| `Walk.ScratchNames` | lib/sync-engine.js:49-55 | the walk leaves out exactly the names that end in `.tmp.` and eight or more hex digits |
| `Walk.ListedIsHeld` | lib/sync-engine.js:2560-2589 | without patterns everything it lists is a file of the tree, by its joined names, and no scratch file |
| `Walk.HeldIsListed` | lib/sync-engine.js:2560-2589 | and it lists every such file |
| `Walk.PruningIsExact` | lib/sync-engine.js:2573-2576 | for any tree and patterns, pruning then filtering equals filtering the whole walk, order included, if and only if no file that syncs lies in an ignored directory |
| `Walk.PrunedWalkIsFilteredWalk` | lib/sync-engine.js:2560-2589 | so the two agree for every tree and include list when the ignore list holds only subtree patterns |
| `Walk.BasenamePatternLosesFiles` | lib/sync-engine.js:2573-2576 | and differ for a basename pattern that names a directory |
| `Walk.DirPrefixIgnores` | lib/watcher.js:167-220 | forwards exactly the subtree patterns, as written and in both Unicode normal forms, within the caps, each form once |
| `Walk.ForwardedIsNoWider` | lib/watcher.js:167-220 | whatever is forwarded prunes nothing the filter would keep, in whatever normal form the volume gives the name |
| `UsesLine.FixRoundTrips` | scripts/check-actions-currency.js:515-561 | re-parsing the rebuilt line gives the same path, the new ref and the new comment, if and only if the path has no '#', no leading blank and no leading quote |
| `UsesLine.FixedPinIsCurrent` | scripts/check-actions-currency.js:441-494 | and the fixed pin has no problem left |
| `UsesLine.OutdatedIsReported` | scripts/check-actions-currency.js:441-494 | every pin that is not up to date is reported, and no other: a reusable workflow on a hash, an unstable tag or another version, behind or ahead told apart; anything else on no hash, another hash, or a comment that does not start with the latest version |
| `UsesLine.FixKeepsDirectives` | scripts/check-actions-currency.js:541-557 | the new comment begins with the tag and says the rest of the old one |
| `UsesLine.UnquotedIsWritable` | scripts/check-actions-currency.js:239-272 | a path read from an unquoted value always meets that condition |
| `UsesLine.QuotedLineReads` | scripts/check-actions-currency.js:239-272 | a quoted value reads as the path before its last '@' and the ref after it, '#' and blanks included |
| `UsesLine.QuotedPathIsLost` | scripts/check-actions-currency.js:515-561 | any path read from a quoted line survives the fix of that line if and only if it meets the condition |
| `UsesLine.HashedPathIsLost` | scripts/check-actions-currency.js:515-561 | concretely: a quoted `o/a@x#b` is fixed to a line that reads back as another action, `o/a` |
| `UsesLine.SemverParse` | scripts/check-actions-currency.js:145-173 | the loop computes `Semver` |
| `UsesLine.SemverNeedsADigit` | scripts/check-actions-currency.js:145-173 | a string reads as a version if and only if it starts with a digit after at most one `v` |
| `UsesLine.StableReads` | scripts/check-actions-currency.js:156-170 | three numbers joined by dots read as those numbers |
| `UsesLine.NumberReads` | scripts/check-actions-currency.js:156-170 | a number is read as the number it writes |
| `UsesLine.IsStableSemverTag` | scripts/check-actions-currency.js:193-205 | the loop computes `Stable` |
| `UsesLine.StableIsDotted` | scripts/check-actions-currency.js:193-205 | a tag is stable if and only if it is three numbers joined by dots with nothing after |
| `UsesLine.LatestOf` | scripts/check-actions-currency.js:335-351 | the release scan returns a stable, published, greatest version, or none exists |
| `UsesLine.ApplyFix` | scripts/check-actions-currency.js:515-568 | every reported line is rebuilt from its old text, every other line is unchanged |
| `Connection.OneConnection` | lib/ws-client.js:210-238 | in every run one client at most carries listeners and it is the current one, a pending timer means no client and that reconnecting is enabled, closing means no timer, otherwise a connection is live or on its way unless reconnecting is disabled, and every delay lies between half its ladder step and the step |
| `Connection.EngineHears` | lib/ws-client.js:417-598 | over every run the engine hears exactly what each event is to tell it, in order: an open or a refusal, each message, each end, each kind of error, each retry; and of a closing wrapper only its client's end |
| `Connection.NothingHeardIsLost` | lib/ws-client.js:467-504 | so over every run as many messages, opens and retries are delivered as happen while the wrapper is not closing |
| `Connection.DialAnswer` | lib/ws-client.js:316-415 | a dial detaches what was before; the new client listens alone, and only a refusal on the spot closes the wrapper |
| `Connection.LadderClimbs` | lib/ws-client.js:652-674 | failing dials climb the delay ladder one step each |
| `Connection.OpenStartsOver` | lib/ws-client.js:417-466 | an open at the floor starts the ladder over, one below it closes the wrapper |
| `Connection.CloseSilences` | lib/ws-client.js:287-314 | nothing is delivered after close until the next connect |
| `Connection.RefusalEndsOnce` | lib/ws-client.js:499-527 | after a permanent refusal only the client's own end is delivered, once |
| `Connection.WsClient.ConnectTo` | lib/ws-client.js:210-238 | is `Connect` |
| `Connection.WsClient.CloseAll` | lib/ws-client.js:287-314 | is `Close` |
| `Connection.WsClient.DialServer` | lib/ws-client.js:316-415 | is `Dial`: a client, a terminal refusal, or a scheduled retry |
| `Connection.WsClient.ScheduleReconnect` | lib/ws-client.js:652-674 | is `Schedule` |
| `Connection.WsClient.ReconnectTimerFires` | lib/ws-client.js:665-671 | is `Fire` |
| `Connection.WsClient.ClientOpened` | lib/ws-client.js:417-466 | is `OnOpen` |
| `Connection.WsClient.ClientClosed` | lib/ws-client.js:499-504 | is `OnClose` |
| `Connection.WsClient.ClientFailed` | lib/ws-client.js:506-598 | is `OnError` |
| `WatcherRecovery.NeverSilentlyDead` | lib/watcher.js:354-477 | at every point of every run the watcher is stopped, live, about to restart, announced degraded, or threw to the caller of start; at most four re-creates happen between resets of the counter |
| `WatcherRecovery.FailuresSettle` | lib/watcher.js:417-441 | failing restarts announce the degraded state exactly when the fourth fails |
| `WatcherRecovery.DeathIsAnswered` | lib/watcher.js:354-441 | a handle that dies is answered with a restart after the delay of the next attempt, or the announcement if none is left |
| `WatcherRecovery.RestartAnswer` | lib/watcher.js:443-477 | a restart that is due makes a new handle, waits for the next attempt, or gives up |
| `WatcherRecovery.LastingRestoresTheBudget` | lib/watcher.js:461-471 | a handle that lasts past its window has the whole budget again: it takes four more failed restarts to be announced degraded, and no fewer |
| `WatcherRecovery.HandlesAreNew` | lib/watcher.js:443-477 | over every run no handle is made twice |
| `WatcherRecovery.PatternsAnswer` | lib/watcher.js:505-574 | new patterns replace a live handle and bring a dead watcher back, with the whole budget; where no handle can be made a restart is due, or the watcher gives up |
| `WatcherRecovery.Watcher.Start` | lib/watcher.js:309-328 | is `Started` |
| `WatcherRecovery.Watcher.OnFatalError` | lib/watcher.js:354-411 | is `Fatal` |
| `WatcherRecovery.Watcher.ScheduleRecovery` | lib/watcher.js:417-441 | is `Scheduled` |
| `WatcherRecovery.Watcher.RecoveryTimerFires` | lib/watcher.js:431-477 | is `TimerFires` |
| `WatcherRecovery.Watcher.BaselineReady` | lib/watcher.js:458-471 | a re-created handle's stability window begins with its baseline, if it is still the current one |
| `WatcherRecovery.Watcher.StableTimerFires` | lib/watcher.js:466-470 | only the handle it was armed for resets the counter |
| `WatcherRecovery.Watcher.Stop` | lib/watcher.js:479-495 | is `Halted` |
| `WatcherRecovery.Watcher.UpdatePatterns` | lib/watcher.js:505-574 | is `Repatterned`: a bounce, or a re-arm with a full budget |
| `UploadGuard.UploadIsFramed` | lib/http-client.js:788-857 | for every sequence of chunks and handlers the body never overruns Content-Length, the request is ended only exactly full (section 8.6 of RFC 9110), and the descriptor is closed at most once |
| `UploadGuard.ExactSourceEnds` | lib/http-client.js:920-940 | a source of exactly the declared size does end the request |
| `UploadGuard.DescriptorIsClosed` | lib/http-client.js:848-935 | and the descriptor is closed, once, if and only if some handler that finishes with it has run |
| `UploadGuard.TrippedStaysOpen` | lib/http-client.js:820-836 | a file that grows trips the guard, which runs none of them: the request stays unended and its descriptor open until a stream or the request fails, it times out or is answered |
| `UploadGuard.RequestIsTornDown` | lib/http-client.js:905-935 | the request is destroyed if and only if a stream failed, it timed out or the file came up short |
| `UploadGuard.Upload.Transform` | lib/http-client.js:820-836 | is `Chunk` |
| `UploadGuard.Upload.OnEnd` | lib/http-client.js:920-939 | is `SourceEnds` |
| `UploadGuard.Upload.CleanupSrc` | lib/http-client.js:848-857 | closes the descriptor the first time only |
| `UploadGuard.Upload.OnFailure` | lib/http-client.js:905-919 | any failing handler: the descriptor closed the first time, the request destroyed if that handler destroys it |

## Left out

- Awaits inside a handler other than its download: from the hash that decides a conflict to the
  rename and the row's update, inside a local change, and inside an upload, is one step. So is a
  second upload of a file that is already being sent, which the model does not start.
- A database call that throws inside a handler, outside the transactions of `Engine.StateDb`.
- Deletes that are buffered while the server call of a local rename is in flight.
- Permanent-failure marks, size caps and disk-space pauses: folded into a sweep turn that passes,
  or a download that fails. A download whose file is in place but whose row update throws, leaving
  an ERROR row; one that ends so because the engine is stopping is a restart here.
- Ledger.NoLostEvent: an owed row that a local change, delete, upload or detected rename of that very
  file takes over counts as displaced, because the code lets the local change win; a session opens
  only once the download of an earlier session's event has ended (`Ledger.StaleQueuePassesGap` says
  what happens otherwise).
- Runs.NoUserBytesDestroyed: assumes each step foreseen, because one that is not does destroy bytes
  or will (`Runs.ForesightIsNeeded`).
- RunConvergence.ConvergesToLog: assumes that renames follow through (the exact condition of
  `Convergence.ApplyTracks`), because one that does not breaks it; names the volume tells apart.
- Replays.ReplayIsHarmless: every hash, download and unlink of the replay works.
- Updater.RollbackIsWarranted: something else may replace the binary only while the daemon is down.
- Walk.ForwardedIsNoWider: what Unicode normalization is. Its forms are parameters, of which only
  their agreement with each other and with the matcher is used.
- What the runtime makes of a stream error nobody listens to.
- WatcherRecovery.NeverSilentlyDead: the handle's own contract, that a dead one says so.
- `conflictPath` is taken to give a fresh name, and a conflict copy to stay where it was put.
- Events without a checksum or file id; the server is taken to send both, and to answer an upload
  with the checksum of what it received.
- mtime, size and needsBytes columns; an empty row path, which the database refuses.
- Unicode normalization elsewhere: names and patterns are in composed form. Case folding is ASCII,
  for the table's lookup and for the volume.
- A resync racing suspended handlers: only the reset after everything has drained is modelled.
- Deadlock freedom of the rename fallback, which takes the old name's lock under the new one's.
- Mutexes, the binary swap, watcher handles, socket clients, timers and atomic writes behave as
  their libraries say: first come first served, all or nothing, no event after the last.
- The Windows rollback, which renames twice where the other platforms write once; an old process
  still running beside its successor.
- Rotations that meet a missing live file, a failed unlink, a planted link or automatic renewal;
  validation and the capability probe before a rotation.
- Non-ASCII blanks in `trim`; registry and API queries of the pin script; its hold and skip lists.
- TLS, certificate pinning, key storage, redaction, diagnostics, configuration, command line,
  metrics, logging, throttling rates and jitter sources.
