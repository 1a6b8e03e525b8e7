# Cavalry sync and checkpoints: a verified model

Cavalry keeps a personal-finance workbook on a Mac, shares it with the owner's other devices
through iCloud, and lets an assistant change it under reversible checkpoints. This project models
the parts of that system whose correctness depends on many steps fitting together, and proves what
those parts promise. Run `dafny verify dfyconfig.toml` to check it.

## The modules

| module | what it models |
|---|---|
| `Options` | the shared option type and map lookup |
| `CloudRecord` | the iCloud store seen from one record: what each request and sync-engine event does to its cached copy, queued upload, queued delete, latched conflict and queued notice |
| `CloudStore` | the store itself, a class over per-record maps; each handler equals its `CloudRecord` function and leaves every other record alone |
| `CloudProtocol` | any number of devices and a server that checks change tags; messages may be lost, delayed, reordered and repeated |
| `CloudBoundaries` | where the guarantees of `CloudProtocol` stop, exactly, with a continuation and a run for each exception |
| `StateFile` | the store's crash-safe commit: two manifests, payload files, and a crash after any primitive |
| `WorkbookMerge` | the three-way merge of workbook snapshots with local preference |
| `Reconciler` | download, merge, guarded upload and one retry, with other parties acting at every wait |
| `AutoSync` | the automatic-sync scheduler |
| `SyncStep` | the checks before an automatic upload, the revision it names, and the anchor written after it |
| `SyncState` | the stored sync anchor: writer, lenient reader, strict parser, and the storage around them |
| `DurableStore` | the write-behind store of anchors |
| `SaveScheduler` | the local save scheduler |
| `WorkbookBook` | workbook entities as lists and as identity-keyed maps |
| `ActionExecutor` | checkpointed actions: validation, the recorded change, and the write |
| `ActionMeaning` | what applied actions mean: which entity, which fields, which accounts |
| `Rollback` | conflict preview and undo, and when undo inverts execution |
| `Checkpoints` | calls, rollbacks, idempotency records and double entry over whole runs |
| `WorkbookStore` | the workbook object that the executor and the rollback change in place |
| `HostFrames` | the stream decoder between shell and host process |
| `MoneyText` | the money field's sanitizer, formatter and caret |

Objects that the program updates in place are classes whose methods are proved equal to functions
of their state; the theorems are about those functions and so hold of the objects. Timers, promises
and calls in flight are explicit state, and theorems quantify over every order of events.

## What came out

Things a reader of the code might not expect, each proved.

- A save that slips into the wait of `recoverRemote` (CavalryCloudKitStore.swift:1862-1882) can
  overwrite a server version this device never saw. From any state, a recovery of the current
  version is harmless exactly when it meets no upload queued against another revision
  (`CloudBoundaries.RecoveryIsFaithfulIff`, `CloudBoundaries.RecoveryRaceLosesAnUpdate`).
- An accepted upload replaces the content its chain of saves began at, with two exceptions
  (`CloudProtocol.ReplacesWhatItSawUnless`). Two saves stacked on a workbook that was never synced
  are queued against the device's own revision 1, which another device's revision 1 satisfies
  (`CloudBoundaries.StackedFirstSavesAdoptAForeignRevision`). And a record removed and created anew
  can reach the same revision with other content, which a fetch does not notice
  (`CloudBoundaries.RecreationAdoptsAForeignRevision`).
- An upload can leave the queue without a trace: a delete and a new save made before the first save
  is acknowledged leave a queued upload of the same revision, which that late acknowledgement
  removes (`CloudBoundaries.LateAcknowledgementDropsASave`). No other step drops an upload for other
  content without a latch, a rejection, a delete or an account reset
  (`CloudRecord.DroppedUploadIsCachedUnless`).
- The undo runs in the order of execution, so each entity ends as its last change found it. A plan
  that changes one entity twice is therefore undone only if that is where it began
  (`Rollback.ForcedRollbackInvertsIff`), even when the safe rollback sees no conflict
  (`Rollback.RepeatedEditIsNotUndone`); the reverse order would always do
  (`Rollback.ReverseUndoInvertsExecution`).
- Straight after a plan over distinct entities, a safe rollback refuses its checkpoint exactly when
  an applied change archived a budget
  (packages/action-review/src/domain/checkpoints/conflicts.js:22-30 takes the missing entity for a
  conflict) or restored a transaction that still had its archive time
  (`Checkpoints.DistinctCallIsUndone`, `Rollback.ArchivedBudgetIsRefused`). The same `Object.assign` leaves the archive time on every
  restored transaction (`ActionMeaning.ArchiveThenRestore`).
- Changing a transaction's amount does not touch its posting lines, so they stop matching it
  (`Rollback.EditKeepsMatchIff`); they stay balanced (`Checkpoints.RunKeepsBalance`).
- A checkpoint that the store rejects is rejected after the plan was applied and before its
  idempotency record is written, so the same call runs again
  (`Checkpoints.ExecutionIsRememberedIff`, `Checkpoints.RejectedCheckpointRunsTwice`).
- A clean entry of the durable store that is reloaded while one of its saves is queued or running
  can end ready and clean with content the host never saw (`DurableStore.ReloadIsSafeIff`), and can
  drop a write made while ready (`DurableStore.ReloadUnderSaveCanDropAWrite`).
- A write of the sync anchor whose storage call throws over an older value is not read back; the
  older value is (`SyncState.StaleReadAfterFailedWrite`).
- The strict parser refuses an anchor the writer produced exactly when its base is past a known
  revision (`SyncState.WriterAndParsersAgree`). A first upload that is only queued can produce such
  an anchor from a storable one that has a base and no revision
  (`SyncStep.FirstAttemptStaysStorableIff`, `SyncStep.UnnumberedBaseIsLost`), which a conflict over
  a removed workbook leaves (`SyncStep.ConflictLeavesUnnumberedBase`).
- After a failed last save, `flush` of the durable store keeps answering with that failure even if a
  recovery saved everything (`DurableStore.RecoveredEntryDoesNotFlush`), until a later queued save is
  acknowledged (`DurableStore.FlushAnswersAgainIff`).

## Model

| member | source | states |
|---|---|---|
| `CloudProtocol.NoLostUpdate` | apps/desktop/src-tauri/src/cloudkit/CavalryCloudKitStore.swift:650-702 | In every run of any number of devices whose recoveries meet no upload queued against another revision, each accepted workbook upload replaced exactly the revision it was queued against, or an absent record, and strictly raised it; an accepted notice-only upload left revision and payload alone. |
| `CloudProtocol.ReplacesWhatItSawUnless` | apps/desktop/src-tauri/src/cloudkit/CavalryCloudKitStore.swift:1286-1371 | In those runs an accepted workbook upload replaced the very content its chain of saves began at, with exactly two exceptions: the chain began at no cached version, or the record was removed between that version and the one replaced. |
| `CloudProtocol.RevisionFixesContent` | apps/desktop/src-tauri/src/cloudkit/CavalryCloudKitStore.swift:1286-1371 | In those runs revisions never fall between deletions of the record, and a revision number names one payload, whoever wrote it. |
| `CloudProtocol.CachesAreVersions` | apps/desktop/src-tauri/src/cloudkit/CavalryCloudKitStore.swift:1798-1860 | In every run, whatever its recoveries meet, what a device has cached is a version the server accepted, under the change tag it is cached with. |
| `CloudProtocol.NextKeepsInv` | apps/desktop/src-tauri/src/cloudkit/CavalryCloudKitStore.swift:1115-1269 | Every local event, send, acceptance and removal keeps the joint invariant of devices, messages in flight, history and log. |
| `CloudProtocol.RunKeepsInv` | apps/desktop/src-tauri/src/cloudkit/CavalryCloudKitStore.swift:1115-1269 | The joint invariant holds over every run. |
| `CloudProtocol.AcceptanceIsFaithful` | apps/desktop/src-tauri/src/cloudkit/CavalryCloudKitStore.swift:1286-1371 | The tag check alone makes one accepted upload faithful to what it was queued against. |
| `CloudProtocol.ExpectedIsFixedByTheFirstSave` | apps/desktop/src-tauri/src/cloudkit/CavalryCloudKitStore.swift:687-702 | The revision an upload is queued against is the cached one of its first save, and later saves and retries keep it. |
| `CloudBoundaries.RecoveryIsFaithfulIff` | apps/desktop/src-tauri/src/cloudkit/CavalryCloudKitStore.swift:1862-1882 | From any state the protocol can be in: once a device has recovered the current version, every upload accepted in every further run, whose own later recoveries meet no upload queued against another revision, is faithful exactly when this recovery met none. |
| `CloudBoundaries.UnsafeRecoveryLosesAnUpdate` | apps/desktop/src-tauri/src/cloudkit/CavalryCloudKitStore.swift:1862-1882 | The failing half: from every such state the queued upload can be sent under the recovered tag and replaces a version it was not queued against. |
| `CloudBoundaries.RecoveryRaceLosesAnUpdate` | apps/desktop/src-tauri/src/cloudkit/CavalryCloudKitStore.swift:1862-1882 | For all payloads: a run from the start in which a save slips into a recovery reaches such a state. |
| `CloudBoundaries.MatchingUploadReplacesCurrent` | apps/desktop/src-tauri/src/cloudkit/CavalryCloudKitStore.swift:1460-1471 | From any state the protocol can be in: an upload queued against the revision the server holds can be fetched over, sent and accepted, and then it replaced what its chain saw exactly when that chain began at a cached version with the same content, as it does within one epoch. |
| `CloudBoundaries.UnseenContentIsReplaced` | apps/desktop/src-tauri/src/cloudkit/CavalryCloudKitStore.swift:1460-1471 | Both exceptions are real: without a base, or over other content than the base holds, some run replaces content the device never saw. |
| `CloudBoundaries.StackedFirstSavesAdoptAForeignRevision` | apps/desktop/src-tauri/src/cloudkit/CavalryCloudKitStore.swift:690-702 | For all payloads: a run from the start with two stacked first saves reaches the exception without a base, and a continuation replaces another device's first revision. |
| `CloudBoundaries.RecreationAdoptsAForeignRevision` | apps/desktop/src-tauri/src/cloudkit/CavalryCloudKitStore.swift:1460-1471 | For all payloads: a run from the start in which the record is removed and created anew under a queued save reaches the other exception, and a continuation replaces the new content unless it is the old one. |
| `CloudBoundaries.LateAcknowledgementDropsASave` | apps/desktop/src-tauri/src/cloudkit/CavalryCloudKitStore.swift:1490-1518 | For all payloads: after a guarded run from the start that saves, deletes and saves anew, the acknowledgement of the first save removes the queued second one and caches the first content, with nothing latched or rejected. |
| `CloudRecord.StepKeepsCoherent` | apps/desktop/src-tauri/src/cloudkit/CavalryCloudKitStore.swift:626-707 | Every request and event keeps the invariant (an upload is never queued beside a latch, a delete or a rejection; it was queued against the cached revision; its revision exceeds the one it names), exactly when a recovered copy meets no upload queued against another revision. |
| `CloudRecord.RunKeepsCoherent` | apps/desktop/src-tauri/src/cloudkit/CavalryCloudKitStore.swift:1432-1556 | The invariant holds over every run of one record whose recoveries meet that guard. |
| `CloudRecord.RunKeepsTidy` | apps/desktop/src-tauri/src/cloudkit/CavalryCloudKitStore.swift:1432-1556 | Over every run, recoveries unguarded: a queued upload stands beside no latch, queued delete or recorded rejection, and retry counts stay within one. |
| `CloudRecord.NoSilentLoss` | apps/desktop/src-tauri/src/cloudkit/CavalryCloudKitStore.swift:1035-1036 | In any cell whatever, a queued upload that a step removes is accounted for: the cached copy has its revision, a conflict is latched, its rejection is recorded, or the step was a delete, a delete acknowledgement or an account reset. |
| `CloudRecord.NoSilentLossOverRuns` | apps/desktop/src-tauri/src/cloudkit/CavalryCloudKitStore.swift:1035-1036 | The same at every step of every run, and the latch or rejection is then one this very step left. |
| `CloudRecord.DroppedUploadIsCachedUnless` | apps/desktop/src-tauri/src/cloudkit/CavalryCloudKitStore.swift:1490-1518 | A queued upload that a step removes without a latch, rejection, delete or account reset is cached under its revision, and with its content exactly unless an acknowledgement brought other content of that revision. |
| `CloudRecord.FetchAccountsForUpload` | apps/desktop/src-tauri/src/cloudkit/CavalryCloudKitStore.swift:1432-1471 | In any cell, a fetched record leaves the queued upload as it is, or leaves its revision cached, or latches a conflict. |
| `CloudRecord.OnlyASaveReplacesAnUpload` | apps/desktop/src-tauri/src/cloudkit/CavalryCloudKitStore.swift:650-702 | In any cell, a queued payload is replaced only by a later save that names it, one revision up. |
| `CloudRecord.LatchHolds` | apps/desktop/src-tauri/src/cloudkit/CavalryCloudKitStore.swift:2017-2039 | A step releases a latched record exactly when it is a reviewed keep-local save past the quota and revision checks, a clear or readable download of a cached record, a delete or its acknowledgement, the loss of the zone, or an account change; only the reviewed save brings a payload back. |
| `CloudRecord.LatchHoldsOverRuns` | apps/desktop/src-tauri/src/cloudkit/CavalryCloudKitStore.swift:663-684 | Over every run, recoveries included, a latched record stays latched and empty until such a step. |
| `CloudRecord.RefusalUsesARetry` | apps/desktop/src-tauri/src/cloudkit/CavalryCloudKitStore.swift:1574-1637 | Each refused change tag strictly lowers the retries left, and the record is queued again exactly when something is left to send. |
| `CloudRecord.StackedSaveKeepsRetries` | apps/desktop/src-tauri/src/cloudkit/CavalryCloudKitStore.swift:696-702 | A stacked save inherits the retry count and the revision the chain was queued against. |
| `CloudRecord.RefusalsTerminate` | apps/desktop/src-tauri/src/cloudkit/CavalryCloudKitStore.swift:1574-1637 | As many refusals in a row as there are retries left leave nothing queued, whatever the server sends back. |
| `CloudRecord.StoredSaveIsSent` | apps/desktop/src-tauri/src/cloudkit/CavalryCloudKitStore.swift:626-781 | A stored save is queued and goes out as given, one revision above the one it named, under the cached change tag. |
| `CloudRecord.NoticeIsSent` | apps/desktop/src-tauri/src/cloudkit/CavalryCloudKitStore.swift:783-893 | A notice update is queued and goes out over the workbook the record carries. |
| `CloudRecord.AcceptedRecordSettles` | apps/desktop/src-tauri/src/cloudkit/CavalryCloudKitStore.swift:1490-1518 | The server's copy of what was sent, acknowledged or fetched, becomes the cached copy and leaves nothing queued and nothing latched. |
| `CloudRecord.DeleteSettles` | apps/desktop/src-tauri/src/cloudkit/CavalryCloudKitStore.swift:1534-1556 | A delete is queued, sends no workbook, and its acknowledgement leaves nothing of the record. |
| `CloudStore.Store.SaveWorkbook` | apps/desktop/src-tauri/src/cloudkit/CavalryCloudKitStore.swift:626-781 | The in-place save does to its record what the record model says, and nothing to any other. |
| `CloudStore.Store.UpdateConflictNotice` | apps/desktop/src-tauri/src/cloudkit/CavalryCloudKitStore.swift:783-893 | The in-place notice update, with its frame. |
| `CloudStore.Store.DeleteWorkbook` | apps/desktop/src-tauri/src/cloudkit/CavalryCloudKitStore.swift:1025-1113 | The in-place delete, with its frame. |
| `CloudStore.Store.DownloadWorkbook` | apps/desktop/src-tauri/src/cloudkit/CavalryCloudKitStore.swift:895-958 | The in-place download: a queued upload is read back, else the cached copy, releasing the latch. |
| `CloudStore.Store.ApplyFetchedRecord` | apps/desktop/src-tauri/src/cloudkit/CavalryCloudKitStore.swift:1432-1471 | The in-place handling of a fetched record, with its frame. |
| `CloudStore.Store.ApplyFetchedDeletion` | apps/desktop/src-tauri/src/cloudkit/CavalryCloudKitStore.swift:1473-1488 | The in-place handling of a fetched deletion, with its frame. |
| `CloudStore.Store.ApplySavedRecord` | apps/desktop/src-tauri/src/cloudkit/CavalryCloudKitStore.swift:1490-1518 | The in-place handling of an acknowledged save, with its frame. |
| `CloudStore.Store.ApplySavedDeletion` | apps/desktop/src-tauri/src/cloudkit/CavalryCloudKitStore.swift:1534-1556 | The in-place handling of an acknowledged delete, with its frame. |
| `CloudStore.Store.HandleServerRecordChanged` | apps/desktop/src-tauri/src/cloudkit/CavalryCloudKitStore.swift:1574-1637 | The in-place retry of a refused upload or notice, with its frame. |
| `CloudStore.Store.HandleFailedSave` | apps/desktop/src-tauri/src/cloudkit/CavalryCloudKitStore.swift:1558-1751 | The in-place handling of every save failure, with its frame. |
| `CloudStore.Store.HandleFailedDelete` | apps/desktop/src-tauri/src/cloudkit/CavalryCloudKitStore.swift:1753-1796 | The in-place handling of every delete failure, with its frame. |
| `CloudStore.Store.LatchConflict` | apps/desktop/src-tauri/src/cloudkit/CavalryCloudKitStore.swift:2017-2039 | The in-place latch: the upload is dropped and a queued notice stays queued. |
| `CloudStore.Store.ResetForAccountChange` | apps/desktop/src-tauri/src/cloudkit/CavalryCloudKitStore.swift:2049-2073 | An account change resets every record, keeping only work queued before the first sign-in. |
| `CloudStore.Store.RecordToSave` | apps/desktop/src-tauri/src/cloudkit/CavalryCloudKitStore.swift:1286-1371 | The record handed to the engine, and the queue entry it may drop. |
| `CloudStore.Store.Handle` | apps/desktop/src-tauri/src/cloudkit/CavalryCloudKitStore.swift:1115-1269 | Any request or event, store-wide or of one record, keeps the invariant of every record. |
| `StateFile.CrashSafety` | apps/desktop/src-tauri/src/cloudkit/CavalryCloudKitStore.swift:2299-2327 | Over every sequence of edits, faulty commits and restarts, a crash after any single write or delete of any operation leaves every payload file named by either manifest in place and loads the state before that operation or the one it commits; a readable library stays readable. |
| `StateFile.StepIsSafe` | apps/desktop/src-tauri/src/cloudkit/CavalryCloudKitStore.swift:2212-2231 | Every disk inside one operation loads the state before it or the one it commits, and the invariant holds after it. |
| `StateFile.StepLoads` | apps/desktop/src-tauri/src/cloudkit/CavalryCloudKitStore.swift:2299-2327 | Between operations the disk loads the old or the committed state; a commit without write faults loads exactly what was committed. |
| `StateFile.CommitDeletesRetiredFiles` | apps/desktop/src-tauri/src/cloudkit/CavalryCloudKitStore.swift:2200-2231 | A commit deletes a retired file, or keeps it one commit longer exactly because the last manifest names it. |
| `StateFile.ManifestWritesAreSafe` | apps/desktop/src-tauri/src/cloudkit/CavalryCloudKitStore.swift:2299-2327 | The two manifest writes, under any fault, leave intact disks that load the old or the new state. |
| `StateFile.DeletesAreSafe` | apps/desktop/src-tauri/src/cloudkit/CavalryCloudKitStore.swift:2299-2327 | Deleting files that neither manifest names, in any order and with any failures, changes nothing that loads. |
| `StateFile.Store.constructor` | apps/desktop/src-tauri/src/cloudkit/CavalryCloudKitStore.swift:259-290 | Start-up loads the state file, else the previous one, and commits the version migration. |
| `StateFile.Store.WriteState` | apps/desktop/src-tauri/src/cloudkit/CavalryCloudKitStore.swift:2299-2327 | The two writes, with the trace of disks they pass through. |
| `StateFile.Store.DeleteRetired` | apps/desktop/src-tauri/src/cloudkit/CavalryCloudKitStore.swift:2299-2327 | The delete loop, with its trace, and the files it forgets. |
| `StateFile.Store.Commit` | apps/desktop/src-tauri/src/cloudkit/CavalryCloudKitStore.swift:2212-2231 | The whole commit equals the step of the disk model and passes through its trace. |
| `WorkbookMerge.MergeSettlesEveryPath` | packages/finance-core/src/application/workbook/workbook-sync-merge-service.js:580-634 | Read along any path that runs through objects on all three sides, the merge takes the side that changed, keeps agreement, and gives a collision to the local side. |
| `WorkbookMerge.SecondMergeKeepsOneSidedEdits` | apps/desktop/src/renderer/app/cloud-workbook-branch-reconciler.js:204-330 | Merging again over the earlier download: an edit only this device made survives both merges, and what it left alone ends as the server last had it. |
| `WorkbookMerge.UnionLosesNothing` | packages/finance-core/src/application/workbook/workbook-sync-merge-service.js:700-752 | Without a base the union drops no value present on one side, and takes the local one where two indivisible values differ. |
| `WorkbookMerge.MergeKeepsIdentity` | packages/finance-core/src/application/workbook/workbook-sync-merge-service.js:788-823 | A merge of two snapshots of one workbook is a snapshot of that workbook. |
| `Reconciler.Device.Reconcile` | apps/desktop/src/renderer/app/cloud-workbook-branch-reconciler.js:179-364 | Over any interference: at most two attempts; each merges its base and branch with a version really committed, the second from the first's download and merge; every accepted upload replaced the version it merged; a settled success leaves local copy, stored base and server content at the recorded revision equal, a pending one keeps the downloaded base; a failure leaves the anchor, but for a latch. Where the two copies can be merged, an undisturbed first attempt succeeds, and so does an undisturbed second one after a first in which nothing failed and only other devices acted. |
| `Reconciler.Device.Try` | apps/desktop/src/renderer/app/cloud-workbook-branch-reconciler.js:204-353 | One attempt, with the same guarantees. |
| `Reconciler.Device.FetchAndMerge` | apps/desktop/src/renderer/app/cloud-workbook-branch-reconciler.js:212-282 | The download and merge: usable only while the open workbook is still the expected one. |
| `Reconciler.Device.SaveMerged` | apps/desktop/src/renderer/app/cloud-workbook-branch-reconciler.js:289-297 | The merge reaches the open workbook only when it differs from the local branch; the user's later edits are not overwritten. |
| `Reconciler.Device.UploadMerged` | apps/desktop/src/renderer/app/cloud-workbook-branch-reconciler.js:316-330 | The guarded upload: accepted exactly when the server still holds the merged version. |
| `Reconciler.Device.Publish` | apps/desktop/src/renderer/app/cloud-workbook-branch-reconciler.js:299-353 | Upload when needed, and the anchor written after it. |
| `Reconciler.Offered` | apps/desktop/src/renderer/app/cloud-workbook-branch-reconciler.js:316-320 | The compare-and-swap server keeps revisions naming contents and every accepted upload a merge of what it replaced. |
| `Reconciler.AcceptedUploadSettles` | apps/desktop/src/renderer/app/cloud-workbook-branch-reconciler.js:248-253 | Along any aligned path, what an accepted upload put on the server is settled between its base, its branch and the version it replaced. |
| `AutoSync.RetriesKeepBase` | apps/desktop/src/renderer/app/cloud-workbook-auto-sync.js:12-21 | Across retryable failures for one target, however many newer workbooks are enqueued, every entry handed to the sync keeps the revision the first attempt fixed. |
| `AutoSync.StepKeepsLive` | apps/desktop/src/renderer/app/cloud-workbook-auto-sync.js:74-149 | A waiting entry always has an armed timer or a sync in flight, and a timer always has something to start. |
| `AutoSync.RunKeepsLive` | apps/desktop/src/renderer/app/cloud-workbook-auto-sync.js:74-149 | The same over every run. |
| `AutoSync.SingleFlight` | apps/desktop/src/renderer/app/cloud-workbook-auto-sync.js:91-125 | Over every run, syncs started minus syncs finished is what is in flight, never more than one. |
| `AutoSync.PendingIsNext` | apps/desktop/src/renderer/app/cloud-workbook-auto-sync.js:111-135 | Whatever the running sync's result, the waiting workbook is the next one handed over. |
| `AutoSync.OtherResultsDropBase` | apps/desktop/src/renderer/app/cloud-workbook-auto-sync.js:111-125 | A result that is not retried carries no base over. |
| `AutoSync.Scheduler.EnqueueEntry` | apps/desktop/src/renderer/app/cloud-workbook-auto-sync.js:127-135 | The in-place enqueue. |
| `AutoSync.Scheduler.SyncEnded` | apps/desktop/src/renderer/app/cloud-workbook-auto-sync.js:106-124 | The in-place end of a sync. |
| `AutoSync.Scheduler.TimerFired` | apps/desktop/src/renderer/app/cloud-workbook-auto-sync.js:74-97 | The in-place timer, ignoring stale ones. |
| `AutoSync.Scheduler.FixExpectedRevision` | apps/desktop/src/renderer/app/use-cloud-workbook-automatic-sync.js:90-92 | The sync step fixes the revision on its entry once. |
| `SyncStep.UploadsIff` | apps/desktop/src/renderer/app/use-cloud-workbook-automatic-sync.js:32-88 | An upload goes out exactly when nothing blocks it and the anchor agrees with the listing, or neither knows a workbook. |
| `SyncStep.UploadNamesListedVersion` | apps/desktop/src/renderer/app/use-cloud-workbook-automatic-sync.js:90-96 | A first attempt names the listed version or absence; a retry names what the first attempt did. |
| `SyncStep.AnchorIsWritten` | apps/desktop/src/renderer/app/use-cloud-workbook-automatic-sync.js:128-137 | After an upload the anchor has the new revision, no conflict, and the uploaded workbook as base unless the upload is only queued. |
| `SyncStep.AnchorIsStorableIff` | apps/desktop/src/renderer/app/use-cloud-workbook-automatic-sync.js:128-137 | The strict parser accepts the new anchor exactly when the upload is settled or its revision is not below the base kept. |
| `SyncStep.FirstAttemptStaysStorableIff` | apps/desktop/src/renderer/app/use-cloud-workbook-automatic-sync.js:90-137 | A first attempt over a storable anchor, whose upload raised the revision it replaced, leaves a storable one exactly when the upload is settled, or the anchor had no base or also had a revision, or the new revision is not below that base. |
| `SyncStep.UnnumberedBaseIsLost` | apps/desktop/src/renderer/app/use-cloud-workbook-automatic-sync.js:90-137 | Every anchor with a base above 1 and no revision is storable, lets a first upload out, and is unstorable once that upload is queued as revision 1. |
| `SyncStep.ConflictLeavesUnnumberedBase` | apps/desktop/src/renderer/app/use-cloud-workbook-operations.js:525-590 | Where such an anchor comes from: a conflict over a workbook gone from the server drops any anchor's revision and keeps its base, which is storable; the queued upload that settles the conflict leaves a storable anchor exactly when there was no base or its revision is not below it. |
| `SyncStep.Attempt.Perform` | apps/desktop/src/renderer/app/use-cloud-workbook-automatic-sync.js:30-151 | The step in place: refusals change nothing, the base is fixed once, and the anchor moves only after a usable reply. |
| `SyncState.WriterAndParsersAgree` | apps/desktop/src/renderer/app/cloud-workbook-sync-state.js:246-302 | For whatever was stored and whatever options are given, the lenient reader reads back what the writer returned, and the strict parser agrees with both exactly when the base is not past a known revision. |
| `SyncState.SerializedReadsBack` | apps/desktop/src/renderer/app/cloud-workbook-sync-state.js:48-67 | A well-formed state serialised and read is itself. |
| `SyncState.ParserRefinesReaderIff` | apps/desktop/src/renderer/app/cloud-workbook-sync-state.js:126-178 | What the strict parser accepts, the lenient reader reads the same way exactly when its version is the plain number 1. |
| `SyncState.WriterKeepsWhatIsNotGiven` | apps/desktop/src/renderer/app/cloud-workbook-sync-state.js:246-282 | The base and the deletion mark carry over unless given, a notice only while the conflict does. |
| `SyncState.KeptBaseIsRefusedIff` | apps/desktop/src/renderer/app/cloud-workbook-sync-state.js:246-282 | A write that keeps the base is refused by the strict parser exactly when it names a revision below that base. |
| `SyncState.AnchorStorage.Write` | apps/desktop/src/renderer/app/cloud-workbook-sync-state.js:226-302 | The write in place; what is read back afterwards is the state written, except over an older readable value whose storage call threw, where it is that value. |
| `SyncState.StaleReadAfterFailedWrite` | apps/desktop/src/renderer/app/cloud-workbook-sync-state.js:226-244 | For every older anchor and every write: a failed write over it reads back the older one. |
| `DurableStore.FlushedWriteReachedHost` | apps/desktop/src/renderer/app/durable-cloud-workbook-sync-storage.js:362-373 | A write made while ready, after any events: if a later flush answers ok, some acknowledged save carried a snapshot taken at that write or after it. |
| `DurableStore.FlushedWriteIsCarried` | apps/desktop/src/renderer/app/durable-cloud-workbook-sync-storage.js:362-373 | In runs that never reload a clean entry under a save, that acknowledged save carried exactly what the write with its number put into memory. |
| `DurableStore.ReloadUnderSaveCanDropAWrite` | apps/desktop/src/renderer/app/durable-cloud-workbook-sync-storage.js:252-285 | Without that condition a reload can drop a write made while ready, and a flush still answers ok. |
| `DurableStore.FailureOutlivesRecovery` | apps/desktop/src/renderer/app/durable-cloud-workbook-sync-storage.js:362-373 | After a failed last save with none queued, a flush does not answer ok until something is written while the entry is ready. |
| `DurableStore.FlushAnswersAgainIff` | apps/desktop/src/renderer/app/durable-cloud-workbook-sync-storage.js:362-373 | After a failed last save a flush answers ok again exactly when no save is left queued or running, the entry is ready, and the last queued save to end was acknowledged. |
| `DurableStore.AcknowledgedWriteEndsTheFailure` | apps/desktop/src/renderer/app/durable-cloud-workbook-sync-storage.js:362-373 | One write made while ready, whose save is acknowledged, is enough. |
| `DurableStore.RecoveredEntryDoesNotFlush` | apps/desktop/src/renderer/app/durable-cloud-workbook-sync-storage.js:259-264 | An entry is reachable that a recovery left ready and clean, with everything acknowledged, and that does not flush. |
| `DurableStore.ReadyAndCleanIsHeld` | apps/desktop/src/renderer/app/durable-cloud-workbook-sync-storage.js:164-188 | While clean entries are reloaded only with no save queued or running, ready and clean means the host loaded or acknowledged exactly what memory holds. |
| `DurableStore.ReadyAndCleanFromStart` | apps/desktop/src/renderer/app/durable-cloud-workbook-sync-storage.js:81-373 | The same for every such run of a new entry. |
| `DurableStore.ReloadIsSafeIff` | apps/desktop/src/renderer/app/durable-cloud-workbook-sync-storage.js:252-330 | From any settled entry about to reload, every continuation keeps that promise exactly when no save is queued or running. |
| `DurableStore.CleanEntryCanHaveSaveQueued` | apps/desktop/src/renderer/app/durable-cloud-workbook-sync-storage.js:190-196 | Such an entry with a save still queued is reachable. |
| `DurableStore.StoredEntry.SetValues` | apps/desktop/src/renderer/app/durable-cloud-workbook-sync-storage.js:204-225 | The in-place write and the save it queues. |
| `DurableStore.StoredEntry.FinishSave` | apps/desktop/src/renderer/app/durable-cloud-workbook-sync-storage.js:164-188 | The in-place end of a queued save. |
| `DurableStore.StoredEntry.BeginHydrate` | apps/desktop/src/renderer/app/durable-cloud-workbook-sync-storage.js:252-267 | The in-place start of a hydration: recover a dirty entry, else load. |
| `DurableStore.StoredEntry.FinishLoad` | apps/desktop/src/renderer/app/durable-cloud-workbook-sync-storage.js:268-330 | The in-place handling of every load reply. |
| `SaveScheduler.StepKeepsInv` | apps/desktop/src/renderer/app/workbook-save-scheduler.js:23-111 | One save at a time; a ready entry waits only for the running save and an unready one only for its timer; every request is in exactly one entry, in order; an entry holds its newest workbook and latest custom operation. |
| `SaveScheduler.RunKeepsInv` | apps/desktop/src/renderer/app/workbook-save-scheduler.js:23-111 | The same over every run. |
| `SaveScheduler.IdleMeansAllSaved` | apps/desktop/src/renderer/app/workbook-save-scheduler.js:23-46 | With nothing left to do, every request was answered by exactly one save, of its own or a newer workbook. |
| `SaveScheduler.EnqueueSettlesWithNewest` | apps/desktop/src/renderer/app/workbook-save-scheduler.js:62-101 | Whatever happens next, a request's promise settles with a save of its own workbook or a newer one. |
| `SaveScheduler.FlushSettlesAfterNewest` | apps/desktop/src/renderer/app/workbook-save-scheduler.js:103-111 | A flush settles only once the newest workbook enqueued before it, or a newer one, was saved. |
| `SaveScheduler.FlushDrains` | apps/desktop/src/renderer/app/workbook-save-scheduler.js:103-111 | A flush and the end of at most two saves leave nothing undone. |
| `SaveScheduler.Scheduler.Enqueue` | apps/desktop/src/renderer/app/workbook-save-scheduler.js:62-101 | The in-place enqueue. |
| `SaveScheduler.Scheduler.TimerFired` | apps/desktop/src/renderer/app/workbook-save-scheduler.js:48-60 | The in-place timer, ignoring stale ones. |
| `SaveScheduler.Scheduler.SaveEnded` | apps/desktop/src/renderer/app/workbook-save-scheduler.js:23-46 | The in-place end of a save, starting the next ready entry. |
| `SaveScheduler.Scheduler.FlushPending` | apps/desktop/src/renderer/app/workbook-save-scheduler.js:103-111 | The in-place flush. |
| `ActionExecutor.DecisionIsSound` | packages/action-review/src/application/ai-actions/checkpointed-action-executor.js:903-1055 | What each kind of action read, what it records as before and after, and what it writes agree; a blocked one writes nothing. |
| `ActionExecutor.WriteSetsKey` | packages/action-review/src/application/ai-actions/checkpointed-action-executor.js:361-364 | An applied action recorded what the workbook held under its key and sets that one entity. |
| `ActionMeaning.HintMatchesIffUnique` | packages/action-review/src/application/ai-actions/checkpointed-action-executor.js:361-400 | A create's account or category hint is matched exactly when it is not empty and one entity answers to it. |
| `ActionMeaning.HintNamesFirst` | packages/action-review/src/application/ai-actions/checkpointed-action-executor.js:203-212 | In other actions a hint names the first entity that answers to it. |
| `ActionMeaning.PostingMovesAmount` | packages/action-review/src/application/ai-actions/checkpointed-action-executor.js:87-160 | A created transaction adds its amount to one account and takes it from another by direction, nets to zero where these are one account, and touches no third. |
| `ActionMeaning.EditSetsWhatItNames` | packages/action-review/src/application/ai-actions/checkpointed-action-executor.js:487-549 | An edit sets each field it gives, and resolves its category and account hints. |
| `ActionMeaning.EditKeepsTheRest` | packages/action-review/src/application/ai-actions/checkpointed-action-executor.js:487-549 | It changes no field that it does not name. |
| `ActionMeaning.ArchiveThenRestore` | packages/action-review/src/application/ai-actions/checkpointed-action-executor.js:483-569 | Archiving and restoring a transaction gives back every field but the flags and leaves the archive time on it. |
| `ActionMeaning.SetBudgetTwice` | packages/action-review/src/application/ai-actions/checkpointed-action-executor.js:839-901 | Setting a budget twice leaves what setting it the second way at once would. |
| `Rollback.ForcedRollbackInvertsIff` | packages/action-review/src/application/checkpoints/rollback-service.js:202-239 | Straight after a plan whose created identities are new, a forced rollback gives every entity back exactly when, for each entity it changed, the last applied change found the entity as it was before the plan. |
| `Rollback.DistinctChangesFoundStart` | packages/action-review/src/application/checkpoints/rollback-service.js:202-239 | That condition holds whenever the applied changes touch distinct entities. |
| `Rollback.RepeatedEditIsNotUndone` | packages/action-review/src/application/checkpoints/rollback-service.js:202-213 | It can fail: a plan that sets one amount twice to the same new value passes the preview of a safe rollback, and the undo leaves the new value. |
| `Rollback.ReverseUndoInvertsExecution` | packages/action-review/src/application/checkpoints/rollback-service.js:202-213 | The same changes undone last to first would give every entity back after every plan whose created identities are new. |
| `Rollback.TakenIdentityIsKeptIff` | packages/action-review/src/application/ai-actions/checkpointed-action-executor.js:716-755 | Why created identities must be new: undoing one creation under a taken identity leaves the created entity, so every entity comes back exactly when that equals the older one. |
| `Rollback.SafeRollbackAcceptsIff` | packages/action-review/src/application/checkpoints/rollback-service.js:114-155 | Straight after a plan whose created identities are new, a safe rollback finds no conflict exactly when, for every applied change, the last applied change of its entity neither archived a budget nor restored a transaction that had its archive time, and recorded the same result as this change unless this one recorded none. |
| `Rollback.DistinctAcceptableIff` | packages/action-review/src/application/checkpoints/rollback-service.js:114-155 | Over distinct entities that is: exactly when no applied change archived a budget or restored a transaction that had its archive time. |
| `Rollback.ArchivedBudgetIsRefused` | packages/action-review/src/domain/checkpoints/conflicts.js:22-30 | Straight after a plan that only archives a budget, the preview reports that one change as a missing entity. |
| `Rollback.UndoAllRestores` | packages/action-review/src/application/checkpoints/rollback-service.js:202-213 | The undo leaves every entity at the recorded value of its last selected change, and an entity without one alone. |
| `Rollback.UndoCommutes` | packages/action-review/src/application/checkpoints/rollback-service.js:202-213 | Undoing changes of two different entities commutes. |
| `Rollback.ExecutionIsRecorded` | packages/action-review/src/application/ai-actions/checkpointed-action-executor.js:279-320 | Executing a plan whose created identities are new: each applied change recorded what the changes before it had made of its entity, and each entity ends as its last change left it, or as it was. |
| `Rollback.PreviewIsEmptyIff` | packages/action-review/src/application/checkpoints/rollback-service.js:114-155 | The preview is empty exactly when no selected change conflicts. |
| `Rollback.RollbackIsIdempotent` | packages/action-review/src/application/checkpoints/rollback-service.js:105-112 | After a rollback nothing selected is still applied; repeating it changes nothing and reports nothing. |
| `Rollback.AssignmentIsExactIff` | packages/action-review/src/application/ai-actions/checkpointed-action-executor.js:567-569 | Assignment leaves exactly the recorded fields exactly when the new value dropped none. |
| `Rollback.CreatedLinesBalanceIff` | packages/action-review/src/application/ai-actions/checkpointed-action-executor.js:87-160 | The lines of a created transaction that is not blocked balance exactly when it is a transfer or its category has an account to post to. |
| `Rollback.CreatedTransactionIsProper` | packages/action-review/src/application/ai-actions/checkpointed-action-executor.js:322-443 | A created transaction that is not blocked, over categories that can be posted to, has a positive amount, and its lines debit and credit exactly that amount. |
| `Rollback.EditKeepsMatchIff` | packages/action-review/src/application/ai-actions/checkpointed-action-executor.js:487-569 | An edit keeps the lines matching the amount exactly when it does not change the amount. |
| `Rollback.ArchivingKeepsMatch` | packages/action-review/src/application/ai-actions/checkpointed-action-executor.js:483-490 | Archiving and restoring keep the lines matching the amount, or not matching it. |
| `Rollback.ApplyAllKeepsBalance` | packages/action-review/src/application/ai-actions/checkpointed-action-executor.js:1294-1307 | Any list of actions keeps every transaction balanced, whatever its amount, and so is what it records. |
| `Rollback.ApplyAllKeepsPositive` | packages/action-review/src/application/ai-actions/checkpointed-action-executor.js:1294-1307 | Any list of actions keeps positive amounts positive, and records positive ones. |
| `Rollback.UndoAllKeepsBalance` | packages/action-review/src/application/checkpoints/rollback-service.js:202-213 | Any undo keeps every transaction balanced. |
| `Rollback.UndoAllKeepsPositive` | packages/action-review/src/application/checkpoints/rollback-service.js:202-213 | Any undo keeps positive amounts positive. |
| `Checkpoints.AtMostOnce` | packages/action-review/src/application/ai-actions/checkpointed-action-executor.js:1206-1276 | In every run of calls and rollbacks, at most one call of a user with a given non-empty key changes the workbook, provided the store accepts the checkpoints of those calls. |
| `Checkpoints.ExecutionIsRememberedIff` | packages/action-review/src/application/ai-actions/checkpointed-action-executor.js:1325-1367 | A call that runs its plan leaves its record, and then replays its checkpoint when sent again, exactly when it has a key and the store accepts its checkpoint. |
| `Checkpoints.RejectedCheckpointRunsTwice` | packages/action-review/src/application/ai-actions/checkpointed-action-executor.js:1325-1353 | Why the condition is there: with an empty generated identity a retried call takes effect twice. |
| `Checkpoints.StepKeepsRecord` | packages/action-review/src/application/checkpoints/checkpoint-store.js:102-134 | Once a key has its record no request moves it, and calls for that key leave the workbook alone, rolled back or not. |
| `Checkpoints.LaterCallsReplayOrAreRefused` | packages/action-review/src/application/ai-actions/checkpointed-action-executor.js:1206-1276 | Once a key has its record, a call with that key after any run of calls and rollbacks leaves everything as it is; it replays the recorded checkpoint exactly when it passes the preflight with the recorded plan, and is refused otherwise. |
| `Checkpoints.RollbackUndoesCallIff` | packages/action-review/src/application/checkpoints/rollback-service.js:157-239 | A forced rollback of a call that just executed, creating only new identities, leaves nothing applied, and restores every entity exactly when the last applied change of each found it as it was before the call. |
| `Checkpoints.SafeRollbackOfCallIff` | packages/action-review/src/application/checkpoints/rollback-service.js:157-239 | A safe one of such a call goes through exactly under the condition of `Rollback.SafeRollbackAcceptsIff`, then restores every entity exactly when the forced one does, and otherwise changes no entity. |
| `Checkpoints.DistinctCallIsUndone` | packages/action-review/src/application/checkpoints/rollback-service.js:157-239 | When the call's applied changes touch distinct entities and create only new identities, a safe rollback goes through exactly when each of them is reversible, and then restores every entity. |
| `Checkpoints.RunKeepsBalance` | packages/action-review/src/application/ai-actions/checkpointed-action-executor.js:87-160 | Over every run of plans and rollbacks every transaction keeps equal debits and credits, whatever its amount, when every category can be posted to and new ones have identities. |
| `Checkpoints.RunKeepsPositive` | packages/action-review/src/application/ai-actions/checkpointed-action-executor.js:487-569 | Over every run of plans and rollbacks amounts that were all positive stay positive. |
| `WorkbookStore.Workbook.ApplyActions` | packages/action-review/src/application/ai-actions/checkpointed-action-executor.js:1294-1307 | The loop over a plan's actions, writing in place and collecting changes. |
| `WorkbookStore.Workbook.CreateCheckpoint` | packages/action-review/src/application/checkpoints/checkpoint-store.js:24-51 | Storing a checkpoint: rejected when malformed, else overwritten or appended. |
| `WorkbookStore.Workbook.SaveRecord` | packages/action-review/src/application/checkpoints/checkpoint-store.js:117-134 | Storing an idempotency record. |
| `WorkbookStore.Workbook.ExecutePlan` | packages/action-review/src/application/ai-actions/checkpointed-action-executor.js:1057-1440 | The whole call in place: preflight, replay, dry run on a copy, execution, and the throw after mutation. |
| `WorkbookStore.Workbook.UndoChanges` | packages/action-review/src/application/checkpoints/rollback-service.js:202-213 | The undo loop in place, marking each change. |
| `WorkbookStore.Workbook.RollBackCheckpoint` | packages/action-review/src/application/checkpoints/rollback-service.js:157-239 | The whole rollback in place. |
| `HostFrames.ChunkingDoesNotMatter` | apps/desktop/src-tauri/src/lib.rs:307-336 | However a byte stream is cut, the calls yield the messages and leftover of one call on the whole, and some call fails exactly when that one does. |
| `HostFrames.TakeInTwoParts` | apps/desktop/src-tauri/src/lib.rs:307-336 | Taking a stream in two parts is taking it at once. |
| `HostFrames.LeftoverIsSettled` | apps/desktop/src-tauri/src/lib.rs:331-335 | What a call leaves holds no newline and is within the limit. |
| `HostFrames.FramesRoundTrip` | apps/desktop/src-tauri/src/lib.rs:318-329 | Framed payloads without newlines, within the limit, are read back in full and in order. |
| `HostFrames.Decoder.TakeMessages` | apps/desktop/src-tauri/src/lib.rs:307-336 | The draining loop in place; after every call the buffer is newline-free and within the limit. |
| `MoneyText.SanitizeIsIdempotent` | apps/desktop/src/renderer/shared/FinancialValueInput.jsx:3-21 | Sanitizing twice is sanitizing once, for every string and either option. |
| `MoneyText.SanitizedHasShape` | apps/desktop/src/renderer/shared/FinancialValueInput.jsx:3-21 | What sanitizing yields is nothing, a lone sign, or a number without commas or leading zeros and with at most two decimals. |
| `MoneyText.FormatKeepsCanonical` | apps/desktop/src/renderer/shared/FinancialValueInput.jsx:23-42 | For every string, formatting keeps the canonical value, with or without a sign allowed. |
| `MoneyText.SanitizeNumber` | apps/desktop/src/renderer/shared/FinancialValueInput.jsx:3-21 | On a number's text sanitizing drops exactly the commas, the leading zeros and a sign that is not allowed. |
| `MoneyText.AnchorKeepsDigits` | apps/desktop/src/renderer/shared/FinancialValueInput.jsx:44-74 | On text whose decimals are digits, a caret put back from its anchor has the same digits to its left. |
| `MoneyText.CaretKeepsDigits` | apps/desktop/src/renderer/shared/FinancialValueInput.jsx:44-74 | On every formatted text, wherever the caret stands. |
| `MoneyText.PositionForAnchor` | apps/desktop/src/renderer/shared/FinancialValueInput.jsx:61-74 | The digit-counting loop finds that position. |

## Left out

- Workbook names, years, currencies and update times; error texts, codes and last-error fields; audit events, summaries, review projections and duplicate warnings.
- Hashing: a payload stands for its hash and a record name for its workbook identity, so the identity check on downloads is not modelled in the store.
- Payload bytes and conflict packages of the store are not tied to the disk model: `StateFile` knows file names, `CloudRecord` knows contents.
- Undecodable records and system fields, missing payload files, and the sync engine's own scheduling: a record may be sent any number of times or never.
- Batches of changes: the store's handlers take one record at a time.
- CloudProtocol.NoLostUpdate: speaks of runs whose recoveries meet no upload queued against another revision, because of `CloudBoundaries.RecoveryIsFaithfulIff`.
- CloudProtocol.ReplacesWhatItSawUnless: excepts chains that began at no cached version and records removed in between, because of `CloudBoundaries.UnseenContentIsReplaced`.
- Merging: the order of lists, creation and update times of entities, device-only settings, and review of conflicts; the reconciliation of reviewed conflicts.
- Reconciler.Device.Reconcile: assumes that a download returns the committed version and that applying a merge to the open workbook does not alter it.
- `DurableStore`: writes made while an entry is loading or failing, which a load may overwrite; removal of an entry; cloud environments and several entries.
- DurableStore.FlushedWriteReachedHost: speaks of a snapshot taken at or after the write; `DurableStore.FlushedWriteIsCarried` gives its content, under the condition that `DurableStore.ReloadUnderSaveCanDropAWrite` shows to be needed.
- `SyncState`: number texts other than plain decimals, identities that are not texts, their trimming and truncation, and the automatic-sync preference.
- `ActionExecutor`: case folding and trimming in matches, account and category type filters, rounding to cents, currencies, merchants, month keys and templates of transactions; category types.
- Change identities are numbers in order of application; a rollback restores entities as identity-keyed maps, and a removed entity that is restored goes to the end of its list.
- Rollback.ForcedRollbackInvertsIff: needs created identities to be new, because of `Rollback.TakenIdentityIsKeptIff`.
- Checkpoints.AtMostOnce: needs the store to accept the checkpoints of the calls in question, because of `Checkpoints.RejectedCheckpointRunsTwice`.
- Checkpoints.RunKeepsBalance: needs categories with an account to post to, because of `Rollback.CreatedLinesBalanceIff`.
- `HostFrames`: decoding a payload is a parameter.
- React components, routing, native menus, updates, deep links, the advisor runtime and the companion port.
