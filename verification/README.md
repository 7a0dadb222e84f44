# Retikon: proofs about stored rows, leases, buffers and schedules

This project models the stateful core of Retikon in Dafny 4.11 and proves what that core promises. `dafny verify dfyconfig.toml` checks all of it.

Graph compaction and garbage collection. Ingestion writes each run's rows to parquet files, one per entity and file kind, and a manifest that mentions them. The compactor groups manifests by run, plans batches under byte budgets (one per kind) and a count cap, and rewrites each batch kind by kind into one file; garbage collection then deletes what no kept manifest mentions. `CompactionPlanning` and `CompactionFate` say, without running anything, what a run will do and what becomes of it. Storage is a class whose `files` map is written and deleted in place; it records every content it has ever had, so that "nothing is lost" is said of every intermediate state, failed runs included. The audit-log compactor is a second greedy planner over the same storage.

Ingestion idempotency. Workers of requests and of stream events share one document per object: a lease, an attempt count, a status and cached results. `IngestProtocol` lets any number of workers take their steps in any order, outlive their lease, fail or stop. Its theorems hold after any sequence of steps whatever; a step that cannot be taken is passed over.

Edge buffer. `EdgeDisk` has the files and the single file operations, including the bytes of a half-written temporary file; `EdgeBuffer` has the operations, each of which goes through those steps one at a time; `EdgeQueue` and `EdgeHistory` see the buffer as a queue and follow every item to its end. The upload gateway's backpressure and the batch tuner stand beside it.

Workflow scheduler. `Scheduler` has the tick and the execution of runs, `SchedulerHistory` whole histories of ticks with runners at work between them.

## What the proofs say about the code

- The planner does not always use the fewest batches: flushing as soon as the target size is reached can separate groups that would have fitted together. It always does exactly when the target is above the limit, or the cap is below two, or the limit is negative (`OptimalExactlyWhenFlushingLate`).
- Two output files of a batch line up row by row exactly when every source group has the same number of rows in both kinds (`RowsLineUpExactly`); nothing in the compactor tests this.
- Whether a compaction run fails, and what it deletes, is fixed by what there is before it (`RunFate`): it does its planned jobs in order up to the first that has a missing source, with deletion a source listed twice, or, if counts are checked, a wrong row count. A run that deletes sources and fails leaves rows in outputs that no manifest mentions, and the next collection deletes them (`LostRow`); where files are stored and not shared, something is lost exactly when a job before the first wrong count has a source that the collection alone would leave (`WhenRowsAreLost`).
- After a run that deletes its sources the next run fails, as the manifests of the compacted runs stay and go on mentioning the deleted files (`CompactAgain`).
- Audit logs are written without a manifest, and the prefixes that a collection excludes by default do not cover them: if there is any manifest and none mentions them, a collection deletes every audit row (`CompactAuditAndCollect`, `AuditLogsNotExcluded`).
- A worker that outlives its lease can turn a completed document into a failed one, which is then processed again (`OverLeaseExample`). When all workers keep to their lease, a completed document changes its status exactly when its own worker fails after marking it, before it has recorded the result or while it cleans up after a copied one (`FinalIsLeftInTime`).
- A completed document may have no result, for good: the completing mark and the result are two writes, and a worker may stop between them, or copy from such a document. `CompletedOnce` says that there is no other way (`AbandonedExample`).
- The branch that dead-letters a recoverable failure at the attempt cap is never taken: the cap is tested before any work starts (`RecoverableIsNeverFinal`). So with a cap of m the pipeline is entered at most m - 1 times, and that often it can be (`CapIsReached`).
- Scope keys identify scopes whose parts contain no colon and are not `-`; for every other part there are two scopes that share a key (`ScopeKeysCanClash`).
- A crash between the two files of an item leaves a payload that no listing sees and no prune removes; these payloads are exactly the ones outside the byte cap (`OrphansExactly`, `PayloadBytes`).
- Two runners that hold the same queued run can leave a workflow with two active runs (`StaleStartExample`), though not when the queue delivers each run once (`OneActiveByDelivery`) or runs are executed one after the other (`OneActiveInSequence`); and a run whose runner died holds up its workflow for good (`StuckForGood`).
- The tuner's results are within their ranges exactly when each minimum is at most its maximum, and never fall as the backlog grows, whatever the settings are.

## Model

| member | source | states |
|---|---|---|
| CompactionTypes.CompactionBatch.BytesByKind | retikon_core/compaction/types.py:53-59 | the loop's totals are, for exactly the batch's kinds, the sums over the groups of the sizes that their manifests give |
| CompactionTypes.CompactionBatch.RowsByKind | retikon_core/compaction/types.py:61-67 | the same for the rows that they give |
| Greedy.GreedyShape | retikon_core/compaction/policy.py:67-89 | greedy segments cut the input in order, each is admissible and none could have gone on |
| Greedy.GreedyIsUnique | retikon_core/compaction/policy.py:67-89 | a cutting into admissible segments that could not go on is the greedy one |
| Greedy.GreedyIsOptimal | retikon_core/compaction/policy.py:67-89 | with weights that grow with the segment no admissible cutting has fewer segments |
| CompactionPolicies.Plan | retikon_core/compaction/policy.py:37-90 | the loop with its running totals and flushes returns exactly the batches of the greedy segments |
| CompactionPolicies.PlanPartitions | retikon_core/compaction/policy.py:67-90 | batches concatenate to the input; a batch of several groups is within the cap and, on every kind, the sizes of its files add up to the byte limit at most; none ended unless it had reached the target or could not take the next group |
| CompactionPolicies.PlanIsOptimal | retikon_core/compaction/policy.py:74-89 | when early flushing cannot matter, no order-preserving partition within the budgets has fewer batches |
| CompactionPolicies.OptimalExactlyWhenFlushingLate | retikon_core/compaction/policy.py:74-89 | the policies that are optimal on all inputs are exactly those with target above limit, cap below two or a negative limit |
| CompactionPolicies.EarlyFlushExample | retikon_core/compaction/policy.py:86-87 | for every other policy, two groups that fit together but get two batches |
| CompactionPolicies.PlanCountBound | retikon_core/compaction/policy.py:67-90 | half the number of batches is at most total bytes by target plus groups by cap |
| CompactionPolicies.PairBound | retikon_core/compaction/policy.py:67-90 | of each two neighbouring batches one is full by count or together they reach the target |
| AuditCompactor.PlanBatches | retikon_core/audit/compactor.py:138-188 | the walk returns the first max_batches greedy segments of at least two files of the sorted list, and nothing for a cap below two |
| AuditCompactor.Walk | retikon_core/audit/compactor.py:166-188 | the loop with its two flushes and early returns computes exactly those |
| AuditCompactor.FilesInOrder | retikon_core/audit/compactor.py:147-152 | the sorted list holds the same files, by update time, those without one as at time zero, and then by size |
| AuditCompactor.AuditPlanShape | retikon_core/audit/compactor.py:138-188 | batches are disjoint runs, in the order of update time and then size, of 2 to max_files files within the byte limit, at most max_batches; a file skipped before the end of the last one reaches the target alone or overflows with its successor |
| AuditRun.CountRows | retikon_core/audit/compactor.py:240-255 | the rows of a batch are counted from its files, and only if all are there |
| AuditRun.CompactAuditBatch | retikon_core/audit/compactor.py:240-291 | one batch: what is written, that the rows and the size it reports are those of the stored file (on a dry run the sum of the sources' sizes), exactly which sources are deleted and when that fails, that the output counts even then, that no state on the way loses a row, and that the row check cannot fire on files that are there |
| AuditRun.CompactAuditLogs | retikon_core/audit/compactor.py:191-361 | no state of the whole run loses a row, failed batches or not, and a run to the end has an output per planned batch; on distinct stored files no batch fails, each output holds exactly the rows of its planned batch and reports its rows and size truly, exactly the planned sources go, and with deletion the rows of every entity and kind are the same multiset as before |
| AuditThenCollect.CompactAuditAndCollect | retikon_core/compaction/gc.py:126-163 | after a collection exactly those audit logs are left that lie below an excluded prefix or are mentioned by a kept manifest, and all if there is no manifest; if none is excluded or mentioned, no audit row is left |
| AuditThenCollect.AuditLogsNotExcluded | scripts/graph_gc.py:66-71 | the prefixes excluded by default spare no audit log |
| Tables.WriteTables | retikon_core/compaction/io.py:94-125 | the written file is the aligned rows of all sources, in order, its columns are exactly those of the sources, and its count is right |
| Tables.ConcatenatedContent | retikon_core/compaction/io.py:71-101 | concatenation with null padding keeps every row's cells, their order and their number |
| Tables.SourceIsBlock | retikon_core/compaction/io.py:94-101 | each source is a contiguous block of the output |
| Tables.AlignedRowOrigin | retikon_core/compaction/io.py:94-120 | row i of the output is the padded row that Locate names |
| Tables.AlignedExactlyWhenCountsAgree | retikon_core/compaction/io.py:94-120 | two concatenations agree on the origin of every row iff their sources have equal row counts, one by one |
| GraphStorage.PartUriParses | retikon_core/compaction/runner.py:86-98 | the path written for an entity and kind parses back to it unless an edge type is named "vertices" |
| GraphStorage.Storage.NewPart | retikon_core/compaction/runner.py:256-259 | a new part's path is unused and of the right entity and kind |
| GraphStorage.Storage.Write | retikon_core/compaction/io.py:33-42 | stores the file and records the new content of the storage |
| GraphStorage.Storage.Delete | retikon_core/compaction/runner.py:300-303 | removes one file; an error if it is not there |
| BatchCompaction.RewriteSources | retikon_core/compaction/runner.py:269-303 | concatenation is written before any source goes; the rows and the size it reports are those of the stored file; whether it fails and which old files it deletes is what Rewriting says of the files there were; every state on the way still holds all rows |
| BatchCompaction.CompactKind | retikon_core/compaction/runner.py:203-303 | one kind of a batch, with dry runs, missing kinds, missing sources and the strict check; a dry run reports the sums of the groups' rows and sizes |
| BatchCompaction.CompactBatch | retikon_core/compaction/runner.py:185-339 | after a batch each output holds its kind's rows of all groups in order and is reported with its true rows and size, exactly the sources are gone and only if asked, all other files are untouched; whether it fails and which old files are gone then is what RunFate says beforehand; no state on the way, errors included, loses a row |
| BatchCompaction.ConcatenationPreserves | retikon_core/compaction/runner.py:269-303 | once the concatenation is stored any of the sources may go |
| BatchCompaction.RewritingConserves | retikon_core/compaction/runner.py:300-303 | replacing sources by their concatenation keeps the multiset of rows of every entity and kind |
| BatchCompaction.OutputRowOrigin | retikon_core/compaction/io.py:94-120 | row i of an output comes from the group and source row that the counts say, changed by padding only |
| BatchCompaction.RowsLineUpExactly | gcp_adapter/dev_console_service.py:485-490 | outputs for two kinds line up row by row iff every group has equal counts in both; readers zip the two files |
| CompactionPlanning.GroupManifests | retikon_core/compaction/runner.py:145-175 | one group per run and entity, each kind with the file mentioned last |
| CompactionPlanning.NothingOverlooked | retikon_core/compaction/runner.py:145-157 | with one file per run, entity and kind every mentioned file is in its group |
| CompactionPlanning.ExpectedKinds | retikon_core/compaction/runner.py:178-182 | each kind some group has, once, in the order of texts |
| CompactionPlanning.SelectGroups | retikon_core/compaction/runner.py:406-426 | by run id, all and only the groups with every kind that some group of the entity has, for vertices among them the core file |
| CompactionPlanning.PlanEntity | retikon_core/compaction/runner.py:406-427 | the batches together hold exactly the eligible groups of the entity, by run id, and carry exactly their kinds |
| CompactionFate.UnsharedFate | retikon_core/compaction/runner.py:285-303 | jobs whose sources are stored and not shared fail exactly on a wrong count, if counts are checked, and delete exactly the sources of the jobs before that |
| CompactionPlanning.CleanRun | retikon_core/compaction/runner.py:396-460 | the same of the whole plan, when the files of the runs that take part are stored and belong to one run each |
| CompactionPlanning.TruthfulGoes | retikon_core/compaction/runner.py:285-289 | no run fails on manifests that tell the truth |
| CompactionRunner.CompactEntities | retikon_core/compaction/runner.py:396-460 | every eligible group of every entity is carried into outputs, the counts add up the rows of the outputs of kind "core" for vertices and "adj_list" for edges, and success and deletions are what RunFate says of the planned jobs |
| CompactionRunner.RunCompaction | retikon_core/compaction/runner.py:351-496 | a whole run: no state loses a row; every file of an eligible run is a block of an output; with deletion the multiset of rows per entity and kind is unchanged, without it no source is altered; the manifest lists all outputs with the rows and sizes of the stored files, and the manifests are fit for another run; counts add up the "core" and "adj_list" outputs, and strict ones are true row counts; whether the run fails, and exactly which old files are gone after it, is what RunFate says before it of the files, manifests, policy and options |
| GraphGc.BuildGcPlan | retikon_core/compaction/gc.py:104-183 | candidates are exactly the stored files that are neither excluded nor kept, none when there is no manifest |
| GraphGc.ListCandidates | retikon_core/compaction/gc.py:152-163 | the filter loop, each path once |
| GraphGc.ExecuteGc | retikon_core/compaction/gc.py:186-206 | exactly the candidates go, for any batch size, and the count is right; nothing on a dry run |
| GraphGc.RetentionMonotone | retikon_core/compaction/gc.py:126-163 | raising any retention setting only shrinks the candidates |
| GraphGc.CollectingTwice | retikon_core/compaction/gc.py:126-163 | planning again at the same time finds nothing |
| GraphGc.DroppedManifest | retikon_core/compaction/gc.py:126-142 | a dropped manifest is outside the recent window, outranked by keep_latest others and, if a compaction, by keep_compaction others |
| GraphGc.KeptIsWorthKeeping | retikon_core/compaction/gc.py:126-142 | a kept manifest was completed within the recent hours, or has fewer than keep_latest strictly newer ones, or is a compaction with fewer than keep_compaction strictly newer ones |
| GraphGc.KeptExactly | retikon_core/compaction/gc.py:126-142 | for distinct completion times a manifest is kept iff this holds of it |
| GraphGc.CandidatesExactly | retikon_core/compaction/gc.py:126-163 | then a file is a candidate iff it is stored, below no excluded prefix, not the health check, and mentioned only by manifests that are not worth keeping |
| GraphGc.ExcludedBelow | retikon_core/compaction/gc.py:152-158 | a file below the root is excluded iff its path from there begins with a prefix without the slashes around it |
| GraphGc.StripSlashesShape | retikon_core/compaction/gc.py:152 | a prefix loses the slashes at both ends and nothing else |
| GraphGc.CollectedOldestFirst | retikon_core/compaction/gc.py:90-101 | manifests are gone through from the oldest on, each as often as it is listed |
| GraphGc.NewestCompactionKept | retikon_core/compaction/gc.py:132-135 | the newest compaction is kept when keep_compaction is positive |
| CompactThenCollect.CompactAndCollect | retikon_core/compaction/gc.py:132-163 | RunFate says beforehand whether the run fails; if not, then after a collection, whatever else the retention settings are, every row of every file of an eligible run is in some stored file, in order; if it does, exactly those old files are left that the collection alone would have left and that are not among the deletions RunFate names |
| CompactThenCollect.AfterFailure | retikon_core/compaction/runner.py:285-303 | so a failed run costs nothing exactly when it deletes nothing the collection would have left; its outputs go, as no manifest mentions them |
| CompactThenCollect.WhenRowsAreLost | retikon_core/compaction/runner.py:285-303 | when files are stored and not shared: something is lost iff sources are deleted and a job before the first wrong count has a source that the collection alone would leave |
| LostRowExample.LostRow | retikon_core/compaction/runner.py:467-477 | two runs, the second with a wrong count: a strict deleting compaction run fails after its first batch, the collection that alone would delete nothing follows, and the first row is in no file any more |
| CompactThenCollect.CompactAgain | retikon_core/compaction/runner.py:101-145 | after a run that deletes its sources the next one fails, as the old manifests still mention them |
| DedupeKeys.ScopeKeyIdentifies | gcp_adapter/idempotency_firestore.py:161-170 | for parts without colon other than the placeholder, two scopes have one key iff they are the same scope |
| DedupeKeys.ScopeKeysCanClash | gcp_adapter/idempotency_firestore.py:161-170 | for every other part there is a scope with it that has the key of a different scope, all its other parts being clean unless the part is a lone colon |
| DedupeKeys.ScopedIdentifies | gcp_adapter/idempotency_firestore.py:173-189 | within a scope the scoped key tells values apart |
| IdempotencyStore.DocumentStore.Begin | gcp_adapter/idempotency_firestore.py:26-116 | a worker is told to process iff the document is new, or not completed or dead-lettered and not in processing with a write within the lease; then the count goes up by one, the document is in processing as of now and keeps its facts; otherwise nothing changes and the answer says why |
| IdempotencyStore.DocumentStore.Mark | gcp_adapter/idempotency_firestore.py:118-150 | sets status and time and nothing else, an error on a missing document |
| IdempotencyStore.DocumentStore.UpdateObjectMetadata | gcp_adapter/idempotency_firestore.py:192-251 | status, attempts, cached results and content hash stay, as do all other documents; the lease starts again; what the request tells replaces what was known and nothing else does, a checksum together with its scope |
| IdempotencyStore.DocumentStore.FindCompleted | gcp_adapter/idempotency_firestore.py:290-321 | nothing exactly when no row is completed, of the scope, version, bucket and name asked for, and without a size, media type or duration that differs from one asked for; else the first such row with pipeline metrics, or the first such row |
| IdempotencyStore.DocumentStore.FindCompletedByChecksum | gcp_adapter/idempotency_firestore.py:267-321 | the same among the first limit documents with that checksum, in the scope if one is given |
| IdempotencyStore.DocumentStore.FindCompletedByContentHash | gcp_adapter/idempotency_firestore.py:324-381 | the same among those with that content hash |
| IdempotencyStore.DocumentStore.ApplyChecksumDedupe | gcp_adapter/ingestion_service.py:537-676 | completes the document with the result of the best completed one among the first limit documents of equal scope and checksum: its manifest if it has one, its content hash and duration where the request has none, nothing else changed; does nothing exactly when there is none or no checksum |
| IdempotencyStore.DocumentStore.ApplyContentHashDedupe | gcp_adapter/ingestion_service.py:679-815 | the same by content hash; the hash of the downloaded bytes goes before the lender's |
| IngestLease.AttemptsAreGrants | gcp_adapter/idempotency_firestore.py:73-111 | in every run a document's attempt count is the number of its grants, and these are numbered 1, 2, 3 and so on |
| IngestLease.BoundedProcessing | gcp_adapter/ingestion_service.py:1101-1123 | with a cap of m the pipeline is entered at most m - 1 times per document under any interleaving |
| IngestLease.EnteredOnceAfter | gcp_adapter/ingestion_service.py:1204-1210 | no attempt enters the pipeline twice, none at or above the cap at all |
| IngestLease.RecoverableIsNeverFinal | gcp_adapter/ingestion_service.py:1354-1379 | the dead-letter branch of the recoverable handler is never reached |
| IngestLease.GrantsApart | gcp_adapter/idempotency_firestore.py:64-75 | two grants with no mark between them are more than the lease apart, although metadata writes extend it |
| IngestTimely.LeaseSafety | gcp_adapter/idempotency_firestore.py:41-111 | when workers keep to their lease at most one is at work on a document, and its status is in processing until that worker completes it |
| IngestTimely.FinalIsLeft | gcp_adapter/idempotency_firestore.py:118-150 | in any run a final document changes status iff a worker holding it marks it otherwise |
| IngestTimely.FinalIsLeftInTime | gcp_adapter/ingestion_service.py:1195-1271 | in runs within the lease, iff its worker fails after the completing mark: before the record, or in cleaning up after a copied result |
| IngestTimely.CompletionsCounted | gcp_adapter/ingestion_service.py:1195-1271 | in such runs a document is completed once, plus once per failure after a completing mark |
| IngestTimely.FinalForGood | gcp_adapter/idempotency_firestore.py:49-62 | without such failures completed and dead-lettered are never left and there is at most one completion |
| IngestTimely.OverLeaseExample | gcp_adapter/ingestion_service.py:1392-1409 | a run in which a worker beyond its lease undoes a completion |
| IngestResults.ManifestIsLastStored | gcp_adapter/ingestion_service.py:1216-1271 | in every run a document carries the manifest that its last recording worker's pipeline run yielded or its last borrowing worker's lender had, whichever came later, and none before; nothing else changes it |
| IngestResults.CarriesAfter | gcp_adapter/ingestion_service.py:1182-1218 | what a worker is about to store is what the pipeline last yielded to it, or what its last lookup found |
| IngestResults.BorrowsFromCompleted | gcp_adapter/idempotency_firestore.py:295-321 | what a worker is about to borrow was found on a document that was completed then |
| IngestResults.RecordStores | gcp_adapter/ingestion_service.py:1216-1271 | in every reachable state recording stores the manifest that the pipeline yielded to this worker, and changes neither status, count nor lease |
| IngestResults.BorrowStores | gcp_adapter/ingestion_service.py:578-606 | in every reachable state borrowing completes the document and stores the lender's manifest, if it had one |
| IngestResults.CompletedWithoutResult | gcp_adapter/ingestion_service.py:1216-1271 | in runs within the lease a completed document has no manifest iff none was ever lent to it and the worker that last completed it has yet to record, or stopped or failed before it did, or borrowed from a document without one |
| IngestResults.CompletedOnce | gcp_adapter/ingestion_service.py:1216-1271 | if no worker of it fails after a completing mark, iff one of these three is the case; otherwise it carries what was recorded or lent |
| IngestResults.AbandonedExample | gcp_adapter/ingestion_service.py:1216-1218 | a run within the lease that leaves a completed document without a result and no worker |
| IngestResults.DoneForGood | gcp_adapter/idempotency_firestore.py:49-62 | in any run no one writes any more to a completed or dead-lettered document that no worker holds, and no one is told to process it |
| IngestResults.DlqForGood | gcp_adapter/idempotency_firestore.py:55-62 | once dead-lettered in a run within the lease a document stays as it is and is never granted again, whatever follows |
| IngestResults.FailureMarks | gcp_adapter/ingestion_service.py:1320-1409 | in every reachable state a permanent failure leaves the document dead-lettered and any other failure leaves it failed; its facts and count stay |
| IngestResults.StepsWrite | gcp_adapter/ingestion_service.py:1101-1183 | what giving up, completing, noting and hashing write, that the other steps write nothing, and that an attempt gives up iff there is a cap and the attempt has reached it |
| IngestResults.MayFail | gcp_adapter/ingestion_service.py:1320-1409 | in every reachable state a worker may stop, and may fail iff it has passed the cap test |
| IngestResults.NeverStuck | gcp_adapter/ingestion_service.py:1101-1271 | in every reachable state each worker has a step that leads it on without a failure |
| IngestResults.CapIsReached | gcp_adapter/ingestion_service.py:1101-1123 | for every cap m and every n below it there is a run that enters the pipeline n times for a document, so the bound of m - 1 is met |
| IngestResults.StoresResult | gcp_adapter/ingestion_service.py:1101-1271 | from every reachable state a free document below the cap can be processed to completion and then carries any manifest that the pipeline yields |
| IngestResults.BorrowsResult | gcp_adapter/ingestion_service.py:537-676 | or can be completed with the manifest of any completed document that a lookup by its checksum may find |
| DedupeProvenance.Provenance | gcp_adapter/ingestion_service.py:578-606 | every manifest a document carries was yielded by a pipeline run on an object of the same scope and content, through any chain of copies |
| DedupeProvenance.TracedAfter | gcp_adapter/stream_ingest_service.py:569-745 | the invariant behind it, for documents and for what workers carry between lookup and write |
| DedupeProvenance.FoundIsSame | gcp_adapter/idempotency_firestore.py:281-299 | a document found under a key is about an object of the same scope and content, whichever kind of checksum each object carries |
| EdgeDisk.OneItemPerStep | retikon_core/edge/buffer.py:152-172 | one file operation adds or removes at most one item: the renaming of metadata adds, the removal of a payload removes |
| EdgeDisk.SoundAfter | retikon_core/edge/buffer.py:55-63 | wherever processes stop, each item has all its bytes and true metadata |
| EdgeDisk.Lifetime | retikon_core/edge/buffer.py:152-172 | over interrupted runs from an empty disk an item is there iff its metadata was renamed and its payload not removed |
| EdgeDisk.OrphansExactly | retikon_core/edge/buffer.py:55-63 | over interrupted runs from an empty disk a payload is there unlisted iff it was renamed and its metadata was not |
| EdgeDisk.OrphanStays | retikon_core/edge/buffer.py:55-63 | from then on it is never listed and never removed, as long as its metadata is not renamed |
| EdgeDisk.OrphanExample | retikon_core/edge/buffer.py:55-63 | for any payload a run that leaves it so, with no item |
| EdgeBuffers.EdgeBuffer.AtomicWriteBytes | retikon_core/edge/buffer.py:161-165 | the payload appears under its final name with all its bytes; the queue does not change |
| EdgeBuffers.EdgeBuffer.AtomicWriteJson | retikon_core/edge/buffer.py:168-172 | the item enters the queue at its place |
| EdgeBuffers.EdgeBuffer.AddBytes | retikon_core/edge/buffer.py:49-72 | the new queue is the old one with the item at its place, pruned: an item is in it iff its age is within the time to live and the bytes from it on are within the cap |
| EdgeBuffers.EdgeBuffer.ListItems | retikon_core/edge/buffer.py:74-94 | exactly the items with both files, by name; all other metadata is deleted and nothing else changes |
| EdgeBuffers.EdgeBuffer.Prune | retikon_core/edge/buffer.py:117-134 | the queue becomes its pruned form: an item stays iff its age is within the time to live and the bytes from it on are within the cap |
| EdgeBuffers.EdgeBuffer.Replay | retikon_core/edge/buffer.py:136-150 | the longest prefix that the sender takes is delivered, each with all its bytes, and removed; the counts say so |
| EdgeBuffers.EdgeBuffer.GetStats | retikon_core/edge/buffer.py:96-115 | count, sum of the sizes, and ages of the oldest and newest item |
| EdgeQueue.PrunedIsLongestSuffix | retikon_core/edge/buffer.py:117-134 | survivors of a prune are the longest suffix of the queue without an expired item and within the cap |
| EdgeQueue.PrunedSurvivors | retikon_core/edge/buffer.py:117-134 | of any queue exactly those items survive whose age is at most the time to live and from which on the sizes add up to the cap at most |
| EdgeQueue.JustAdded | retikon_core/edge/buffer.py:65-72 | an item just added survives iff it has not expired and fits by itself |
| EdgeQueue.PrunedWithinCap | retikon_core/edge/buffer.py:126-134 | after a prune the cap holds |
| EdgeQueue.PayloadBytes | retikon_core/edge/buffer.py:96-134 | the payload bytes on the disk are the total that the cap bounds plus those of the unlisted payloads, so they exceed the cap exactly when these take more than the queue leaves free |
| EdgeQueue.QueueShape | retikon_core/edge/buffer.py:128-139 | listing by name and sorting by age gives all items by age, ties by name |
| EdgeQueue.QueueInFull | retikon_core/edge/buffer.py:74-94 | the queue holds exactly the items whose payload and metadata are there, with the time and size that the metadata give, by time and then by name |
| EdgeQueue.QueueStep | retikon_core/edge/buffer.py:152-172 | what each file operation does to the queue |
| EdgeHistory.FirstInFirstOut | retikon_core/edge/buffer.py:117-150 | over any run with rising times the buffer is a suffix of all ever added and every earlier item was delivered or dropped, in order of arrival |
| EdgeHistory.Conservation | retikon_core/edge/buffer.py:117-150 | added is delivered plus dropped plus buffered, as multisets; deliveries are in order without repeats |
| EdgeHistory.AlwaysWithinCap | retikon_core/edge/buffer.py:126-134 | the cap holds between any two operations, whatever the clock says |
| EdgeHistory.Perform | retikon_core/edge/buffer.py:49-150 | a buffer that starts empty and goes through any list of adds, prunes and replays holds, after all its file operations, the queue of the history |
| EdgeGateway.BufferedCount | gcp_adapter/edge_gateway_service.py:473-527 | with at most c uploads between check and end the queue of the buffer, through any adds, replays and prunes, never exceeds limit - 1 + c items, or what it held at first |
| EdgeGateway.BoundReached | gcp_adapter/edge_gateway_service.py:473-527 | a run of the buffer that reaches that bound |
| EdgeGateway.UploadsCounted | gcp_adapter/edge_gateway_service.py:473-527 | in every run the uploads under way are those let in, which happens iff the buffer holds fewer items than both settings allow, less those that ended, and never more than allowed at once |
| EdgePolicies.AdaptiveBatchPolicy.Tune | retikon_core/edge/policies.py:15-42 | each result is in its range iff the range is not empty |
| EdgePolicies.InterpolateExactly | retikon_core/edge/policies.py:20-35 | the minimum up to the low watermark, the maximum from the high one, and between them the point of the straight line, cut off towards zero |
| EdgePolicies.TuneExactly | retikon_core/edge/policies.py:15-42 | both results for all settings: the interpolated value, for the delay with a quarter of the latency on top up to the maximum, kept within the limits |
| EdgePolicies.TuneMonotone | retikon_core/edge/policies.py:20-42 | batch and delay never fall as the backlog grows, for all settings and any fixed latency |
| Scheduler.LastRunIsLatest | gcp_adapter/workflow_service.py:918-925 | the last run of a workflow is the latest start among its runs |
| Scheduler.TriggersExactly | gcp_adapter/workflow_service.py:454-478 | a workflow is started iff it is enabled and scheduled, no run of it is queued or running, and all its runs started at least the interval ago, or in minutes before the present one, which the cron expression matches |
| Scheduler.TickExactly | gcp_adapter/workflow_service.py:926-964 | the runs that a tick adds are, in order, one for each workflow of which this holds, with its status and its start |
| Scheduler.DryRunExactly | gcp_adapter/workflow_service.py:926-945 | a dry run names exactly these, and those passed over are the scheduled ones with a run queued or running |
| Scheduler.WorkflowService.LastRuns | gcp_adapter/workflow_service.py:918-925 | the loop finds it for every workflow |
| Scheduler.WorkflowService.UpdateRun | retikon_core/workflows/store.py:177-190 | replaces the run of that name, or appends |
| Scheduler.WorkflowService.ExecuteRun | gcp_adapter/workflow_service.py:722-757 | ended runs are left alone; others are stored as running, then as completed iff no step failed |
| Scheduler.WorkflowService.StartRun | gcp_adapter/workflow_service.py:946-958 | one new run, queued or executed to its end |
| Scheduler.WorkflowService.ScheduleTick | gcp_adapter/workflow_service.py:901-964 | a tick adds one run for exactly the workflows that are scheduled, idle and due, in order; dry runs change nothing; the skipped are counted |
| SchedulerHistory.TriggersSpaced | gcp_adapter/workflow_service.py:454-478 | over any history two triggers of a workflow are at least its interval apart or in different minutes that its cron expression matches |
| SchedulerHistory.DeliveredRunEnds | gcp_adapter/workflow_service.py:722-757 | a queued or running run that is delivered and executed without interruption ends completed iff its steps succeed, else failed, and nothing else changes |
| SchedulerHistory.StartsArePast | gcp_adapter/workflow_service.py:913-925 | in every history all stored runs have started by the present time |
| SchedulerHistory.AtMostOneActive | gcp_adapter/workflow_service.py:916-934 | in a history every workflow has at most one queued or running run at all times iff no start is stale |
| SchedulerHistory.OneActiveByDelivery | gcp_adapter/workflow_service.py:1013-1040 | this is so when no run is delivered twice |
| SchedulerHistory.OneActiveInSequence | gcp_adapter/workflow_service.py:722-757 | and when whoever loads a run turns to it before anything else happens |
| SchedulerHistory.OneActiveStep | gcp_adapter/workflow_service.py:722-737 | a step breaks this iff a runner starts a run that has ended since it was loaded while another is active |
| SchedulerHistory.StaleStartExample | gcp_adapter/workflow_service.py:1013-1040 | a history with two active runs |
| SchedulerHistory.StuckForGood | gcp_adapter/workflow_service.py:932-934 | as long as no one finishes an active run its workflow is not triggered again |

## Left out

- Retention tiers and `retention_apply`: with it set, sources are deleted before the read that follows (runner.py:247-272).
- `COMPACTION_SKIP_MISSING`: it filters sources per kind and so breaks row alignment and the counts.
- Parquet encoding, casts, schema conflicts, row groups and checksums: a file is a sequence of rows; alignment is null padding, and unifying schemas is the union of the columns.
- Reading manifests from JSON, and manifests without a completion time, which the collector gives the current time.
- Compacting the outputs of earlier compactions again: with several files per run, entity and kind only the last one mentioned is read, as `LastFile` says.
- Two files of a batch under one path with deletion: the second removal is the error that `Delete` reports.
- Edge types named "vertices" and graph roots with a segment "vertices" or "edges": their paths parse to something else (`PartUriParses`).
- Deleting a candidate that vanished since the plan: bulk removal ignores it.
- The de-duplication of kept manifests by path: it does not change the files they mention.
- Comparing paths as strings: path segments stand for them, in one scheme.
- Choosing audit files by age, and the audit records that the compactors write.
- Firestore's removal of expired documents, and the error codes and expiry times in documents.
- Objects that are overwritten: an object's content is fixed, so the hash of a download and the checksums that the object and the events about it carry are its own.
- The stage timings that a copy must have: both services pass the elapsed time, so they are always there. Only whether a document has pipeline metrics is kept.
- The pipeline version of copied results: lookups by checksum do not ask for it, lookups by content hash do.
- Rate limits, downloads and the pipeline itself: each is a step that may succeed, fail or never end.
- Other processes that remove files of the edge buffer while an operation runs: removals find both files.
- The rounding of ages in the buffer's statistics and of floating-point numbers in the tuner and the schedules: times are exact.
- The contents of item metadata other than time and size.
- Changing the gateway's settings while it runs.
- Cron and interval texts: a schedule is an interval, a predicate on minutes, or neither. Steps, retries and HTTP bodies are outcomes given to the run.
- Manual runs, overlapping ticks and a list of workflows with one id twice: a tick then starts both.
- Runs are named by their place in the history; the original's names are random.
- Requests, authentication, logging, metrics, metering and the dead-letter topic.
