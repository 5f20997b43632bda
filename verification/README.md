# Proofs about the code indexer, the step recorder and the plugin layer

This project models the parts of the repository in which several parties write shared state, or in which
several implementations are meant to agree, and proves what they keep.

- **Code index** (`Index*.dfy`). `IndexStore` is the store object, method by method, over one branch-index row
  and the chunk table. `IndexProtocol` is any number of jobs over that state: every database statement is one
  step, also inside the activation transaction, because the database runs it at READ COMMITTED, where the
  count, the credential read and the row update each see their own snapshot. New requests, row deletion,
  credential changes, failing statements, lost workers and redelivery by the queue happen between any two steps.
  `IndexStoreSteps` proves that a call of a store method is its protocol steps, uninterrupted; `IndexOrder` says
  in which order statements come and that a failed job can run again; `IndexAlone` and `IndexScenario` build runs,
  `IndexUndisturbed` follows every run of one job alone, `IndexCounts` the chunk count.
- **Chunking and staging** (`Text`, `Chunker`, `ChunkMeaning`, `ChunkCover`, `IndexingPipeline`). Splitting, packing
  with a carried tail, sliding windows, and the batched embedding and inserting of the result.
- **Step recorder** (`Recorder*.dfy`). The content script with its session-storage buffer, the background
  worker with its socket and its memory of forwarded ids, and the system of tabs, pages and messages.
  `RecorderMethods` proves that its events are calls of the two objects, `RecorderMeaning` what its rules mean
  in runs; `RecorderAgain` says which steps can still be emitted.
- **Layered configuration** (`EffectiveConfig`, `ScopeCascade`). The deep merge, the three hand-written
  cascade searches, and the two expansions of scope ids.
- **Timed protocols** (`CronLock`, `PluginHttp`, `RateGate`).

Code that changes state is a class or a method with a loop, with the values it leaves written out or given by a
function of the old state. What is proved about runs is about those methods: `IndexStoreSteps` ties the store to
the protocol of the jobs, `RecorderMethods` the worker and the content script to the recorder's state machine,
and `RateGate.Gate.Check` the gate to its shared model.

## What was found

Where the code does less than its comments or callers suggest, the exact condition is proved and a concrete
input or run is given.

- *Three events break the integrity of the active generation, and nothing else does*
  (`IndexIntegrity.IntegrityExactlyWhenUndisturbed`). A sweep of an earlier job that lands between the count and
  the row update of a later activation leaves that activation live with no rows
  (`IndexScenario.SweepInsideTransactionLosesRows`). A sweep that lands after a later activation deletes the live
  rows (`IndexScenario.LateSweepOccurs`). A worker lost between its activation and its sweep is delivered again,
  and the second delivery clears and rebuilds the rows of its own, live generation
  (`IndexScenario.LiveRewriteOccurs`, `IndexIntegrity.RewriteNeedsLostSweep`).
- *After such a loss the cleanup of a failed second delivery is skipped*, because its snapshot names its own
  generation as active, and only then (`IndexResidue.CleanupGuardExactly`, `IndexScenario.SkippedCleanupOccurs`).
- *Two writes rewrite the status of a running claim*: the blocked branch of a second delivery, and the
  removal of the embedding credential (`IndexClaims.ExclusionKeptExactly`); both occur
  (`IndexClaims.BlockedRewriteOccurs`, `IndexClaims.RewriteOccurs`).
- *The unchanged shortcut leaves `chunkCount` at 0*: a READY row has the right count if and only if it became
  READY by an activation (`IndexCounts.ReadyCountExactly`).
- *A negative overlap option drops text* (`ChunkCover.NegativeOverlapDropsText`).
- *A recorded step can reach two sessions*: a start clears the buffer of the current origin only, although the
  comment at content.js:635-636 says that the next start clears the buffer
  (`RecorderFlush.StepReachesTwoSessions`). It can if and only if it is still stored in, or on its way from, a
  tab that has not been closed (`RecorderAgain.ReachesTwoSessionsExactly`).
- *The cascade is not "identical to the effective-config util"* (scope-resolver.service.ts:13-14): it differs for
  empty strings and for nested objects (`ScopeCascade.CascadeAgreesExactly`). The two expansions of scope ids
  differ too (`ScopeCascade.ExpansionsAgreeExactly`), and where they agree the routing hint is empty without a
  project binding while `resolve` goes on to the install (`ScopeCascade.ResolveAndRoutingAgreeExactly`).
  The push endpoint leaves the feature's own binding out, although the comment at bindings.controller.ts:434
  lists it (`ScopeCascade.PushSkipsFeatureExactly`).
- *The rate gate bounds clock minutes, not sliding ones*: 60 seconds can let three ceilings through, two when no
  request takes longer than a millisecond (`RateGate.WindowKeepsCeilings`, `RateGate.WindowBoundReached`).
- *The plugin client never gives up because of a long Retry-After*: the header is capped before it is compared
  with the cap, so the comment at plugin.http.ts:16 does not describe the code. A permanent error always surfaces
  as a transient one (`PluginHttp.PermanentSurfacesAsTransient`). A Redis error with a network code makes the last
  interceptor throw a TypeError after 250 ms, so that a call can sleep for 90 250 ms
  (`PluginHttp.BoundsReached`, `PluginHttp.LongSleepExactly`).

## Model

| member | source | states |
|---|---|---|
| IndexStore.PrismaIndexStore.Claim | apps/indexer/src/persistence/index-store.ts:80-145 | stale row, blocked branch, winning and losing claim, each with the whole new row |
| IndexStore.PrismaIndexStore.PrepareGeneration | apps/indexer/src/persistence/index-store.ts:184-192 | exactly the rows of a current generation are gone afterwards |
| IndexStore.PrismaIndexStore.SaveChunks | apps/indexer/src/persistence/index-store.ts:194-223 | all rows of the batch or none; succeeds exactly when paths and indices are distinct, none of the rows is there yet and every chunk has a vector |
| IndexStore.PrismaIndexStore.Activate | apps/indexer/src/persistence/index-store.ts:225-299 | succeeds exactly when count, credential and generation match; the whole new row; exactly the rows of other generations are gone, and the generation has that many |
| IndexStore.PrismaIndexStore.Fail | apps/indexer/src/persistence/index-store.ts:349-375 | a current row says BLOCKED or FAILED, 0 percent and the count of the claim, and is otherwise as before; any other row is left alone |
| IndexStoreSteps.Claim | apps/indexer/src/persistence/index-store.ts:80-145 | a call is the load, the credential read and the claim, uninterrupted: same database, same ending of the worker, same context |
| IndexStoreSteps.EnsureCurrent | apps/indexer/src/persistence/index-store.ts:147-157 | at each of the five checks the worker goes on exactly when the call succeeds; otherwise it goes to the cleanup as stale |
| IndexStoreSteps.UpdateProgress | apps/indexer/src/persistence/index-store.ts:159-182 | a call with the report of any reporting statement is that statement |
| IndexStoreSteps.PrepareGeneration | apps/indexer/src/persistence/index-store.ts:184-192 | a call is the check and the delete, uninterrupted |
| IndexStoreSteps.SaveChunks | apps/indexer/src/persistence/index-store.ts:194-223 | a call is the check and the insert, uninterrupted; each error leads to its own cleanup |
| IndexStoreSteps.Activate | apps/indexer/src/persistence/index-store.ts:225-299 | a call is count, credential check, row update and sweep, uninterrupted, also when the sweep fails |
| IndexStoreSteps.CompleteUnchanged | apps/indexer/src/persistence/index-store.ts:301-347 | a call is the two statements of the shortcut; it succeeds exactly when the worker ends unchanged |
| IndexStoreSteps.CleanupGeneration | apps/indexer/src/persistence/index-store.ts:377-385 | a call is the cleanup statement, with its guard on the snapshot |
| IndexStoreSteps.Fail | apps/indexer/src/persistence/index-store.ts:349-375 | a call is the failure write |
| IndexOrder.FailedJobRunsAgain | apps/indexer/src/persistence/index-store.ts:349-375 | from every reachable state in which a worker is about to record its failure, the next delivery alone makes exactly its drafts live |
| IndexOrder.WritesFollowTheirCheck | apps/indexer/src/persistence/index-store.ts:147-157 | in every run, a worker about to clear, insert, count or sweep has, as its last statement, made the check that belongs to it, with success |
| IndexOrder.SavingReportAgrees | apps/indexer/src/indexing/indexing-service.ts:107-180 | the last report of a worker in the protocol is the last of the staging run; so are those before it (OpeningReportsAgree) |
| IndexFencing.ActiveGenerationAdvances | apps/indexer/src/persistence/index-store.ts:252-271 | over every run the active generation never exceeds the requested one and never goes back |
| IndexFencing.SupersededJobNeverWritesRow | apps/indexer/src/persistence/index-store.ts:101-113 | once a newer generation is requested or the row deleted, no step of an older job changes the row, however the run goes on |
| IndexFencing.StaysSuperseded | apps/api/src/modules/codebase-indexing/code-index-request.service.ts:51-88 | a generation that is not current never becomes current again |
| IndexClaims.ExclusionKeptExactly | apps/indexer/src/persistence/index-store.ts:86-143 | a step keeps claims exclusive and marked INDEXING if and only if it is neither the blocked-branch write nor a credential removal during a claim |
| IndexClaims.SecondClaimFails | apps/indexer/src/persistence/index-store.ts:127-143 | between a claim and the end of its job a second claim of that generation changes nothing and ends stale |
| IndexClaims.RewriteAdmitsSecondClaim | apps/api/src/modules/ai/embedding-credential.service.ts:139-165 | after either rewrite a second claim does succeed |
| IndexClaims.RewriteOccurs | apps/api/src/modules/ai/embedding-credential.service.ts:139-165 | a run without any earlier rewrite reaches a state in which both the rewrite and the second claim are possible |
| IndexClaims.BlockedRewriteOccurs | apps/indexer/src/persistence/index-store.ts:85-125 | the same for the blocked branch, reached by a third delivery |
| IndexIntegrity.CountProvesExactly | apps/indexer/src/persistence/index-store.ts:229-249 | rows that come from a list, as many as the list is long, are the list: the count check suffices |
| IndexIntegrity.IntegrityKeptExactly | apps/indexer/src/persistence/index-store.ts:252-298 | a step keeps the active rows whole if and only if it is no late sweep, no activation swept after its count, and no rewrite of live rows by a redelivered job |
| IndexIntegrity.IntegrityExactlyWhenUndisturbed | apps/indexer/src/persistence/index-store.ts:184-299 | over whole runs with any number of workers, any of which may be lost at any point: the active generation is always stored exactly as staged if and only if none of the three events occurs |
| IndexIntegrity.RewriteNeedsLostSweep | apps/indexer/src/queue/code-index.worker.ts:33-35 | live rows are rewritten only in runs in which a worker was lost between activation and sweep |
| IndexSchedule.ActivationIsWhole | apps/indexer/src/persistence/index-store.ts:229-249 | sweeps outside the transaction can only make an activation fail: one that commits has every row, wherever workers are lost |
| IndexSchedule.ScheduledRunKeepsIntegrity | apps/indexer/src/persistence/index-store.ts:287-298 | atomic activations, prompt sweeps and no worker lost before its sweep give integrity in every state |
| IndexScenario.UndisturbedJobActivates | apps/indexer/src/indexing/indexing-service.ts:59-193 | from every reachable state with a claimable job, forced or not, with sweeps due or not: without a fault that job alone can make exactly its drafts live and leave nothing else, or, if head and embedding configuration are those on the row, leave everything in place |
| IndexUndisturbed.UndisturbedJobEnds | apps/indexer/src/indexing/indexing-service.ts:59-193 | and it cannot end otherwise: every fault-free continuation by that job alone, in any batches and with any checks and reports in between, ends so |
| IndexScenario.SweepInsideTransactionLosesRows | apps/indexer/src/persistence/index-store.ts:287-293 | for any drafts, a run with prompt sweeps whose active generation has no rows |
| IndexScenario.LateSweepOccurs | apps/indexer/src/persistence/index-store.ts:287-298 | for any drafts, a run in which an older sweep is still due when the second generation is live |
| IndexScenario.LiveRewriteOccurs | apps/indexer/src/queue/code-index.worker.ts:33-35 | for any drafts, a run in which a redelivered job is about to delete the live rows of its own generation |
| IndexScenario.SkippedCleanupOccurs | apps/indexer/src/persistence/index-store.ts:377-385 | for any drafts, a run in which a failed second delivery skips its cleanup |
| IndexProvenance.RowNamesActiveBuild | apps/indexer/src/persistence/index-store.ts:252-271 | commit, fingerprint and dimension on the row are those the active generation was built from, in every state of every run of a disciplined queue, with workers lost or not |
| IndexProvenance.StepKeepsProvenance | apps/indexer/src/persistence/index-store.ts:301-332 | kept by every event, also by the shortcut that works from a snapshot read before the claim |
| IndexCounts.ReadyCountRightOrZero | apps/indexer/src/indexing/indexing-service.ts:66-82 | on every reachable READY row the count is 0 or the size of the active generation, which is not 0 |
| IndexCounts.ReadyCountExactly | apps/indexer/src/persistence/index-store.ts:252-271 | a statement that changes the row and leaves it READY gives the right count if and only if it is an activation, and 0 if and only if it completes the shortcut; no other event touches the count of a READY row |
| IndexResidue.OnlyActiveRowsAtRest | apps/indexer/src/indexing/indexing-service.ts:195-207 | with no job running, and sweeps and cleanups having succeeded, only active rows are left |
| IndexResidue.NoCleanupAfterActivation | apps/indexer/src/persistence/index-store.ts:377-385 | a call of process that has committed its activation never cleans up or fails, however the run goes on |
| IndexResidue.CleanupNeverSkipped | apps/indexer/src/persistence/index-store.ts:378-378 | without a worker lost before its sweep no cleanup is skipped and no failure written for an activated generation |
| IndexResidue.CleanupGuardExactly | apps/indexer/src/persistence/index-store.ts:378-378 | the guard fires if and only if the generation was activated before, and a cleanup never removes live rows |
| Chunker.LanguageSections | apps/indexer/src/chunking/chunker.ts:82-95 | the loop computes the sections |
| Chunker.WindowText | apps/indexer/src/chunking/chunker.ts:97-111 | the loop computes the trimmed, non-empty windows |
| Chunker.ChunkDocument | apps/indexer/src/chunking/chunker.ts:41-80 | the packing loop computes the drafts of a file, each with symbol, selectors and routes of its own text |
| Chunker.SortKeepsOrder | apps/indexer/src/chunking/chunker.ts:35-38 | files that arrive in path order are chunked in that order |
| ChunkMeaning.SortedInOrder | apps/indexer/src/chunking/chunker.ts:35-38 | files are chunked in path order, each once |
| ChunkMeaning.PackingLaw | apps/indexer/src/chunking/chunker.ts:52-70 | a section that fits goes behind what is collected; one that does not closes that chunk, and the next begins with its tail, a newline and the section; a long one is windowed |
| ChunkMeaning.TailByPosition | apps/indexer/src/chunking/chunker.ts:113-118 | the tail is the trimmed text after the first newline among the last `overlap` characters, or all of them |
| ChunkMeaning.ChunksFollowLaw | apps/indexer/src/chunking/chunker.ts:41-95 | the chunks of every file are those of its trimmed, non-blank sections, for which the packing law holds |
| ChunkMeaning.WindowEndsAtNewline | apps/indexer/src/chunking/chunker.ts:101-105 | a window ends before the last newline in its second half, or at the target when there is none |
| ChunkMeaning.TrimExactly | apps/indexer/src/chunking/chunker.ts:46-46 | trimming cuts all whitespace off both ends and nothing else |
| ChunkMeaning.LinesJoin | apps/indexer/src/chunking/chunker.ts:83-91 | splitting into lines and joining gives the text back |
| ChunkMeaning.NormalizeByParts | apps/indexer/src/chunking/chunker.ts:46-46 | newlines are normalised piece by piece, a carriage return with its newline being one piece |
| ChunkMeaning.OptionsDecide | apps/indexer/src/chunking/chunker.ts:31-33 | default target and overlap, the least target, and the overlap capped at half the target |
| ChunkCover.SectionsInk | apps/indexer/src/chunking/chunker.ts:82-95 | sectioning keeps all non-whitespace text for any boundary predicate |
| ChunkCover.ChunksCoverFile | apps/indexer/src/chunking/chunker.ts:41-118 | the non-whitespace text of the chunks is a gap-free cover of the file by contiguous slices, for any boundaries and overlap |
| ChunkCover.ChunkSizes | apps/indexer/src/chunking/chunker.ts:52-70 | no chunk exceeds target + overlap + 1, or target when there is no overlap |
| ChunkCover.SizeBoundReached | apps/indexer/src/chunking/chunker.ts:113-118 | that bound is reached for every target and overlap |
| ChunkCover.WindowsTile | apps/indexer/src/chunking/chunker.ts:97-111 | windows cover the section, are at most target long, have rising ends and overlap by exactly the overlap |
| ChunkCover.WindowCount | apps/indexer/src/chunking/chunker.ts:97-111 | how many windows there are at most |
| ChunkCover.WindowTextsAreWindows | apps/indexer/src/chunking/chunker.ts:97-111 | what the loop returns are those windows, trimmed, without the blank ones |
| ChunkCover.NegativeOverlapDropsText | apps/indexer/src/chunking/chunker.ts:31-33 | for every target and negative overlap, files whose chunks leave text out |
| IndexingPipeline.IndexRun.Process | apps/indexer/src/indexing/indexing-service.ts:107-180 | on success every check found the generation current, and there were exactly as many as there are reports, files, embedding calls and inserts, and four more; the archive came through, all files were read in order, and the batches are the drafts of all files, fully inserted; on failure what was sent and stored is a prefix of that, the error names what failed, and nothing follows a failed check; every report, read, embedding call and insert comes right after a check |
| IndexingPipeline.IndexRun.EmbedAndSave | apps/indexer/src/indexing/indexing-service.ts:253-281 | one batch: all of it inserted slice by slice, or a prefix; nothing when the reply is not one vector of the right dimension for each draft |
| IndexingPipeline.BatchedIsAllAtOnce | apps/indexer/src/indexing/indexing-service.ts:143-173 | what is saved is one call of the chunker on all sorted files, each draft with its own vector, within all size limits |
| IndexingPipeline.FileByFileIsAllAtOnce | apps/indexer/src/chunking/chunker.ts:27-39 | chunking file by file is chunking the sorted archive at once |
| IndexingPipeline.SavedInOrder | apps/indexer/src/indexing/indexing-service.ts:270-279 | batching and slicing never pair a draft with another draft's vector |
| IndexingPipeline.CutKeepsAll | apps/indexer/src/indexing/indexing-service.ts:154-157 | batches lose nothing, keep the order, and all but the last are full |
| IndexingPipeline.BatchSizeIsLargest | apps/indexer/src/indexing/indexing-service.ts:283-290 | the batch size is the largest that configuration and provider both allow |
| IndexingPipeline.DraftKeysDistinct | apps/indexer/src/persistence/index-store.ts:199-223 | files with distinct paths never give two drafts for one key of the unique index |
| IndexingPipeline.RunReportsGrow | apps/indexer/src/indexing/indexing-service.ts:158-168 | percentage, files and chunk count reported never go back |
| RecorderBackground.Background.OnStep | apps/recorder-extension/background.js:284-320 | the five verdicts on a step in their order, the reply, what is emitted and remembered; over a socket that is there, connected and joined |
| RecorderBackground.Background.Disconnect | apps/recorder-extension/background.js:171-185 | forgets the whole pairing and stops every armed tab |
| RecorderBackground.Background.OnControl | apps/recorder-extension/background.js:111-122 | pause, resume and stop; stop also leaves the worker paused |
| RecorderBackground.Background.DisarmTab | apps/recorder-extension/background.js:264-279 | removes exactly that tab and tells it if the popup asked |
| RecorderContent.ContentScript.OnAck | apps/recorder-extension/content.js:368-370 | a confirmation removes the steps of that id from the storage |
| RecorderContent.ContentScript.FlushBuffer | apps/recorder-extension/content.js:393-398 | sends the whole buffer in order and keeps it |
| RecorderContent.ContentScript.Emit | apps/recorder-extension/content.js:402-426 | a captured step is stored before it is sent; nothing while inactive or paused |
| RecorderContent.ContentScript.Activate | apps/recorder-extension/content.js:428-460 | restores the counter, re-sends the buffer, records the page; nothing when already active |
| RecorderContent.ContentScript.OnControl | apps/recorder-extension/content.js:641-664 | start wipes this origin's storage first |
| RecorderMethods.HandleStep | apps/recorder-extension/background.js:284-320 | the event of the state machine is the call of the worker: its memory, its reply, its emission |
| RecorderMethods.Captures | apps/recorder-extension/content.js:402-426 | likewise a capture is the call of the content script; so are the other events of pages and worker |
| RecorderMeaning.EmissionNeedsSocket | apps/recorder-extension/background.js:303-317 | every emission of every run was made over a socket that was there, connected and joined, from an armed tab, unpaused, with an id not yet remembered |
| RecorderMeaning.DeliveryDecides | apps/recorder-extension/background.js:284-320 | the five fates of a delivered step; only one that meets no ready socket gets no confirmation, and stays stored |
| RecorderMeaning.RecordsOnlyWhenArmed | apps/recorder-extension/background.js:322-327 | in every run a page records only if its tab has been armed before |
| RecorderMeaning.IndicesGoOn | apps/recorder-extension/content.js:428-460 | a page that loads where an earlier one recorded goes on with the saved index, keeps what is stored and sends it again |
| RecorderMeaning.PauseStopsCapture | apps/recorder-extension/content.js:402-426 | a paused page captures nothing; a resumed one captures with the next index |
| RecorderDelivery.NoStepIsLost | apps/recorder-extension/content.js:354-426 | in every reachable state a captured step is stored where it was captured, or emitted, dropped on arrival, wiped by a start, or its tab closed |
| RecorderDelivery.LossIsDeliberate | apps/recorder-extension/background.js:284-304 | a step is wiped only by a start from the popup reaching its page and dropped only when unarmed or paused |
| RecorderDelivery.AtMostOncePerPairing | apps/recorder-extension/background.js:292-317 | between two disconnects no step id is emitted twice, and every emitted step was captured as it is |
| RecorderDelivery.StepKeepsInv | apps/recorder-extension/background.js:284-327 | every event of tabs, worker, socket and messages keeps the invariant behind these |
| RecorderDelivery.RunKeepsDistinct | apps/recorder-extension/content.js:410-421 | a stored step is stored once |
| RecorderFlush.FlushDrains | apps/recorder-extension/content.js:380-398 | from any reachable state with the tab armed, unpaused and joined, one flush with its replies, interleaved in any way, empties the buffer and emits exactly the steps not yet emitted in this pairing, in order |
| RecorderFlush.StepReachesTwoSessions | apps/recorder-extension/content.js:371-376 | a run that emits one step in two pairings |
| RecorderAgain.CanBeEmittedExactly | apps/recorder-extension/content.js:380-398 | from any reachable state, some continuation emits a captured step if and only if it is stored in, or on its way from, a tab that is open |
| RecorderAgain.ReachesTwoSessionsExactly | apps/recorder-extension/content.js:371-376 | an emitted step can be emitted again in a later pairing under exactly that condition |
| EffectiveConfig.MergeLayer | apps/api/src/plugins/effective-config.ts:32-67 | the key loop and its recursion compute the merge, in any key order |
| EffectiveConfig.EffectiveConfig | apps/api/src/plugins/effective-config.ts:19-30 | the fold over the reversed layers computes the merge of all of them |
| EffectiveConfig.CloneIsEqual | apps/api/src/plugins/effective-config.ts:76-84 | a deep clone of a JSON value equals it |
| EffectiveConfig.LeafOfTwo | apps/api/src/plugins/effective-config.ts:32-67 | each leaf of a merge comes from the upper value, or from the base where the upper one is silent |
| EffectiveConfig.LeafCharacterised | apps/api/src/plugins/effective-config.ts:1-30 | for any number of layers: a leaf is in the result if and only if it is the one of the most specific layer that holds anything on the way to its path |
| EffectiveConfig.SilentMeaning | apps/api/src/plugins/effective-config.ts:8-13 | silent means nothing at the path and no leaf on the way to it |
| EffectiveConfig.OverTwice | apps/api/src/plugins/effective-config.ts:32-67 | merging a layer twice is merging it once |
| EffectiveConfig.NullLayersAreNoOps | apps/api/src/plugins/effective-config.ts:36-36 | absent layers change nothing, wherever they stand |
| ScopeCascade.Resolve | apps/api/src/plugins/scope-resolver.service.ts:65-73 | the most-specific-first fold gives every key the value of the first layer that sets it |
| ScopeCascade.PickField | apps/api/src/plugins/bindings.controller.ts:344-355 | the same value, with the layer it really comes from |
| ScopeCascade.PushConfig | apps/api/src/plugins/bindings.controller.ts:447-453 | the same value over module, project and install |
| ScopeCascade.ResolveScope | apps/api/src/plugins/scope-resolver.service.ts:31-74 | expansion, lookup of the bindings that are there and the fold: each key has its first set value over them |
| ScopeCascade.RouteField | apps/api/src/plugins/bindings.controller.ts:298-355 | the first set value over the four layers, a missing one being null; nothing without a project binding |
| ScopeCascade.PushField | apps/api/src/plugins/bindings.controller.ts:425-453 | gives up exactly when the project has no binding; otherwise the first set value |
| ScopeCascade.MissingIsNull | apps/api/src/plugins/scope-resolver.service.ts:44-63 | leaving a missing binding out and looking through a null one give every key the same value, in every pattern of presence |
| ScopeCascade.ResolveAndRoutingAgreeExactly | apps/api/src/plugins/bindings.controller.ts:317-355 | where the expansions agree, both give a key one value if and only if there is a project binding or no layer sets the key |
| ScopeCascade.ResolveAndPushAgree | apps/api/src/plugins/bindings.controller.ts:430-453 | the push endpoint finds what resolve finds for the feature's module |
| ScopeCascade.PushSkipsFeatureExactly | apps/api/src/plugins/bindings.controller.ts:434-453 | for the feature itself both find one value if and only if the feature's binding sets nothing for the key, or the same |
| ScopeCascade.CascadeAgreesExactly | apps/api/src/plugins/scope-resolver.service.ts:13-15 | for each key search and deep merge agree if and only if the first entry is no empty string and no object that would be filled from below |
| ScopeCascade.LeavesAgreeExactly | apps/api/src/plugins/effective-config.ts:19-67 | the value the search finds has the leaves of the merge if and only if the first entry is no empty string and, where it is silent, no lower layer that has the say holds a leaf |
| ScopeCascade.FlatConfigsAgree | apps/api/src/plugins/scope-resolver.service.ts:65-73 | flat settings without empty strings always agree |
| ScopeCascade.EmptyStringDiffers | apps/api/src/plugins/scope-resolver.service.ts:70-70 | an empty string is skipped by the search and kept by the merge |
| ScopeCascade.NestedObjectDiffers | apps/api/src/plugins/effective-config.ts:49-61 | a nested object is filled by the merge only |
| ScopeCascade.ExpansionsAgreeExactly | apps/api/src/plugins/bindings.controller.ts:298-315 | both lead to the same bindings unless an existing feature comes with an empty module id, or with another project's module and no project |
| ScopeCascade.ExpansionMeaning | apps/api/src/plugins/scope-resolver.service.ts:81-123 | for every scope: an issue counts only alone and replaces all ids, a defect gives the project only, and what is open comes from the feature, then from the module |
| ScopeCascade.IssueScopeMeaning | apps/api/src/plugins/scope-resolver.service.ts:91-101 | a scope of one known issue is searched with the bindings of the issue's own feature, module and project |
| ScopeCascade.ExpansionSettles | apps/api/src/plugins/scope-resolver.service.ts:76-123 | given ids are kept, and a second expansion adds nothing |
| CronLock.Redis.SetIfAbsent | apps/api/src/common/cron-lock.ts:44-45 | sets the key exactly when it is not alive |
| CronLock.Redis.CompareAndDelete | apps/api/src/common/cron-lock.ts:29-30 | deletes the key exactly when it holds the token |
| CronLock.OthersNeverUnlock | apps/api/src/common/cron-lock.ts:46-51 | over whole runs: whatever other calls do, late releases and errors included, a protected call stays protected until its time to live has passed |
| CronLock.ProtectedBodiesExclude | apps/api/src/common/cron-lock.ts:82-105 | in every run, with errors, evictions and overruns: two calls within their time to live whose key Redis still has are one call |
| CronLock.BodiesOverlapOnlyPastTtl | apps/api/src/common/cron-lock.ts:82-105 | without Redis errors bodies overlap only while one outlives its time to live |
| CronLock.KeepsOthersOutExactly | apps/api/src/common/cron-lock.ts:45-51 | a body under the lock holds the key if and only if it is protected |
| CronLock.FreeKeyAdmitsAnother | apps/api/src/common/cron-lock.ts:44-46 | once the key is gone another body starts at once beside all others |
| CronLock.HeldKeyTurnsAway | apps/api/src/common/cron-lock.ts:97-97 | while the key stands a new call never starts its body |
| CronLock.ReleaseAdmitsNext | apps/api/src/common/cron-lock.ts:98-102 | a body that ends under its lock gives the key back, and the next call starts at once |
| CronLock.ErrorRunsUnlocked | apps/api/src/common/cron-lock.ts:89-96 | after a Redis error the body runs whoever holds the lock |
| PluginHttp.ParseRetryAfterMs | apps/api/src/plugins/plugin.http.ts:148-157 | never above the cap |
| PluginHttp.PluginCall.Request | apps/api/src/plugins/plugin.http.ts:50-139 | gate, request and both interceptors with their re-requests compute the trace of a call |
| PluginHttp.PluginCall.Classify | apps/api/src/plugins/plugin.http.ts:69-116 | the first response interceptor, status by status, permanent errors included |
| PluginHttp.CallBounds | apps/api/src/plugins/plugin.http.ts:36-38 | at most 4 requests and 90 seconds of sleep, plus 250 ms only after a Redis error with a network code |
| PluginHttp.BoundsReached | apps/api/src/plugins/plugin.http.ts:84-96 | 4 requests, 90 000 ms, and 90 250 ms when Redis fails before the fourth request |
| PluginHttp.LongSleepExactly | apps/api/src/plugins/plugin.http.ts:118-131 | a call sleeps longer than 90 seconds if and only if three replies send it back after nearly the longest pauses and Redis then fails with a network code |
| PluginHttp.PermanentSurfacesAsTransient | apps/api/src/plugins/plugin.http.ts:109-137 | after any number of retries, a reply that is a permanent error ends the call with a transient one |
| PluginHttp.NeverPermanent | apps/api/src/plugins/plugin.http.ts:132-138 | no call ends in a permanent error, whatever is answered |
| PluginHttp.CallSucceedsExactly | apps/api/src/plugins/plugin.http.ts:69-139 | a call succeeds if and only if one of the first four replies does and all before it were retryable |
| PluginHttp.CallMeaning | apps/api/src/plugins/plugin.http.ts:50-157 | every call: which attempt is the last, the outcome by its status, gate or failure, the number of requests, and every wait by value |
| RateGate.Gate.Check | apps/api/src/plugins/plugin.http.ts:50-66 | one passage through the gate is the steps of the shared model; counter, expiry and verdict by value |
| RateGate.MinuteKeepsCeiling | apps/api/src/plugins/plugin.http.ts:52-63 | any number of requests: a minute lets no more than its ceiling, at most 0.9 of the rate, through when every request is through the gate within five seconds of reading the clock |
| RateGate.WindowKeepsCeilings | apps/api/src/plugins/plugin.http.ts:52-63 | in any 60 seconds at most three ceilings leave the gate, two when no request takes longer than a millisecond |
| RateGate.LateRequestExceedsCeiling | apps/api/src/plugins/plugin.http.ts:56-56 | with any longer delay, for every ceiling, an expired counter starts again within its minute and one request too many passes |
| RateGate.WindowBoundReached | apps/api/src/plugins/plugin.http.ts:53-54 | that bound is reached for every ceiling and every delay |

## Assumptions

- Queue: a generation is delivered to one job at a time, and again when that job threw or its worker was lost
  (`DisciplinedRun`); code-index.worker.ts:33-35 lets a stalled job be handed out again. The fencing and claim
  theorems do not need this.
- The request service, the credential service and the deletion of a repository are steps of the environment
  with the row writes of code-index-request.service.ts:51-133, embedding-credential.service.ts:139-165 and
  project-repos.service.ts:224-227. The model starts without a row, shown as a deleted row of generation 0.
- The configuration hash covers the vector dimension and does not collide; embeddings of a text do not depend
  on its batch (`Pointwise`, used by the two lemmas that name each draft's vector).
- Batch sizes are positive, as config.ts:37-44 enforces. The file list is sorted with distinct paths.
- Script nonces and lock tokens are unique. The browser does not reuse tab ids, and the popup arms open tabs only.
- One clock for all replicas in `RateGate`, where a bound on the time from reading the clock to leaving the gate
  is a parameter; in `CronLock` the clock is that of Redis.

## Left out

- How archives are downloaded, extracted and read: whether each succeeds is a parameter. File selection, text
  decoding, `progressEvent` publishing, secret scrubbing and error texts.
- `projectRepo` status mirroring: the blocked path writes it without a generation fence, so little holds of it.
- A worker that the queue takes for lost but that goes on: a delivery while the first one still runs is outside
  `DisciplinedRun`; only the fencing and claim theorems cover it.
- How often the queue hands out a stalled job: any number of times here, once in the configuration.
- Lost acknowledgements of a commit: a statement that fails has no effect, one that succeeds is seen to succeed.
- Contents of regular expressions: boundaries, symbols, selectors and routes are arbitrary functions.
- Several branch indexes: one row is modelled, and the statements of different rows do not touch each other.
- Floating point: percentages, the rate ceiling and sleeps are real numbers.
- IndexingPipeline.IndexRun.Process: starts after the claim and ends before activation, which the protocol model covers; the unchanged shortcut is in the protocol model only.
- IndexStore.PrismaIndexStore.Activate: shows the sequential meaning of the transaction; its interleaving with other jobs is in the protocol model.
- RecorderDelivery.NoStepIsLost: an input that is still debounced when the page goes away has not been captured and is not covered.
- RecorderContent.ContentScript.Emit: a throwing sendMessage is modelled as a lost message followed by the script turning itself off.
- Selector testing, status broadcast, timers of the grace window (any moment is allowed), storage quota failures and tab duplication in the recorder.
- EffectiveConfig.MergeLayer: values are JSON; class instances, inherited properties and aliasing of the result are not modelled.
- Associativity of the merge: false when a path holds a primitive in one layer and an object in another.
- Routing fields other than the searched settings, and plugin enablement and health checks.
- CronLock.ProtectedBodiesExclude: says that bodies do not overlap, not that a tick happens once.
- PluginHttp.PluginCall.Request: headers other than Retry-After, request bodies and timeouts; a timeout is a network failure.
- React components, storage providers, email, sync, webhooks, seeds and configuration loading: plumbing or single decisions.
