# VisionQC verification model

VisionQC inspects parts with an anomaly model, uploads images from an edge gateway through an
at-least-once queue, routes each inspection by policy to release or to human review, drives external
quality systems through an outbox, and guards model releases with a qualification lifecycle. This
project models five of its cores in Dafny and proves what they promise over every input and every run.

`dafny verify dfyconfig.toml` checks everything.

| file | what it models |
|---|---|
| `Ledger.dfy` | the gateway's SQLite queue: one function and one class method per SQL method, and the ledger invariant |
| `Gateway.dfy` | gateway, network, crash and backend insert-or-replay as one step system with any interleaving |
| `Runtime.dfy`, `Watcher.dfy` | the gateway process (scan, upload, backoff) and the stable-file watcher |
| `Connector.dfy` | the idempotent external store and the retry loop in front of it |
| `Domain.dfy`, `Policy.dfy` | the inspection state machine; threshold policies, their resolution and routing |
| `Workflow.dfy`, `WorkflowSafety.dfy`, `WorkflowRuns.dfy`, `WorkflowEntries.dfy`, `Service.dfy` | the quality workflow as transactions over tables and connectors; its invariant; theorems over runs; which call leads to which status; the service and worker as a class |
| `Review.dfy` | claim and decision of a review task as interleaved read-check-update sessions |
| `Calibration.dfy` | threshold selection, its optimality over all real thresholds, the safety margin; the protocol B thresholds |
| `Splits.dfy` | stable partitions, the protocol B split, the leakage check |
| `Gates.dfy`, `Evidence.dfy` | the pilot gates; evidence packages, their writer and both verifiers |
| `Qualification.dfy`, `QualificationRuns.dfy` | datasets and the qualification lifecycle; theorems over runs; the service as a class |

Conventions. A method that changes state is proved equal to a function of the old state, and the
properties are lemmas about those functions and about runs of them. SHA-256 is an injective function:
a digest is kept as what it was taken of. Clocks, answers of the network, the model's score, the order
in which the worker finds events and everything other programs write to disk are arguments, so a
statement holds for all of them. Each SQL method is one atomic step and each service call one
transaction; the backend commits before it replies; effects of a connector survive a rollback. A crash
between a connector call and the commit is an attempt that breaks off after reaching the store.

## Results that go against the text around the code

Where comments, names or design intent and code disagree, the code is modelled, and the exact
condition is proved.

- `Gateway.MovedBytesAreRecordedIff`: archiving moves whatever is at the path by then. Whatever
  happens between a scan's read and its move, the bytes that leave the watch root are the bytes it read
  exactly when the last write to the path in between, if there was one, wrote those bytes.
  `Gateway.TornReadRecordsOldBytes` is the worst case: a file replaced between the read and the
  fingerprint is moved away unrecorded, under a row with its source and the old bytes.
- `Watcher.ResetReemitsIff`: a reset is said to re-arm a path for the next unchanged-size window. The
  very next look emits again exactly when it finds the stat that was emitted, in the window already
  measured; only a file that has changed since waits for a window of its own.
- `Runtime.DelayBounds`: the 3600 s cap of the retry delay is never reached, 2^10 = 1024 s is.
- `Calibration.ReviewIsOptimalIff`: the review threshold is optimal among all real thresholds below 1
  exactly when the false-accept bound is below 1 or some score is 1.
- `Calibration.ScoreReviewIsOptimalIff`: the protocol B search, which has no midpoints, is optimal
  exactly when nothing scores below 1 or letting all of that through would break the bound.
- `Calibration.ThresholdsAreOrdered`: the code that repairs coinciding legacy thresholds is dead.
- `Review.StealsIffVersionGuessed`: a task claimed by one inspector can be completed by another exactly
  when a session that found it unassigned sent the version after the one it had read.
- `Evidence.UnsafePathNeverReported`: the unsafe-path refusal cannot happen, since the declared
  inventory has by then been found equal to the directory listing.
- `QualificationRuns.IntactEvidenceIsEvaluatedIffEarned`: EVALUATED is meant for evidence that passed its
  gates. The evaluation takes gate decision and approval from the release decision, which no digest
  covers, so that holds exactly as long as the release decision is the one written;
  `QualificationRuns.ResealedEvidenceIsEvaluated` is a draft that becomes EVALUATED otherwise. Approval
  does not depend on it, since it asks for the recorded gates.
- `QualificationRuns.ProductionReadyIff`: the production gate asks for a bare `GO`, so an item passes it
  exactly when it is active and the summary it was registered with says `GO`. The writer scopes every
  status it writes, so no item registered with a written package passes
  (`QualificationRuns.WrittenEvidenceNeverOpensProduction`).

## Model

| member | source | states |
|---|---|---|
| Ledger.EnqueueKeepsLedger | edge-gateway/src/edge_gateway/queue.py:178-283 | an accepted file leaves the ledger sound: unique sources, one non-duplicate row for each tenant and key, duplicates naming an earlier non-duplicate; no row is changed and the source is recorded |
| Ledger.RejectionKeepsLedger | edge-gateway/src/edge_gateway/queue.py:285-338 | a rejection is recorded once for each source and keeps the ledger sound |
| Ledger.RecoverKeepsLedger | edge-gateway/src/edge_gateway/queue.py:340-353 | recovery leaves no row in flight and touches no terminal row |
| Ledger.ClaimKeepsLedger | edge-gateway/src/edge_gateway/queue.py:355-385 | the claimed row is never UPLOADED, DUPLICATE or REJECTED and always has its spool file and key |
| Ledger.MarksKeepLedger | edge-gateway/src/edge_gateway/queue.py:387-438 | marking one's own claim uploaded or failed keeps the ledger |
| Ledger.RetryKeepsLedger | edge-gateway/src/edge_gateway/queue.py:440-456 | a manual retry makes exactly a failed row claimable at once and cannot revive any other |
| Ledger.EnqueueDecides | edge-gateway/src/edge_gateway/queue.py:178-283 | a known source adds nothing; an unknown one adds one row about exactly its file, claimable from now on, or never when its tenant and key are taken, and then naming a row that holds them |
| Ledger.RejectionDecides | edge-gateway/src/edge_gateway/queue.py:285-338 | a rejection of an unknown source adds one row with its code that is never claimable |
| Ledger.RecoveryDecides | edge-gateway/src/edge_gateway/queue.py:340-353 | exactly the rows in flight become claimable, from now on, with their attempts kept |
| Ledger.ClaimDecides | edge-gateway/src/edge_gateway/queue.py:374-385 | a claimed row cannot be claimed again and counts the attempt |
| Ledger.FailureDecides | edge-gateway/src/edge_gateway/queue.py:404-438 | a failed row is claimable at t exactly when it is retryable and t is not before the end of the delay |
| Ledger.DepthPartitionsLedger | edge-gateway/src/edge_gateway/queue.py:465-491 | the reported depth and the terminal counts add up to all rows |
| Ledger.DepthZeroIffDrained | edge-gateway/src/edge_gateway/queue.py:465-491 | depth is zero exactly when every row is terminal |
| Ledger.FindDue | edge-gateway/src/edge_gateway/queue.py:355-372 | the due row chosen is least by creation time, then id, among all due rows |
| Ledger.QueueStore.EnqueueItem | edge-gateway/src/edge_gateway/queue.py:178-283 | the table after the statement; a new row is about the item and claimable at once, or a duplicate that never is |
| Ledger.QueueStore.RecordRejectionOf | edge-gateway/src/edge_gateway/queue.py:285-338 | the table after the statement; a new row carries the code and is never claimable |
| Ledger.QueueStore.RecoverUploads | edge-gateway/src/edge_gateway/queue.py:340-353 | every in-flight row becomes claimable from this moment on; the result counts them |
| Ledger.QueueStore.ClaimDue | edge-gateway/src/edge_gateway/queue.py:355-385 | the least due row is marked in flight with one more attempt and cannot be claimed again, or nothing changes |
| Ledger.QueueStore.SetUploaded | edge-gateway/src/edge_gateway/queue.py:387-402 | the row after an upload: never claimable again |
| Ledger.QueueStore.SetFailed | edge-gateway/src/edge_gateway/queue.py:404-438 | the row after a failure: claimable exactly from the end of its delay when retryable, otherwise never |
| Ledger.QueueStore.RetryItem | edge-gateway/src/edge_gateway/queue.py:440-456 | unknown ids are an error, a failed row is claimable from now on, any other is left alone |
| Ledger.QueueStore.Depth | edge-gateway/src/edge_gateway/queue.py:465-491 | the number of rows that still wait for an upload |
| Gateway.FormRoundTrip | backend/app/services.py:1315-1351 | the fields the backend reads from the mapped form, stripped, blanks missing and the source defaulted, are those the gateway's context means |
| Gateway.StripMeaning | backend/app/services.py:1315-1351 | stripping removes the white space at both ends, all of it and nothing else |
| Gateway.NormalMeaning | backend/app/services.py:1315-1351 | a field is read exactly when it is not blank, and the source always is, as "api" when it is missing |
| Gateway.EventKeeps | edge-gateway/src/edge_gateway/runtime.py:241-368 | the invariant of gateway, spool, requests and inspections is kept by every step of every party, and nothing that counts is taken back |
| Gateway.ExactlyOnceUpload | backend/app/services.py:1419-1472 | under every interleaving of scans, claims, lost replies, crashes, restarts and retries: one inspection for each tenant and key, every UPLOADED row names the inspection of its own key and content, rows never share one, and no edge key is ever answered with Conflict |
| Gateway.EdgeKeysReplay | backend/app/services.py:1419-1472 | equal deterministic keys have equal request fingerprints, so a taken key is replayed |
| Gateway.AnswersAreHonest | backend/app/services.py:1419-1517 | over every run, Created and Replayed name an inspection of the request's tenant, key, bytes and fields, and Conflict is said only when that inspection was made of others |
| Gateway.TakenKeyIsAnswered | backend/app/services.py:1419-1472 | a request under a taken key inserts nothing and is replayed exactly when bytes and fields are those of the inspection, otherwise refused |
| Gateway.NewKeyIsInserted | backend/app/services.py:1393-1517 | a request under a new key makes exactly one inspection, of its own bytes and fields |
| Gateway.UploadedRowHasItsInspection | edge-gateway/src/edge_gateway/uploader.py:186-205 | an uploaded row's inspection has the row's tenant, key, image and context |
| Gateway.NoAcceptedImageIsLost | edge-gateway/src/edge_gateway/runtime.py:206-284 | at every point of every run each accepted row, or the primary it duplicates, has a spool file with exactly its content; whatever left the watch root has the row of its very source, holding the digest of the bytes read when the moving scan made it; SPOOL_MISSING never occurs |
| Gateway.SourceLeavesAfterItsRow | edge-gateway/src/edge_gateway/runtime.py:244-318 | a path leaves the watch root in no other step than the move of a scan whose own source is already in the ledger |
| Gateway.AcceptedRowIsRetained | edge-gateway/src/edge_gateway/runtime.py:244-284 | the same for one row of any sound state |
| Gateway.ClaimedRowIsReadable | edge-gateway/src/edge_gateway/runtime.py:329-345 | a claimed row's spool file holds the bytes its key was computed from |
| Gateway.SpoolNeverCollides | edge-gateway/src/edge_gateway/runtime.py:206-221 | the spool collision error cannot happen |
| Gateway.EnqueueCommitsTheFile | edge-gateway/src/edge_gateway/runtime.py:262-283 | the enqueue of a spooled file commits one row about its tenant, source, bytes and context under the key of exactly those and the pack, claimable at once with its bytes in the spool, or a duplicate |
| Gateway.RejectCommitsTheCode | edge-gateway/src/edge_gateway/runtime.py:295-318 | a rejection commits one row with its code that is never claimed |
| Gateway.NothingIsTakenBack | edge-gateway/src/edge_gateway/queue.py:340-456 | terminal rows, keys, duplicates, spool files and inspections survive everything that follows |
| Gateway.HealthyCycleUploads | edge-gateway/src/edge_gateway/runtime.py:329-368 | after any history, one claim with the backend reachable ends UPLOADED, by creation or by replay |
| Gateway.AnswerAwaits | backend/app/services.py:1393-1517 | in such a cycle the answer is Created or Replayed, never a refusal |
| Gateway.AnswerDecides | edge-gateway/src/edge_gateway/runtime.py:343-368 | on an answer only its row changes: UPLOADED under the inspection named; after a server error or an answer without one claimable exactly from the end of the delay; after a refusal never |
| Gateway.LossDecides | edge-gateway/src/edge_gateway/runtime.py:343-355 | a lost reply leaves only its row changed, claimable exactly from the end of the delay |
| Gateway.LocalFailureDecides | edge-gateway/src/edge_gateway/runtime.py:343-361 | a failure before anything was sent leaves its row claimable after the delay, or never |
| Gateway.HealthyCyclesDrain | edge-gateway/src/edge_gateway/runtime.py:329-368 | after any history, at most as many healthy cycles as there are due rows upload every one of them and touch no other row |
| Gateway.LostReplyIsRepaired | edge-gateway/src/edge_gateway/runtime.py:329-368 | a row whose reply was lost ends UPLOADED by healthy cycles after its delay, under a truthful inspection |
| Gateway.CrashedUploadIsRepaired | edge-gateway/src/edge_gateway/queue.py:340-353 | so does a row that was in flight when the process crashed, after the restart |
| Gateway.MovedBytesAreRecordedIff | edge-gateway/src/edge_gateway/runtime.py:223-284 | over any events between a scan's read and its move, the bytes moved away are the bytes read, and recorded if it made the row, exactly when the last write to the path in between, if any, wrote them |
| Gateway.TornReadRecordsOldBytes | edge-gateway/src/edge_gateway/runtime.py:246-284 | a six-event run in which the new file is moved away, its source is recorded with the old bytes, and no row has the new ones |
| Runtime.Classify | edge-gateway/src/edge_gateway/uploader.py:137-172 | delivered exactly on 200, 201 or 202 with an inspection id; given up exactly on other statuses below 500 except 429; the codes tell the failures apart |
| Runtime.DelayBounds | edge-gateway/src/edge_gateway/runtime.py:346-355 | the delay is one second, doubles with each attempt up to 1024 seconds and stays there |
| Runtime.ConcludeIsSettle | edge-gateway/src/edge_gateway/runtime.py:342-368 | the process settles each answer as the step system does |
| Runtime.ScanRecordsEveryReadableFile | edge-gateway/src/edge_gateway/runtime.py:241-327 | a whole scan keeps ledger and spool sound and leaves a row for every readable stable file |
| Runtime.ScanLosesNoFile | edge-gateway/src/edge_gateway/runtime.py:223-326 | after a scan every file of the watch root is still there, or unchanged in the archive under an accepted row, or in the quarantine under a rejected one |
| Runtime.IngestDecides | edge-gateway/src/edge_gateway/runtime.py:241-326 | what one file comes to: nothing when unreadable or known; a rejected row and the quarantine; or a row about exactly its bytes and context, claimable and spooled or a duplicate, and the archive |
| Runtime.IngestIsAPass | edge-gateway/src/edge_gateway/runtime.py:241-284 | the process ingests an accepted file as the undisturbed steps of the step system do |
| Runtime.GatewayRuntime.constructor | edge-gateway/src/edge_gateway/runtime.py:108-145 | starting recovers what was in flight |
| Runtime.GatewayRuntime.UploadOnce | edge-gateway/src/edge_gateway/runtime.py:329-368 | only the claimed row changes, with one attempt more: claimable exactly from the end of its backoff on no response, 429, 5xx or a success without an inspection; UPLOADED under the inspection; otherwise never claimable again |
| Runtime.GatewayRuntime.IngestFile | edge-gateway/src/edge_gateway/runtime.py:244-326 | queue, spool, watch root, archive and quarantine after one file; which files fail and with which error |
| Runtime.GatewayRuntime.ArchiveSource | edge-gateway/src/edge_gateway/runtime.py:223-230 | the file moves to the named directory, replacing what is there, or everything stays when it is gone or the move fails |
| Runtime.GatewayRuntime.ScanOnce | edge-gateway/src/edge_gateway/runtime.py:241-327 | queue, spool and directories after a scan; exactly the unreadable files are re-armed; exactly the new accepted rows are returned |
| Watcher.EmittedFilesWereStable | edge-gateway/src/edge_gateway/runtime.py:66-99 | an emitted path was seen with one size and mtime throughout a window of at least the configured length |
| Watcher.EmissionsAreSeparated | edge-gateway/src/edge_gateway/runtime.py:66-104 | strictly between two emissions a path was reset, seen changed or seen missing |
| Watcher.StableFilesAreEmitted | edge-gateway/src/edge_gateway/runtime.py:66-99 | a path that stays as it was when its window opened, at first sight, after a change or after an absence, is emitted once the window is long enough |
| Watcher.EmitsIff | edge-gateway/src/edge_gateway/runtime.py:66-104 | over every history a look emits exactly when the window opened by the last change, reappearance or first sight is long enough, every successful stat in it agreed, and nothing was emitted in it since the last reset |
| Watcher.ResetReemitsIff | edge-gateway/src/edge_gateway/runtime.py:66-104 | after an emission and a reset the next look emits exactly when it finds the emitted stat; no new window is awaited |
| Watcher.DirectoryWatcher.Observe | edge-gateway/src/edge_gateway/runtime.py:71-96 | the observation of one path and whether it is emitted; other paths unchanged |
| Watcher.DirectoryWatcher.StableFiles | edge-gateway/src/edge_gateway/runtime.py:66-99 | one scan advances every path, vanished ones included, by one look |
| Watcher.DirectoryWatcher.ResetPath | edge-gateway/src/edge_gateway/runtime.py:101-104 | only the named observation is re-armed |
| Connector.ExecuteIsExactlyOnce | backend/app/connectors.py:163-181 | a whole retry loop adds at most the record of its own key, changes none, returns that record's reference, and makes 1 to max calls |
| Connector.AtMostOneNewRecord | backend/app/mock_external.py:24-39 | the store grows by at most one record |
| Connector.ExecuteStopsAtFirstDecision | backend/app/connectors.py:163-181 | the loop ends at the first attempt that is no retryable failure, or at the bound, and that attempt alone decides |
| Connector.ExecuteRecordsWhatReached | backend/app/connectors.py:122-181 | the key has a record afterwards exactly when it had one or some attempt reached the store; a new one carries the operation and the next reference |
| Connector.ReplayReturnsSameReference | backend/app/connectors.py:122-140 | executing again, with any operation and any failures, yields the first reference and adds nothing |
| Connector.KnownKeyChangesNothing | backend/app/mock_external.py:24-39 | a key that is already recorded leaves the store as it is |
| Connector.MockStore.Accept | backend/app/mock_external.py:24-39 | insert or return the record, keep both indexes in step, log the call; a requested timeout still commits |
| Connector.RetryingExecutor.Run | backend/app/connectors.py:163-181 | the loop against a live store equals the specification and calls it at most max times |
| Policy.Validate | backend/app/policy.py:38-49 | accepts exactly the policies whose selectors are distinct and whose rules are well formed |
| Policy.AmbiguousIff | backend/app/policy.py:51-63 | resolution fails exactly on a product-only and a station-only rule without the pair rule |
| Policy.ResolvesToMostSpecific | backend/app/policy.py:51-63 | otherwise the result is the unique most specific match, or the default when nothing matches |
| Policy.OrderIrrelevant | backend/app/policy.py:51-63 | permuting the overrides changes nothing |
| Policy.ResolveBySorting | backend/app/policy.py:51-63 | filtering, sorting and comparing the first two computes that resolution |
| Policy.RoutingIsMonotone | backend/app/policy.py:73-105 | a higher score never gets a laxer route |
| Policy.RoutingIsExact | backend/app/policy.py:73-105 | released exactly below the review threshold of the resolved rule, held exactly from its hold threshold on, reviewed exactly in between; every route is open to some score |
| Policy.Preflight | backend/app/services.py:2829-2834 | accepts exactly when every canonical product resolves at every station |
| Domain.PathIsChain | backend/app/domain.py:31-88 | a transition log starts at RECEIVED and follows the table edge by edge |
| Domain.ReleaseHasOneHistory | backend/app/domain.py:31-88 | only one path reaches AUTO_RELEASED, and no failed inference is on it |
| Domain.EntriesOfTable | backend/app/domain.py:31-88 | from where the statuses that release, hold, fail or end an inspection can be entered, and which have no way on |
| WorkflowSafety.MovesFollow | backend/app/services.py:2907-2945 | following legal edges changes status and log only, and the log stays a path |
| WorkflowSafety.InferenceKeeps | backend/app/services.py:1647-1802 | an inference leaves a valid case with its event consumed; it raises exactly when the storage fails or the policy is ambiguous |
| WorkflowSafety.FailedInferenceIsReviewed | backend/app/services.py:1689-1712 | a failing model always ends in review with an open task, and raises nothing |
| WorkflowSafety.ScoreIsRouted | backend/app/services.py:1714-1802 | a score is stored and released, reviewed or held exactly by the two thresholds of its rule, with an open task unless released, and the log edge by edge; only an ambiguous policy raises |
| WorkflowSafety.SettlementAgrees | backend/app/services.py:2323-2350 | the transitions after an execution are always legal and leave status and action statuses in agreement |
| WorkflowSafety.ActionFollowsItsAnswer | backend/app/services.py:2286-2311 | the deciding attempt alone makes the action SUCCEEDED under its record's reference, MANUAL_REVIEW when a person is asked for, FAILED otherwise, or raises; without its connector it waits for a person and nothing is called |
| WorkflowSafety.ExecutionSettles | backend/app/services.py:2277-2350 | an execution takes the inspection to completed when all actions have succeeded, to failed when one has failed, else to executing, and from any other status nowhere |
| WorkflowSafety.ExecuteIsOk | backend/app/services.py:2260-2369 | executing a pending action keeps case, references and external stores sound, or raises with only the store changed |
| WorkflowSafety.RunPendingIsOk | backend/app/services.py:2241-2258 | so does executing every pending action of an incident |
| WorkflowSafety.InvokeKeeps | backend/app/services.py:2287-2300 | a connector call keeps and extends the stores, and counts 1 to max attempts |
| WorkflowSafety.DecideKeeps | backend/app/services.py:1939-2151 | a decision with its incident and inline actions, or its rollback, keeps every committed state sound |
| WorkflowSafety.RequestKeeps | backend/app/services.py:2153-2206 | so does a requested action |
| WorkflowSafety.ReplayKeeps | backend/app/services.py:2371-2445 | so does a replay |
| WorkflowSafety.CloseKeeps | backend/app/services.py:2447-2518 | so does closing |
| WorkflowSafety.StepKeeps | backend/app/services.py:2947-2980 | every service call and worker turn, whatever the environment does |
| WorkflowRuns.RunKeeps | backend/app/worker.py:28-34 | the same over whole runs, with logs, successes and records only ever extended |
| WorkflowRuns.EveryCommittedStateAgrees | backend/app/services.py:2128-2350 | the link between status, review task, outbox rows, incident and action statuses in every committed state |
| WorkflowRuns.TerminalIsForever | backend/app/domain.py:31-88 | a released or closed inspection never changes status or log again |
| WorkflowRuns.AutomaticReleaseIsEarned | backend/app/services.py:1745-1784 | in any run AUTO_RELEASED means a stored score below the resolved threshold, the one history, no incident and no open task |
| WorkflowRuns.ClosedOnlyByClosing | backend/app/services.py:2464-2502 | CLOSED is entered only by closing, from ACTION_COMPLETED through VERIFYING, with every action succeeded at that step |
| WorkflowRuns.SuccessIsForever | backend/app/services.py:2260-2322 | a succeeded action stays so with its reference, which is that of the record under its key |
| WorkflowRuns.RecordsAreNotShared | backend/app/connectors.py:122-140 | two succeeded actions on one system never share a record |
| WorkflowRuns.ProcessingTakesOneRow | backend/app/services.py:2947-2980 | an event processed without an exception takes exactly one row off the outbox |
| WorkflowRuns.DrainingEnds | backend/app/services.py:2947-2980 | there are never more such events than pending rows |
| WorkflowRuns.EmptyOutboxIffAtRest | backend/app/services.py:1505-1513 | no pending row exactly when no inspection awaits inference and no action execution |
| WorkflowRuns.WorkIsAlwaysPossible | backend/app/services.py:2947-2980 | while rows are pending, some row can be processed |
| WorkflowRuns.InlineNeverWaits | backend/app/services.py:2147-2151 | in inline mode no committed state of any run leaves a pending row |
| WorkflowEntries.DecisionIsCarriedOut | backend/app/services.py:1939-2038 | GOOD releases, UNABLE_TO_DETERMINE escalates, each of the others opens an incident with a batch hold and a ticket; always for the first two, else unless a key is taken or a connector raises; nobody but the entitled changes anything |
| WorkflowEntries.ReleaseAndEscalationAreDecided | backend/app/services.py:1996-2010 | RELEASE_APPROVED is entered by no call but an entitled GOOD decision on that inspection, ESCALATED by none but an entitled UNABLE_TO_DETERMINE |
| WorkflowEntries.ReleaseWasDecided | backend/app/services.py:1939-2010 | in every run, whoever is released by a person or escalated was so by one such decision of the run |
| WorkflowEntries.RoutesAreExplained | backend/app/services.py:1745-1784 | in every committed state the stored score explains the route: released below review, held from hold on, in review in between or because the model failed |
| WorkflowEntries.ScoreIsForever | backend/app/services.py:1722-1737 | a stored score is never changed |
| QualityService.VisionQCService.TransitionInspection | backend/app/services.py:2907-2945 | a legal transition changes status and log together, an illegal one neither |
| QualityService.VisionQCService.Infer | backend/app/services.py:1647-1787 | an inference, step by step in place, ends in the case whose soundness is proved, or raises exactly when that has none |
| QualityService.VisionQCService.ExecuteExternalAction | backend/app/services.py:2260-2369 | EXECUTING, connector, outbox row and verdict, written one after the other, amount to the execution the theorems speak about; stores keep what reached them even when it raises |
| QualityService.VisionQCService.ProcessPendingExternalActions | backend/app/services.py:2241-2258 | the loop executes exactly the pending actions, in order, and stops at the first that raises |
| QualityService.VisionQCService.CreateIncident | backend/app/services.py:2046-2151 | incident and both actions appear together under two new unique keys, or not at all |
| QualityService.VisionQCService.CreateInspection | backend/app/services.py:1419-1517 | a known key replays or conflicts by fingerprint; a new one makes one inspection of this product, station and policy, queued or inferred at once |
| QualityService.VisionQCService.ClaimReview | backend/app/services.py:1890-1937 | claimed exactly when open, unassigned and of the expected version; then only assignee and version change |
| QualityService.VisionQCService.DecideReview | backend/app/services.py:1939-2044 | each refusal exactly; otherwise the task is completed and GOOD releases, UNABLE_TO_DETERMINE escalates, each other decision opens an incident with a batch hold and a ticket |
| QualityService.VisionQCService.RequestIncidentAction | backend/app/services.py:2153-2206 | a known key returns the existing action; otherwise the action is appended with what was asked, under its key, or all is rolled back |
| QualityService.VisionQCService.ReplayExternalAction | backend/app/services.py:2371-2445 | exactly FAILED or MANUAL_REVIEW actions are replayed, as the same order under the same key; a failed inspection waits again with them |
| QualityService.VisionQCService.CloseIncident | backend/app/services.py:2447-2518 | closes exactly when all actions have succeeded and the inspection is completed; then only status and log change |
| QualityService.VisionQCService.RunForever | backend/app/worker.py:17-38 | the polling loop, committing or rolling back turn by turn, is a run of the theorems above |
| Review.VersionCountsEffects | backend/app/services.py:1890-1992 | under every interleaving the version is 1 plus claims plus decisions, at most one of each |
| Review.UpdateDecides | backend/app/services.py:1969-1992 | a decision closes the row in its actor's name exactly when it commits on an open row of its version |
| Review.ClaimedTasksStayWithTheirClaimant | backend/app/services.py:1948-1992 | if no client sends a version ahead of the row, whoever claimed a task decides it |
| Review.StealsIffVersionGuessed | backend/app/services.py:1948-1992 | a pending decision can complete somebody else's task exactly when it sent the version after the one it read |
| Review.GuessedVersionStealsTheTask | backend/app/services.py:1948-1992 | a three-step run in which that happens |
| Review.ReviewTask.ClaimRow | backend/app/services.py:1899-1911 | the guarded UPDATE is the claim step of the interleaving; it takes effect exactly on an open, unassigned row of the expected version |
| Review.ReviewTask.CompleteRow | backend/app/services.py:1969-1988 | the guarded UPDATE is the decision step; it takes effect exactly on an open row of the expected version |
| Review.ReviewTask.Decide | backend/app/services.py:1948-1992 | check and UPDATE in a row are one session's two steps: forbidden exactly on another's task, completed exactly on an open row of the expected version |
| Calibration.CandidatesMeaning | ml/src/visionqc_ml/calibration.py:65-68 | the candidates are sorted, inside [0, 1], and contain 0, 1 and every score |
| Calibration.MidpointIsCandidate | ml/src/visionqc_ml/calibration.py:65-68 | and the midpoint of any two adjacent scores |
| Calibration.ReviewMeetsBound | ml/src/visionqc_ml/calibration.py:90-96 | the review threshold is the greatest candidate below 1 that meets the bound |
| Calibration.ThresholdsAreOrdered | ml/src/visionqc_ml/calibration.py:98-113 | always 0 <= review < hold <= 1, with hold a candidate |
| Calibration.ReviewIsOptimal | ml/src/visionqc_ml/calibration.py:90-96 | no real threshold below 1 that meets the bound flags fewer samples |
| Calibration.ReviewIsOptimalIff | ml/src/visionqc_ml/calibration.py:90-96 | that holds exactly when the bound is below 1 or some score is 1 |
| Calibration.HoldIsOptimal | ml/src/visionqc_ml/calibration.py:98-105 | a reachable target is met, no real threshold above review that meets it flags fewer, and no candidate that meets it is greater |
| Calibration.UnreachableTarget | ml/src/visionqc_ml/calibration.py:106-109 | if no candidate meets the target no real threshold does; the fallback is the least candidate above review and attains the best recall |
| Calibration.ScoreReviewIsOptimalIff | ml/src/visionqc_ml/qualification.py:249-263 | the midpoint-free review search is optimal among all real thresholds below 1 exactly when nothing scores below 1 or the rate at 1 exceeds the bound |
| Calibration.ScoreHoldIsOptimal | ml/src/visionqc_ml/qualification.py:264-271 | its hold threshold meets a reachable target with the fewest flagged, and otherwise catches as much as any real threshold above review |
| Calibration.CalibrateProtocolB | ml/src/visionqc_ml/qualification.py:249-282 | one-class and holdout records are refused; otherwise ordered thresholds, within any non-negative bound |
| Calibration.LegacyRates | ml/src/visionqc_ml/calibration.py:83-115 | the bound is always met, the target exactly when reachable |
| Calibration.MarginIsConservative | ml/src/visionqc_ml/calibration.py:154-164 | each threshold moves down by exactly the margin, not below 0; the order is kept, no rate worsens and no flagged or held sample is let go |
| Calibration.LegacyThresholds | ml/src/visionqc_ml/calibration.py:83-115 | both thresholds, with a warning exactly when the target is missed |
| Calibration.Calibrate | ml/src/visionqc_ml/calibration.py:118-184 | accepted exactly for constraints and margin in [0, 1], a known strategy with a margin of its own, and samples of both kinds; the thresholds; satisfied exactly when the recall target is met, which a reachable target always is; the last warning is never needed |
| Splits.ValidateSplitManifest | ml/src/visionqc_ml/qualification.py:159-181 | accepts exactly when no non-empty sample id, path or hash occurs in two rows; every reported overlap names a shared value and the splits of two rows that share it |
| Splits.PartitionIgnoresOrder | ml/src/visionqc_ml/dataset.py:336-347 | the partition does not depend on the order of the files |
| Splits.PartitionIsProper | ml/src/visionqc_ml/dataset.py:336-347 | a stratum of n >= 2 keeps 1 to n-1 on each side, as near to the ratio as that allows, a single file is not validated on, and those chosen have the least digests |
| Splits.AssignSplits | ml/src/visionqc_ml/dataset.py:415-428 | every test file is assigned, exactly the stable partition of its stratum to validation, and every stratum of two or more is on both sides |
| Splits.SidesCover | ml/src/visionqc_ml/qualification.py:121-131 | strata of two or more are divided without loss or addition |
| Splits.SingletonOnBothSides | ml/src/visionqc_ml/qualification.py:129-131 | a single entry lands in calibration and in holdout |
| Splits.DividedUnrepeatedIff | ml/src/visionqc_ml/qualification.py:115-156 | the division passes the leakage check exactly when no stratum is a singleton and no value repeats among the entries |
| Splits.SplitProtocolB | ml/src/visionqc_ml/qualification.py:115-156 | accepted exactly then; calibration and holdout share nothing, are exactly the source test set in the order of names, and halve every stratum by digest |
| Gates.GoIffEveryGate | ml/src/visionqc_ml/qualification.py:345-397 | GO exactly when the evidence is complete and all nine gates are met; eligibility additionally needs customer data |
| Gates.GoPassesEveryCheck | ml/src/visionqc_ml/qualification.py:345-397 | for customer data a GO leaves every check at PASS |
| Gates.ChecksAreExact | ml/src/visionqc_ml/qualification.py:345-397 | each of the nine checks passes, fails or misses evidence exactly by the bound of its measure and what is known of it, and the two lists name exactly those |
| Gates.EvaluatePilotGates | ml/src/visionqc_ml/qualification.py:345-397 | the loop computes that result |
| Gates.ReportStatusIsScoped | ml/src/visionqc_ml/qualification.py:400-411 | report statuses tell source and decision apart and are never a bare decision |
| Gates.ReportStatusSays | ml/src/visionqc_ml/qualification.py:400-411 | outside demonstrations the status ends in PASS for a GO, NO_GO for a NO-GO and INSUFFICIENT_EVIDENCE otherwise |
| Evidence.DigestFixesCore | ml/src/visionqc_ml/qualification.py:901-907 | equal core digests mean equal core files |
| Evidence.AcceptanceFixesCore | backend/app/qualification.py:39-90 | acceptance with a registered digest forces every core file to be the registered one |
| Evidence.MlAcceptanceFixesCore | ml/src/visionqc_ml/qualification.py:910-979 | the same for the ML side's verifier |
| Evidence.AcceptanceFixesClaims | backend/app/qualification.py:39-138 | and with them the gates, status, source, fingerprint, package and consent in the verdict |
| Evidence.InventoryMeaning | backend/app/qualification.py:39-72 | an inventory that passes lists exactly the files that are there with digest and size, and nothing required is missing |
| Evidence.BackendAcceptsIff | backend/app/qualification.py:39-125 | the backend accepts exactly when the inventory passes, the documents tell one story, the core digest and the package are those expected, the gates know the status, and the owner of customer data consents |
| Evidence.MlAcceptsIff | ml/src/visionqc_ml/qualification.py:910-966 | the ML side accepts exactly when the listed sources are intact here, and under its own reading of the same conditions |
| Evidence.AcceptanceReports | backend/app/qualification.py:86-138 | every field the backend reports of an accepted package, and what stands in where a document is silent |
| Evidence.MlAcceptanceReports | ml/src/visionqc_ml/qualification.py:950-979 | every field the ML side reports |
| Evidence.AcceptedSourcesAreIntact | ml/src/visionqc_ml/qualification.py:934-949 | acceptance means that each listed source is on this host with the listed digest |
| Evidence.IntactReleaseFixesClaims | backend/app/qualification.py:74-138 | as long as the release decision is the one written, the verdict carries the gate decision and approval written |
| Evidence.ReleaseClaimsAreFree | backend/app/qualification.py:74-138 | the gate decision and approval are in no digest: with any others the package is accepted under the same digest |
| Evidence.UnsafePathNeverReported | backend/app/qualification.py:52-68 | the unsafe-path refusal is dead |
| Evidence.DigestSurvivesSealing | ml/src/visionqc_ml/qualification.py:1389-1455 | writing the two integrity files does not disturb the digest |
| Evidence.BackendRoundTrip | backend/app/qualification.py:39-138 | an untouched package is accepted exactly when the expected package digest is the one written and customer data is consented to, and reported as written |
| Evidence.VerdictTellsTheRequest | ml/src/visionqc_ml/qualification.py:1195-1455 | the verdict on an untouched package carries every metric and every check under its name, and the status, decision, approval, source, fingerprint and package of the request |
| Evidence.PackageCarriesTheRest | ml/src/visionqc_ml/qualification.py:1195-1455 | the package also carries its texts and every other file that was there, and nothing more |
| Evidence.PackageNamesItsSources | ml/src/visionqc_ml/qualification.py:1195-1455 | it lists the sources it was given and names the owner of the data field by field |
| Evidence.MlRoundTrip | ml/src/visionqc_ml/qualification.py:910-979 | an untouched package is accepted exactly when its listed sources have the known schema and are intact on this host and the expected digest, if any, matches; the verdict is the backend's without gates and metrics |
| Evidence.NoSourcesNothingToCheck | ml/src/visionqc_ml/qualification.py:1185-1189 | a package without listed sources passes that part on any host |
| Evidence.PendingApprovalIffEarned | ml/src/visionqc_ml/qualification.py:1411-1418 | PENDING_APPROVAL is written exactly for complete, consented customer evidence that meets every bound, READY_FOR_CUSTOMER_DATA exactly for a proven benchmark, DEMO_ONLY exactly for demonstrations |
| Evidence.CompletedIff | ml/src/visionqc_ml/qualification.py:1142-1189 | a run is reported as completed exactly when it is no demonstration and package, split, metrics, fingerprint, receipt, sources and consent are all there |
| Evidence.GoIsBlockedOnlyByDatasetIdentity | ml/src/visionqc_ml/qualification.py:1144-1163 | a GO carries no blocker except a missing dataset fingerprint or receipt |
| Evidence.EvidenceDirectory.WritePackage | ml/src/visionqc_ml/qualification.py:1116-1464 | the directory after writing, over whatever it held; leaking splits are refused before anything is written |
| Qualification.RegisterKeeps | backend/app/services.py:453-600 | registration keeps fingerprints unique in the tenant and validated customer data consented |
| Qualification.RetireCurrentMeaning | backend/app/services.py:1181-1188 | making room retires at most the one rival and touches nothing else |
| Qualification.StepKeeps | backend/app/services.py:1045-1285 | every call keeps one ACTIVE item per tenant and product, distinct actors, and sound bindings |
| Qualification.RunKeeps | backend/app/services.py:1045-1285 | the same over whole runs |
| QualificationRuns.OneActiveThreeActors | backend/app/services.py:1091-1285 | in every reachable registry, rollbacks included, ACTIVE items are unique and have three different actors |
| QualificationRuns.EveryEntryIsVerified | backend/app/services.py:981-1285 | APPROVED and ACTIVE are entered only by approval, activation or rollback of that item by somebody who did not evaluate it, on usable customer data, a matching pack, passing gates, and evidence accepted at that moment: registered digest, expected package, GO, pending approval, customer source |
| QualificationRuns.EvaluationDecides | backend/app/services.py:1045-1089 | only the owner's draft on accepted evidence is evaluated: EVALUATED on a GO that waits for approval, else still a draft, with gates, status and evaluator recorded and nothing else |
| QualificationRuns.EvaluatedIff | backend/app/services.py:1045-1089 | an item becomes EVALUATED exactly by such an evaluation of it |
| QualificationRuns.IntactEvidenceIsEvaluatedIffEarned | backend/app/services.py:1056-1065 | on a written package whose release decision is intact, an evaluation makes the draft EVALUATED exactly when the package is earned |
| QualificationRuns.EvaluatedIsEarned | backend/app/services.py:1045-1089 | over every run with that decision intact at its evaluations, an item on a written package leaves the draft stage only if the package is earned |
| QualificationRuns.ResealedEvidenceIsEvaluated | backend/app/services.py:1056-1065 | for a package that is not earned, resealed with another release decision, the draft becomes EVALUATED, and no approval of it ever succeeds |
| QualificationRuns.RevokedNeverEnters | backend/app/services.py:1020-1043 | no call moves an item on revoked data, bound to it or only carrying its fingerprint, into APPROVED or ACTIVE |
| QualificationRuns.RevocationIsPermanent | backend/app/services.py:653-690 | over every later run such an item is APPROVED or ACTIVE only if it was when the data was revoked |
| QualificationRuns.OnlyEarnedEvidenceIsReleased | backend/app/services.py:981-1018 | an item registered with a written package is released only if that package was written from consented customer data meeting every gate, whatever is done to the directory between calls |
| QualificationRuns.EarnedEvidenceIsReleasable | backend/app/services.py:1045-1209 | conversely three people take a draft with an untouched earned package to ACTIVE |
| QualificationRuns.ProductionReadyIff | backend/app/services.py:2835-2853 | whoever made the package, an item opens the production gate exactly when it is active and its registered summary carries a bare GO |
| QualificationRuns.WrittenEvidenceNeverOpensProduction | backend/app/services.py:2835-2853 | no item registered with a written package satisfies the production gate |
| QualificationRuns.QualificationService.RegisterDataset | backend/app/services.py:453-600 | each refusal exactly, with its own error: inactive tenant, demo data, missing or unusable bytes, a foreign tenant's provenance, a known fingerprint; otherwise one registration as asked for, validated exactly unless it is customer data without consent |
| QualificationRuns.QualificationService.RevokeDataset | backend/app/services.py:653-690 | the tenant's own dataset is revoked once; again it is a conflict |
| QualificationRuns.QualificationService.CreateQualification | backend/app/services.py:882-965 | each refusal exactly; otherwise a draft with the identity and evidence asked for, bound to an unrevoked dataset it agrees with |
| QualificationRuns.QualificationService.EvaluateQualification | backend/app/services.py:1045-1089 | each refusal exactly; otherwise EVALUATED on a GO that waits for approval, else a draft, with gates, status and evaluator recorded |
| QualificationRuns.QualificationService.ApproveQualification | backend/app/services.py:1091-1147 | approved exactly when EVALUATED by somebody else with passing gates, usable data and releasable evidence; only stage and approver change |
| QualificationRuns.QualificationService.ActivateQualification | backend/app/services.py:1149-1209 | activated exactly under its five conditions; then it is active in the actor's name and at most one rival was retired for it |
| QualificationRuns.QualificationService.RetireQualification | backend/app/services.py:1211-1237 | exactly APPROVED or ACTIVE items of the tenant retire; only their stage changes |
| QualificationRuns.QualificationService.RollbackQualification | backend/app/services.py:1239-1285 | exactly RETIRED items return, under the same actor, dataset and evidence conditions and a pack with their package, as the active one |

## Left out

- HTTP, JWT and roles beyond the manager role of a decision, FastAPI routing, SQLAlchemy mechanics, migrations, object storage, image decoding, the frontend and Blender: input, output and foreign calls.
- Model inference, metrics, bootstrap intervals, galleries and markdown: library numerics and formatting; a score, a metric or a text is an argument.
- `ml/src/visionqc_ml/package.py`: a model package enters as its verified digest.
- Gateway.ExactlyOnceUpload: one gateway process, one active deployment pack and one field mapping for the whole run; other clients may send anything under their own keys, but whoever uses a deterministic edge key computed it honestly; the backend commits before it replies.
- Gateway.FormRoundTrip: white space is blank, tab, line feed and carriage return; a timestamp is an opaque value, and refusing a missing or unknown field is one of the backend's refusals.
- Gateway.EventKeeps: the order of fields inside a ledger row's error texts, times of last attempts and image sizes are not modelled.
- Runtime.GatewayRuntime.ScanOnce: a value error from a timestamp that does not parse, which ends the scan, is not modelled; heartbeats and status payloads are left out; in the class nobody else writes to the directories during a scan, which `Gateway.dfy` allows.
- Watcher.DirectoryWatcher.StableFiles: the listing names each path once; two names of one file through symbolic links are not modelled.
- WorkflowRuns.EveryCommittedStateAgrees: `incident.status` is left out, since a later requested action may rewrite it; closure is stated on the inspection.
- WorkflowRuns.RecordsAreNotShared: one tenant; external systems do not see the tenant, so keys of two tenants are not compared.
- WorkflowRuns.WorkIsAlwaysPossible: the attempt counter of an outbox event is left out, because the rollback of a failing turn discards it; so is the event's availability time.
- WorkflowSafety.StepKeeps: a call that raises leaves the tables as they were; audit rows and error texts are left out.
- QualityService.VisionQCService.CreateInspection: image validation, tenant status, gateway binding and the product and station checks are left out; the race of two inserts under one key is modelled in `Gateway.dfy`.
- Progress out of ESCALATED: no service call leaves it.
- Review.VersionCountsEffects: the isolation level between statements of one session is read committed; a decision whose session rolls back later has no effect.
- Calibration.ReviewIsOptimal: scores and thresholds are exact reals, so midpoints are exact; the rounding of floating-point midpoints and differences is not modelled.
- Calibration.MarginIsConservative: `nextafter` is asked for only at 0, where it is a parameter that no positive score lies below.
- Calibration.ScoreHoldIsOptimal: likewise no score lies strictly between review and the number `nextafter` gives.
- Splits.SplitProtocolB: digests and names enter as sort keys; the hashes written beside the split are not modelled.
- Evidence.BackendRoundTrip: JSON is a value with the field names the programs use told apart from all others; encoding, number formats and descriptive fields that no verifier reads are left out; the size of a file is a function of its content.
- Evidence.EvidenceDirectory.WritePackage: an empty split manifest or source inventory is the same as a missing one; the writer is given the digest of a package that has been verified.
- Qualification.StepKeeps: the unique index on ACTIVE rows and the order in which a flush writes them are not modelled, only the queries the service makes.
- QualificationRuns.QualificationService.RegisterDataset: location, limits, declared digest, inspection and storage of the bytes are one outcome, an argument.
- QualityService.VisionQCService.DecideReview: a missing row of another table (an inspection for a task, an incident for an action) cannot occur in the model, whose rows are nested; the errors for it are left out.
