# Document pipeline: a verified model

The service turns an uploaded document into answers to a tenant's questions. A
document is converted to markdown, optionally anonymized, and then, for each
extraction request, a worker first maps the questions to keys (`resolve_keys`)
and then extracts the values (`extract`). Nothing holds this together but rows in
PostgreSQL and messages to the worker: each API call, worker callback and
watchdog scan executes a few SQL statements, without a transaction around them,
and decides what to do next from the rows that it finds.

This project models that as one state machine over a shared store and proves what
it keeps, what it promises, and where it does not.

## How it is organised

`dafny verify dfyconfig.toml` verifies everything.

* `Model.dfy`, `Statements.dfy` - the rows, and every SQL statement as a function
  on the state.
* `Machine.dfy` - the services cut into operations, each exactly one statement,
  publish attempt or clock reading. `After` is the state it leaves, `Next` the
  operations that the code performs next, holding what it has read so far. `Run`
  executes operations alone, to the end.
* `Invariants.dfy`, `Preservation.dfy` - the invariant `Inv`, the relation
  `Evolves` between earlier and later states, what each waiting operation relies
  on (`OpOk`), and that every operation keeps all three at any moment.
* `Interleaving.dfy` - any number of threads: a schedule may start, step or kill
  any thread between any two statements and let time pass. `Safety.dfy`,
  `Ordering.dfy`, `Sending.dfy`, `Callers.dfy` and `Wakeup.dfy` state what holds in
  every reachable world or at its rest.
* `Atomic.dfy` - a solo run is one of the schedules, and keeps the invariant.
* `Effects.dfy` - a second account of what each operation amounts to, written on
  the rows, the log and the broker's answers, with no step of `Machine.dfy` in it.
  `Outcomes.dfy` - that the two agree, and the rows spelled out.
* `Progress.dfy`, `Callbacks.dfy`, `Advance.dfy`, `Data.dfy`, `Replay.dfy` - what
  one call of `Progress` or one callback does as a whole. `Followup.dfy` - the
  extract task follows every stored schema. `Stillness.dfy` - what no schedule can
  move. `Stranding.dfy`, `Requeue.dfy` - schedules that show the failures below.
* `Watchdog.dfy`, `Fairness.dfy` - one scan, many scans, scans among other
  activity.
* `Database.dfy`, `ExtractionService.dfy`, `WorkerService.dfy`,
  `WatchdogLoop.dfy`, `TaskService.dfy`, `DocumentService.dfy` - the store and the
  services in their own form: classes whose methods mutate the tables, with the
  loops of the source.
  Each method is proved to leave exactly the state that `Run` of its operation
  yields, so what is proved of runs holds of the methods, and exactly the state
  that `Effects.dfy` gives.

The publisher is arbitrary: `broker` decides the outcome of the n-th attempt
(delivered, refused, or given up without being sent), and every theorem holds for
every broker. A JSON payload is described by what it unmarshals to for each module,
including not at all. `held`, `reported` and `stored` are histories: the paths
that a document or one of its artifacts has ever had, those that a worker
reported, and the schemas that a request has ever had.

## What the proofs found

* `Progress` promises to leave a request with its next task. It does so if and
  only if there was one already or the path of the next input is not blank
  (`Progress.ProgressServesIff`). The check `btrim(input_storage_path) <> ''`
  refuses a path of spaces, which the API's `binding:"required"` lets through;
  the error is logged, and the request comes to rest pending with no task
  (`Stranding.BlankPathStrands`). The comment at
  `internal/service/service_extraction.go:128-129` says the next callback will
  progress it; there is none, and never will be: in every reachable world a root
  document with a blank path has no task (`Stillness.BlankDocument`), and no
  schedule changes a request of it that is at rest (`Stillness.BlankForEver`).
  Without artifacts the path decides alone (`Stillness.ServedIff`).
* No wakeup is lost otherwise, as long as no deadline expires (see below)
  (`Wakeup.NoLostWakeup`): at rest every request in flight on a root document has
  its next task, or that task's input path is blank now. Threads may be killed anywhere, as long as the request was not waiting for
  the killed thread alone (`Wakeup.Spares`, needed by `Stranding.CrashStrands`).
  A document that is itself an artifact has one more exception, a blank path of
  its own in the past (`Wakeup.BlankOwn`), because its parent's callbacks may
  replace its path without progressing its requests.
  The extract task follows a stored schema in the same sense
  (`Followup.ExtractFollows`).
* A next task need not be one that anybody will finish. A request created after
  its document's convert task has failed is pending behind it: the slot is taken,
  and the failed task is no watchdog's business (`Stranding.DeadTaskStrands`,
  `Stranding.InitiateBehind`). Only a callback ends that. From any world at
  rest a request stays as it is through every schedule without a callback for a
  task of its document (`Stillness.RequestStays`); and a failed callback for its
  own task or a prerequisite fails it (`Stillness.CallbackReleases`), the very
  failure that stranded it, delivered again, included
  (`Stranding.DeadTaskReleased`).
* A schema is published once. A second resolve_keys result with another schema
  changes what the request stores, and not what its extract task was sent
  (`Advance.SchemaDrift`).
* Arguments are sent at most once. The publish after an insert carries them if and
  only if the module is resolve_keys or extract, and a watchdog's never does
  (`Safety.ArgumentsOnce`): everything that a scan publishes is bare
  (`Watchdog.ScanPublishes`), so after a requeue a worker receives `resolve_keys`
  without questions (`Requeue.RequeueWithoutQuestions`) and `extract` without a
  schema.
* Terminal request states are not absorbing: a late failed callback fails a
  completed request (`Callbacks.ResultFailure`), and a late extract result
  completes a failed one (`Advance.ExtractFinishes`).
* A task failed by the watchdog leaves its requests in flight; only a failed
  callback fans out (`Watchdog.Cycle`, `Callbacks.FailureFanOut`).

## Model

| member | source | states |
|---|---|---|
| Safety.RetryBound | internal/watchdog/watchdog.go:104-139 | In every reachable world, whatever interleaves, no task has been requeued more than MaxRetries times, although the guard reads a snapshot |
| Safety.WonClaimIsCurrent | internal/repository/document_task.sql.go:443-453 | A claim about to be won sees the row exactly as it was listed: the compare-and-swap on updated_at refuses a row written since |
| Safety.MessageConservation | internal/watchdog/watchdog.go:148-183 | Deliveries of a task are at most 1 + retry_count, at most 1 + MaxRetries; attempts at most 1 + 3 * retry_count |
| Sending.EveryTaskSent | internal/service/service_extraction.go:577-588 | Once a schedule without crash is at rest, every task row, by whatever route it was created, has been sent at least once, on its own document, module and input; with arguments exactly once if its module takes them, and never if not |
| Sending.EverySparedSent | internal/service/service_worker.go:290-304 | The same of a schedule with crashes, for a task whose sender was not killed |
| Sending.StepsSend | internal/service/service_document_task.go:63-71 | At every moment of such a schedule the task has been sent or some thread is still going to send it |
| Callers.RequestsAsCalled | internal/service/service_extraction.go:109-117 | In every schedule each request row has the document, tenant, questions and anonymize flag of a call that was made, and the document is that tenant's |
| Callers.InitiatedPaths | internal/service/service_extraction.go:234-246 | After a successful Initiate, in every later schedule each task and message of that request is for the call's document and carries a path held by the anonymized file if the call asked for it, by the markdown file if not, and no questions but the call's |
| Ordering.MarkdownFirst | internal/service/service_worker.go:115-138 | In every reachable world, crashes included, a document with an anonymize task has its markdown file registered, and the task reads a path that the file has held |
| Ordering.RunningFirst | internal/service/service_extraction.go:488-513 | In every reachable world no request whose questions have been sent is pending |
| Safety.ArgumentsOnce | internal/watchdog/watchdog.go:141-146 | At most one attempt of a task ever carries arguments; a waiting first publish carries them if and only if its module is resolve_keys or extract, a waiting republish never does |
| Watchdog.ScanPublishes | internal/watchdog/watchdog.go:141-183 | A scan attempts to publish every listed task that has a retry left, and whatever it attempts is without arguments |
| Requeue.RequeueWithoutQuestions | internal/watchdog/watchdog.go:141-146 | A schedule without crash in which a resolve_keys task of a request with questions goes to the publisher without them |
| Safety.ClaimExclusivity | internal/watchdog/watchdog.go:123-139 | Two won claims of one task, by whatever instances, are more than the threshold apart |
| Safety.WatchdogTouchesLiveTasks | internal/repository/document_task.sql.go:417-424 | No watchdog step changes a completed or failed task; a lost claim changes nothing and leads to no publish |
| Safety.StageOrder | internal/service/service_extraction.go:266-381 | A running request has its resolve_keys task, a completed one its extract task; in any status an extract task implies a non-empty schema and a resolve_keys task |
| Safety.NeverPendingAgain | internal/repository/extraction_request.sql.go:184-190 | No schedule returns a request to pending or empties a stored schema |
| Safety.Uniqueness | sql/migrations/000003_extraction_requests.up.sql:70-89 | One convert and one anonymize task a document, one resolve_keys and one extract task a request, one artifact a parent and kind, one key a tenant and name, over all creation routes |
| Safety.FindArtifactAnyOrder | internal/service/service_extraction.go:639-648 | The artifact found does not depend on the order in which the rows are listed |
| Safety.Provenance | internal/service/service_extraction.go:236-246 | Every task's input, and the path of every message ever published for it, is one that the right file of its own document has held: the anonymized file exactly when the request asked for it; arguments are the request's own questions, a schema that the request has held, or none |
| Safety.KeyOwnership | sql/migrations/000002_extraction.up.sql:72-95 | Every stored value belongs to its document's tenant, under a key of that tenant or a system key |
| Wakeup.NoLostWakeup | internal/service/service_worker.go:127-147 | In every interleaving that has come to rest and killed no thread that this request alone waited for, the request in flight has the task of its next stage or the path of that stage's input is blank now; for a document that is itself an artifact, or a path of its own was blank once |
| Wakeup.CrashFreeSpares | internal/service/service_worker.go:127-147 | A schedule that kills nothing spares every request |
| Progress.RestingProgress | internal/service/service_extraction.go:206-261 | At rest after such a schedule, Progress on any in-flight request of a root document changes nothing and publishes nothing |
| Followup.ExtractFollows | internal/service/service_extraction.go:302-341 | In every interleaving that has come to rest and killed no thread that alone was still to insert it, a request with a stored schema has its extract task, in any status, unless the artifact it reads has had a blank path |
| Followup.StepsFollow | internal/service/service_extraction.go:314-340 | At every moment of such a schedule that holds, or some thread is still going to insert the extract task |
| Wakeup.StepsCover | internal/service/service_worker.go:198-219 | At every moment of such a schedule the request in flight is served in that sense or some thread is still going to create its next task |
| Interleaving.StepsKeep | internal/service/service_worker.go:90-196 | Every schedule, crashes included, keeps the invariant, the assumptions of every waiting operation and the publish balance |
| Interleaving.StepPays | internal/watchdog/watchdog.go:128-183 | Each step pays for the publishes it adds, from its own credit or by raising retry_count |
| Preservation.AfterKeeps | internal/repository/document_task.sql.go:546-556 | Every statement, whenever it executes, keeps the invariant, and every task row it writes carries the current time |
| Preservation.NextOk | internal/service/service_extraction.go:215-261 | What the code does next may rely on the state that its last statement left |
| Preservation.ClaimKeeps | internal/watchdog/watchdog.go:104-139 | A claim decided on a snapshot keeps the retry bound and the spacing of claims |
| Invariants.StableOps | internal/watchdog/watchdog.go:66-80 | What a waiting operation relies on survives everything that other threads may do |
| Atomic.SoloRun | internal/service/service_worker.go:90-196 | Executing a thread alone is a schedule whose outcome is Run |
| Atomic.AtomicEvent | internal/service/service_extraction.go:92-139 | Every event without interference is reached by a schedule without crashes |
| Atomic.RunKeeps | internal/service/service_worker.go:90-196 | A run keeps the invariant and only moves rows forward |
| Progress.RunsOnce | internal/service/service_extraction.go:206-261 | From any snapshot of an in-flight request, Progress inserts exactly the row of its next stage, or changes nothing if that is there or refused; other requests and all old tasks stay as they are |
| Progress.ProgressIs | internal/service/service_extraction.go:206-261 | From any snapshot and in any state Progress comes to the reference effect: the next stage by the artifacts that are there, its row, message and marks by the broker's answer, and nothing else |
| Outcomes.ResolveAttempt | internal/service/service_extraction.go:475-517 | Progress on a request whose target is there: delivered, the new task is pending and the request running; otherwise the task is failed with the publish error and the request with its own text; one message, other rows as they were |
| Outcomes.ExtractAttempt | internal/service/service_extraction.go:521-559 | A resolve_keys result for a request without extract task: delivered, the new task is pending and the request as it was with its schema; otherwise both are failed; one message with the schema |
| Outcomes.EnsuredRows | internal/service/service_extraction.go:561-623 | A free slot and a usable path: one row and one message, the row failed with the publish error unless that was delivered; otherwise nothing changes |
| Outcomes.AskedRows | internal/service/service_extraction.go:447-519 | The same of resolve_keys, with the request's status by the broker's answer |
| Outcomes.ExtractingRows | internal/service/service_extraction.go:521-559 | The same of extract; a refused path fails the request |
| Outcomes.InitiateIs | internal/service/service_extraction.go:109-133 | Initiate on an existing document adds the request as asked and progresses it, as the reference effect says |
| Outcomes.CreateIs | internal/service/service_document_task.go:46-71 | The public create adds the row and one message, and leaves the row pending whatever the broker answers |
| Outcomes.CallbackIs | internal/service/service_worker.go:88-196 | A callback with everything it sets off comes to the reference effect of its module, status and payload: the row field by field, artifacts, anonymize task and sweep; keys, schema and extract task; values and completion; or failures - and nothing else |
| Outcomes.ScanIs | internal/watchdog/watchdog.go:58-190 | A scan comes to revisiting each listed task once, oldest first: failed, or requeued with up to three attempts, each but the first after a refusal |
| Progress.ProgressIdempotent | internal/service/service_extraction.go:213-215 | On a request that has its next task Progress changes nothing and publishes nothing |
| Progress.ProgressServesIff | internal/service/service_extraction.go:220-260 | Progress leaves the request with its next task if and only if it had it or the next input's path is not blank |
| Stranding.BlankPathStrands | sql/migrations/000001_init_schema.up.sql:127-128 | For every blank path, a schedule without crash or failed publish after which a request is pending, has no task, and nothing is left to execute |
| Stillness.BlankDocument | sql/migrations/000001_init_schema.up.sql:127-128 | In every reachable world, crashes included, a root document with a blank path has no task, and its requests are pending or failed |
| Stillness.BlankForEver | sql/migrations/000001_init_schema.up.sql:127-128 | No schedule changes a request of such a document that is at rest |
| Stillness.ServedIff | internal/service/service_extraction.go:256-260 | At rest an in-flight request of a root document without artifacts has its next task if and only if the path is not blank |
| Stillness.RequestStays | internal/service/service_worker.go:90-196 | From a reachable world at rest a request stays exactly as it is through every schedule that starts no callback for a task of its document |
| Stillness.CallbackReleases | internal/service/service_worker.go:174-193 | A failed callback for an in-flight request's own task or for its document's convert or anonymize task fails it, from any reachable world |
| Stranding.CrashStrands | internal/service/service_extraction.go:118-133 | For every path, a call killed after creating its request leaves it pending with no task |
| Stranding.InitiateBehind | internal/service/service_extraction.go:564-573 | A request created where the prerequisite task already exists, in whatever state, is stored as pending and nothing else happens, then or at any further Progress |
| Stranding.DeadTaskStrands | internal/service/service_extraction.go:561-590 | A schedule without crash after which a request is pending behind its document's failed convert task, its only task, nothing is left to execute, and Progress changes nothing |
| Stranding.DeadTaskReleased | internal/repository/document_task.sql.go:546-556 | The failed callback of that schedule, delivered again at its end, fails the request |
| Progress.Sweep | internal/service/service_worker.go:203-219 | After the loop every request of the document still in flight is settled; when all were, the loop changes nothing |
| Advance.ConvertAdvances | internal/service/service_worker.go:127-138 | After a convert result with a usable path every in-flight request of the document without its target is past convert and has its next task |
| Advance.AnonymizeAdvances | internal/service/service_worker.go:142-147 | After an anonymize result with a usable path every in-flight request that wants the anonymized file has its resolve_keys task |
| Advance.ResolveAdvances | internal/service/service_extraction.go:302-341 | After a resolve_keys result the schema is stored and the extract task exists, or the target's path is blank and the request is failed |
| Advance.SchemaDrift | internal/service/service_extraction.go:302-341 | After two resolve_keys results the request stores the second schema while the only message of its extract task carries the first |
| Advance.ResultPublishes | internal/service/service_extraction.go:521-559 | A resolve_keys result publishes its schema exactly when it inserts the extract task |
| Advance.ExtractFinishes | internal/service/service_extraction.go:346-381 | An extract result completes its request if it parses and fails it if not |
| Replay.Redelivery | internal/service/service_worker.go:88-196 | Any callback delivered again, any time later: every table and the message log are as after the first delivery, except updated_at of its own row |
| Replay.Settles | internal/service/service_worker.go:115-193 | After one delivery everything the callback asks for is in place, whatever the publisher did |
| Replay.Again | internal/service/service_worker.go:115-193 | A callback whose effects are in place changes only its row's timestamp, also after its payload was rewritten |
| Replay.RunRegister | internal/service/service_worker.go:353-452 | Registration saves the artifacts that were returned and rewrites the payload to name their rows |
| Replay.ResolveSettles | internal/service/service_extraction.go:266-341 | A resolve_keys result ends with keys, schema and extract task in place, or with the request failed |
| Callbacks.FailureFanOut | internal/service/service_worker.go:221-237 | A failed convert or anonymize callback fails exactly the document's requests in flight; terminal requests, other documents and everything else stay as they are |
| Callbacks.ResultFailure | internal/service/service_worker.go:174-186 | A failed resolve_keys or extract callback fails exactly its own request, whatever its state, with the reported text |
| Callbacks.DocumentIsolation | internal/service/service_worker.go:90-237 | A callback with all that it sets off changes only its document's tasks, requests, artifacts and values and its tenant's keys, and publishes only for that document |
| Data.UpsertAllRows | internal/service/service_extraction.go:288-300 | Each accepted name ends as a tenant key with its last entry's query and type; names stay unique; system keys and other tenants' keys are untouched |
| Data.UpsertAllIdempotent | internal/service/service_extraction.go:288-300 | Upserting the same keys again changes nothing |
| Data.OfferedKeys | internal/repository/extraction.sql.go:144-148 | The keys sent with resolve_keys are exactly those visible to the tenant |
| Data.KeyOfPreferred | internal/repository/extraction.sql.go:48-53 | The name lookup yields the one visible key of that name that no tenant key shadows |
| Data.SavedCells | internal/service/service_extraction.go:398-445 | A cell holds the payload's value if its key is what a name with a value resolves to, and else what it held before |
| Data.RunExtract | internal/service/service_extraction.go:346-381 | An extract result writes those cells, completes the request, and nothing else |
| Data.WriteReadAgreement | internal/service/service_extraction.go:164-204 | Right after an extract result the answers contain every value whose name is in the schema and resolves |
| Data.ListedAnswers | internal/repository/extraction.sql.go:95-105 | Answers are exactly the stored values of the document and tenant under keys with the asked names |
| Data.AnswersAre | internal/service/service_extraction.go:164-204 | In any status of the request an answer is given if and only if the cell of a key that the schema names is stored, with that key's type and that value, and once for each such key |
| Data.AnswersAreOwn | internal/service/service_extraction.go:178-203 | Every answer is a value of this document and tenant, under a visible key that the schema names |
| Watchdog.ListedSpec | internal/repository/document_task.sql.go:264-275 | A scan lists distinct stale tasks, oldest first, at most a batch, and leaves a stale task out only for a full batch at or before its updated_at |
| Watchdog.Cycle | internal/watchdog/watchdog.go:59-85 | A scan alone requeues or fails exactly the listed tasks and spends exactly one remaining visit for each |
| Fairness.WearsOut | internal/watchdog/watchdog.go:82-139 | As many scans as there are remaining visits leave every task completed or failed |
| Fairness.ExactVisits | internal/watchdog/watchdog.go:104-139 | A task is requeued at each of its first MaxRetries - retry_count listings and failed at the next, its last |
| Fairness.InterleavedRound | internal/watchdog/watchdog.go:66-84 | A scan that is not killed leaves every task it listed claimed, failed or refreshed, whatever executes between its statements |
| Fairness.FairSchedule | internal/watchdog/watchdog.go:59-85 | The same of any schedule from a reachable world: after so many unkilled scans made one after the other by any threads, that task has been claimed, failed or refreshed |
| Database.Store.constructor | internal/config/config.go:73-84 | An empty database with a valid configuration satisfies the invariant |
| Database.Store.UpsertArtifact | internal/repository/document.sql.go:15-26 | Inserts the artifact of a parent and kind or gives its row the new path |
| Database.Store.Insert | sql/migrations/000003_extraction_requests.up.sql:70-80 | Checks constraints, then both partial unique indexes, and adds the row or not |
| Database.Store.CreateDocumentTaskSingleton | internal/repository/document_task.sql.go:105-112 | A singleton insert: the row, a conflict, or a refusal |
| Database.Store.CreateDocumentTaskForRequest | internal/repository/document_task.sql.go:60-67 | A per-request insert: the row, a conflict, or a refusal |
| Database.Store.CreateDocumentTask | internal/repository/document_task.sql.go:17-24 | The public insert takes any module and the document's own path, and yields nothing for another tenant's document |
| Database.Store.InsertDocument | internal/repository/document.sql.go:76-80 | Adds a root document with its path |
| Database.Store.UpdateWorkerStatus | internal/repository/document_task.sql.go:546-556 | Sets status and what is given, keeps what is not, and stamps the row |
| Database.Store.UpdateResultPayload | internal/repository/document_task.sql.go:509-515 | Rewrites one payload and stamps the row |
| Database.Store.UpdateStatus | internal/repository/document_task.sql.go:473-481 | Sets the status of a task of the tenant, and of no other |
| Database.Store.ListStale | internal/repository/document_task.sql.go:264-275 | Distinct live tasks older than the cutoff, oldest first, up to a batch; one is left out only for a full batch at or before it |
| Database.Store.MarkStaleFailed | internal/repository/document_task.sql.go:417-424 | Fails the row if it is still live and older than the cutoff, and says whether it did |
| Database.Store.MarkStalePending | internal/repository/document_task.sql.go:443-453 | Claims the row if it is still live and older than the cutoff, and says whether it did |
| Database.Store.ListPending | internal/repository/extraction_request.sql.go:110-115 | Exactly the document's pending and running requests, oldest first |
| Database.Store.SetRequestState | internal/repository/extraction_request.sql.go:184-190 | Sets status and error without looking at the old status |
| Database.Store.UpsertExtractionKey | internal/repository/extraction.sql.go:209-216 | Inserts or refreshes the tenant's key; one that does not fit the columns is refused |
| Database.Store.KeysByNames | internal/repository/extraction.sql.go:48-53 | Exactly the keys with these names that the tenant sees and that are not shadowed, each once |
| Database.Store.BatchUpsertExtractedData | internal/repository/extraction.sql.go:15-23 | Writes each value to its cell and leaves every other; refused as a whole if a key id comes twice |
| Extraction.FirstOfKind | internal/service/service_extraction.go:639-648 | The search loop finds the first artifact of a kind |
| Extraction.ExtractionService.Initiate | internal/service/service_extraction.go:90-139 | Rejects no questions and foreign documents without a change; else one new row with exactly the document, tenant, questions and anonymize flag of the call and no schema, older rows as they were, progressed as the reference effect says |
| Extraction.ExtractionService.Progress | internal/service/service_extraction.go:206-261 | Ends in the state of the run that decides from the artifacts, which is the reference effect |
| Extraction.ExtractionService.EnqueueResolveKeys | internal/service/service_extraction.go:447-519 | One row and one message with the questions and the tenant's keys; delivered, the row is pending and a pending request running; otherwise both are failed with their texts |
| Extraction.ExtractionService.EnsureSingleton | internal/service/service_extraction.go:561-623 | For a free slot and a usable path one row, pending if delivered and failed with the publish error if not, and exactly one message; requests unchanged; otherwise no change at all |
| Extraction.ExtractionService.EnqueueExtract | internal/service/service_extraction.go:521-559 | Insert, publish, both failure marks; with the caller's failure mark after an error it ends in the reference effect |
| Extraction.ExtractionService.OnResolveKeysCompleted | internal/service/service_extraction.go:263-341 | Keys, schema and extract task as the reference effect, its error being the failure mark that remains for the caller |
| Extraction.ExtractionService.UpsertNewKeys | internal/service/service_extraction.go:288-300 | The loop equals upserting all entries in order, skipping refused ones |
| Extraction.ExtractionService.OnExtractCompleted | internal/service/service_extraction.go:343-381 | Values and completion as the reference effect, its error being the failure mark that remains for the caller |
| Extraction.ExtractionService.PersistExtractedData | internal/service/service_extraction.go:398-445 | For every iteration order of both map loops, each cell of the document holds the value of the name that resolves to its key, or what it held before |
| Extraction.ExtractionService.KeyIdsByName | internal/service/service_extraction.go:405-419 | Maps exactly the payload names that resolve, to what they resolve to |
| Extraction.PickedDistinct | internal/service/service_extraction.go:421-444 | The key ids collected are pairwise distinct, so the batch never hits one row twice |
| Extraction.ExtractionService.GetAnswers | internal/service/service_extraction.go:164-204 | In any state and status: an answer is in the result if and only if the cell of a key that the schema names is stored, with that key's name, type and value, and once for each such key |
| Worker.WorkerService.HandleStatusUpdate | internal/service/service_worker.go:88-196 | Unknown tasks are not found and change nothing; else returns the row updated field by field, keeps the invariant and ends in the reference effect of the callback |
| Worker.WorkerService.RegisterConvertArtifacts | internal/service/service_worker.go:353-391 | Registers the markdown file and rewrites the payload, or does nothing without a path |
| Worker.WorkerService.RegisterAnonymizeArtifacts | internal/service/service_worker.go:393-452 | Registers whichever of the two files were returned, and rewrites the payload only then |
| Worker.WorkerService.TriggerAnonymize | internal/service/service_worker.go:263-307 | For a free slot and a usable path in the delivered payload one anonymize row, pending if delivered and failed if not, and exactly one message; otherwise no change at all |
| Worker.WorkerService.ProgressPendingRequests | internal/service/service_worker.go:198-219 | The loop over a list read once progresses each request in order, as the reference effect |
| Worker.WorkerService.FailPendingRequests | internal/service/service_worker.go:221-237 | The loop over a list read once fails exactly the pending and running requests of the document |
| WatchdogLoop.WatchdogService.RunOnce | internal/watchdog/watchdog.go:58-85 | Revisits exactly the listed tasks, once each and oldest first, as the reference effect says, messages included, and keeps the invariant |
| WatchdogLoop.WatchdogService.ProcessTask | internal/watchdog/watchdog.go:87-139 | Gives up or claims, and publishes only after a won claim |
| WatchdogLoop.WatchdogService.PublishAgain | internal/watchdog/watchdog.go:148-190 | Sends one message up to three times, stopping when delivered, giving up instead of the next attempt on a shutdown, and failing only after the third refusal |
| TaskApi.DocumentTaskService.Create | internal/service/service_document_task.go:29-77 | Succeeds if and only if the module is convert, the document the tenant's with a usable path, and the slot free; then one pending row and exactly one message, whatever the broker answers; else the error tells why and nothing changes |
| TaskApi.DocumentTaskService.UpdateStatus | internal/service/service_document_task.go:115-124 | Updates a task of the caller's tenant or reports not found and changes nothing |
| DocumentApi.DocumentService.Create | internal/service/service_document.go:38-44 | Adds the document, whatever its path, and keeps the invariant |

## Left out

- Deletion of documents and tasks, and the cascades: rows are never removed, which the existence results need.
- Failing database calls, apart from those that the data itself provokes (blank paths, conflicts, over-long new keys): the code logs such errors and goes on.
- Column widths other than those of extraction_keys, NUL characters in text, and status texts outside the four allowed ones.
- Wakeup.NoLostWakeup: nothing is promised to a request whose only awaited thread is killed, because `Stranding.CrashStrands` is true, nor that the next task will be finished, because `Stranding.DeadTaskStrands` is true.
- Loss of committed rows; the death of any thread at any statement is modelled (`Crash`) and covered by the results in `Safety.dfy`.
- Expired deadlines: when a detached context runs out, the rest of that context's statements fail, the marks of a failed publish among them (`internal/service/service_extraction.go:514-515`), and one slow publish in the loop of `progressPendingRequests`, which shares one deadline (`internal/service/service_worker.go:204`), costs the later requests their wakeup. A killed thread (`Crash`) covers an expiry that ends a callback; one after which the callback goes on with a fresh context is not modelled.
- Shutdown between two attempts: a cancelled attempt stands for giving up without sending.
- A nil Python client, with which rows are inserted and nothing is published.
- One clock serves the watchdog's cutoff and the database's now(); skew between two hosts is not modelled.
- created_at order is id order, and rows with equal updated_at are listed by id, where PostgreSQL may choose; the results on scans use only the order of updated_at.
- ORDER BY key_name in key and answer lists: only their contents are modelled.
- File names, MIME types, sizes, counters in payloads, display names and categories of keys: nothing decides on them.
- JSON text: a payload is what it decodes to. An error text is a value of `ErrorText`, not its wording; the publisher's own message is `PublishError`.
- HTTP handlers, tokens, object storage, the message envelope, sites, users, audit and activity triggers: they do not take part in the pipeline's decisions.
