# DocMind: verified model of the document and analysis pipeline

DocMind takes an uploaded file through scan, object storage and text extraction, and then through one or more LLM
analyses. Three Celery tasks, an upload request, the API requests on documents and analyses and a message consumer
share a document table, an object store, a temp directory, a text collection and an analysis collection with two
unique indexes. Every call any of them makes can fail, before or after it took effect; tasks and messages are retried
and may be delivered twice.

The project models this as one step system and proves what holds on every run.

- A *process* is one run of a task, a message, or a request. Its program counter names the external call it makes next:
  one database call, file operation, storage call or publish. A step is one such call, except that updating an
  analysis, which finds the row and saves it back, is one step. `Outcome` says how it turns out:
  it may raise before or after its effect landed, with an exception that is retried or not, be refused, or lose the
  connection.
- Processes take their steps in any order. The outside world may at any time start an upload, a cancellation, a new
  analysis, a retry or a removal, and may deliver any task or message once more with any retry count.
- A redelivered task or message starts again from its first call, over whatever the earlier attempt left.

Beside the step system stands the program as it is written: classes whose methods make these calls statement by
statement, with exceptions as out-parameters (`Tasks`, `Uploads`, `Analyses`, `Messages`). Each is proved to make
exactly the calls the machine prescribes, so that `Sessions.SessionIsRun` turns what they do into runs, to which every
theorem applies. What the steps of a process come to is stated apart from them: `Deliveries`, `Answers` and `Intake`
give, for every state and every answer of the environment, the tables a whole task, message or request leaves behind.

## Files

| files | contents |
|---|---|
| `Types`, `AnalysisTable`, `Pipeline` | statuses, documents, analyses with their indexes, the shared state, processes and their program counters |
| `BaseTask`, `ScanTask`, `UploadTask`, `ExtractTask`, `UploadRequest`, `Services`, `Consumer`, `Validation` | the step function of each kind of process |
| `Machine` | systems, events, runs |
| `Invariant`, `Writes`, `Safety` | the invariant, one lemma for each kind of write, and its preservation by every call |
| `Runs`, `Progress`, `Termination` | no stuck analysis, no stuck document, every run ends |
| `Idempotence` | overlapping get-or-create calls and retries |
| `TableWrites`, `Rules`, `Finality`, `Retries` | what each call writes to the analyses, rules about overlapping, final states, retry lineage |
| `Temps`, `TempRuns`, `Leaks` | temp files: kept while tasks do not overlap, and exactly when they are left behind |
| `Gate`, `Versions` | what was stored went through a scan; which prompt lookup a recorded version came from |
| `Deliveries`, `Answers`, `Intake` | what one task, one message or request, and one upload request does when nobody interferes: exact rows, files and messages |
| `Histories`, `Theorems` | what the histories mean, and the promises from empty tables |
| `Scenarios`, `Limits` | concrete runs on which the promises end |
| `Stores`, `Tasks`, `Uploads`, `Analyses`, `Messages`, `Sessions` | the programs statement by statement, and their refinement of the machine |
| `RateLimiter`, `Prompts`, `Instream`, `Pagination`, `FileSaver`, `Storage` | the self-contained parts |

`dafny verify dfyconfig.toml` checks everything (with the options `--resource-limit 2000000
--verification-time-limit 0`).

## Assumptions

- The hash is collision-free (`Config.CollisionFree`). Hash, type detection and extraction are functions of their
  input. Temp names are fresh: a request, its temp file and the object made from it carry the same number.
- The application never deletes a document row, a stored object or a text; the database commits a single statement
  atomically.
- A call *gives up* a document or an analysis where the program has no further recourse (`GivenUpDoc`, `GivenUpRun`):
  a recovery call raises, an insert raises after it landed, or a handler of a removed analysis writes over the one that
  took its place. The statements about stuck work are per document and per analysis: they exclude only the one that
  some call of the run gave up. `Limits` gives the runs.
- `Respects` marks the runs that keep a rule about overlapping (`Rules.Rule`), and each statement names the rule it
  needs: the processes of one analysis, a retry and the removal of its parent, or the request and tasks of one
  document. A process is in the way only while it is in the middle of its work; everything else interleaves freely,
  and every call may fail. `Limits` gives the runs on which the statements fail without the rule, and
  `TableWrites.KeepsFinalIff`, `TableWrites.LineageIff` and `Leaks.UnheldIffLetGo` say exactly when.
- On the n-th redelivery the count a message carries is n.

Where code and documentation differ the model follows the code. In particular `task_acks_late` is not an option of
`celery_app.task`, so tasks are acknowledged when they start and a task is repeated only by its retries or by a
duplicate; a redelivered upload task whose file is gone sets `cancelled` even on a finished document; and
`create_prompt` leaves the replaced prompt in the cache.

## Model

| member | source | states |
|---|---|---|
| `Theorems.StoredTextIsOwnText` | src/services/file_processor.py:309-379 | On every run, the text stored for any document, extracted or copied from a duplicate, is what extraction gives for that document's own uploaded bytes and accepted type. |
| `Theorems.StorageAgreesWithUploads` | src/worker/s3_upload_task.py:58-70 | A document's `file_key` names a stored object with exactly the bytes uploaded for that document; its temp file is absent or holds the same bytes; uploaded, extracting and extracted imply a key. |
| `Theorems.NothingStoredIsLost` | src/worker/s3_upload_task.py:176-185 | From any reachable state on, no object is ever overwritten or dropped, no text changes, no key is cleared, whatever is retried, duplicated or fails ambiguously. |
| `Theorems.RestoreHasKey` | src/worker/extraction_tasks.py:111-124 | The `file_and_key_is_missing` error cannot occur: whoever restores a file has the key of an object that exists. |
| `Theorems.StoredObjectsWereScanned` | src/worker/antivirus_tasks.py:42-89 | With scanning on and fail-closed, some call of the run is a scan of exactly the stored bytes that came back clean, for every stored object. |
| `Theorems.StoredObjectsPassedAScan` | src/worker/antivirus_tasks.py:42-89 | With scanning on and either setting for an unavailable scanner, in any interleaving: every stored object is the file, bytes and all, of a scan of its own request that neither raised nor answered infected; unavailable counts only when the setting lets it pass. |
| `Theorems.AnalysesBelong` | src/services/analysis.py:142-220 | Every analysis belongs to a document with a stored text, its result was computed from that text; a retry points backwards, has the document and provider of its parent, and is its only child. |
| `Theorems.ResultsNameTheirPrompt` | src/stream/consumers/document_analysis.py:218-279 | On every run the prompt version recorded with a result is one that a prompt lookup of a handler of the same document and request returned earlier in the run. |
| `Theorems.MissingTextIsEmptyText` | src/stream/consumers/document_analysis.py:192-214 | The text-not-found branch is reached only when extraction of the uploaded file gives the empty text. |
| `Theorems.UnfinishedDocumentsAreHeld` | src/worker/extraction_tasks.py:74-109 | At every moment an unfinished document that no call gave up is covered by a live request or task of the strength its status needs. |
| `Theorems.DroppingAnExtractionIsSafe` | src/worker/extraction_tasks.py:94-103 | When an extraction drops out on the status created, scanning or uploading, another live process takes the document over whatever its status, unless a call of the run gave this document up. |
| `Theorems.NoDocumentIsStuck` | src/worker/base_task.py:44-76 | With nothing pending a document is extracted, infected, failed or cancelled, unless its own last resort raised in some call of the run. |
| `Theorems.UnfinishedAnalysesAreHeld` | src/services/analysis.py:342-384 | At every moment, removals included, an unfinished analysis that no call gave up has a publisher, a message or an extraction that will dispatch it, or is the upload's own analysis and its document has no text yet. |
| `Theorems.NoAnalysisIsStuck` | src/services/analysis.py:261-274 | With nothing pending, removals included, an analysis is finished or waits for a document that came to a bad end or was given up, unless some call gave up this very analysis. |
| `Theorems.EveryRunEnds` | src/stream/consumers/base.py:75-113 | From every state the pending calls can be made until nothing is pending, in at most as many calls as the weighted sum over tasks and messages, and without giving up a document. |
| `Theorems.EverythingFinishes` | src/worker/base_task.py:23-55 | From wherever a run has got to it can be continued until nothing is pending; then every document is finished that was not given up before, and every analysis is finished, waits, or was given up. |
| `Theorems.CallsAreBounded` | src/worker/extraction_tasks.py:344-352 | A run in which the outside acts k times makes at most k times a constant many calls. |
| `Theorems.StartedAtMostFourTimes` | src/stream/middleware.py:22-29 | A task or message that is enqueued once is started at most four times in any run. |
| `Theorems.TempFilesDoNotLeak` | src/worker/base_task.py:119-133 | When the request and tasks of one document do not overlap, whatever cancellations, handlers and other requests do meanwhile, a temp file whose unlink did not fail exists only while its request runs or a task for it is pending. |
| `Theorems.LeftFileWasLetGo` | src/worker/base_task.py:99-106 | In any interleaving, a file is at some moment there without a holder if and only if its last holder let it go, cancelling with the file present or dropping out on the status; only then can it be left behind. |
| `Theorems.AnalysesAreWellFormed` | src/stream/consumers/document_analysis.py:172-279 | When the processes of one analysis do not overlap, everything else and removals interleaving freely: failed exactly when a failure kind is set, success exactly when result and prompt version are set. |
| `Theorems.FinishedAnalysesStay` | src/stream/consumers/document_analysis.py:107-131 | Under the same rule no later call of any process changes a finished analysis before it is removed. |
| `Theorems.RetriesRepeatFailures` | src/services/analysis.py:163-218 | In any interleaving in which every write is in line, the parent of a retry exists, failed for a transient reason, and has the same document and provider. |
| `Theorems.SeparateRetriesRepeatFailures` | src/services/analysis.py:276-336 | So it is when the processes of one analysis do not overlap, nor a retry and the removal of its parent. |
| `Safety.RunIsSafe` | src/services/file_processor.py:143-268 | The invariant behind all of this, and the facts no step takes back, hold along every run: any order of single calls, any failures, any duplicates. |
| `Safety.StepKeepsSafety` | src/worker/extraction_tasks.py:31-109 | Every single external call of every process keeps the invariant, whatever its outcome, and what the process and its message may rely on next is in place. |
| `Safety.CopiedText` | src/services/file_processor.py:472-477 | The text of a document with the same hash is the text of the new upload. |
| `Safety.ReusableOk` | src/repositories/documents.py:56-64 | Every reuse candidate names a stored object whose bytes have the wanted hash (which documents are candidates is `UploadRequest.ReusableIff`). |
| `UploadRequest.ReusableIff` | src/repositories/documents.py:56-64 | A document is a reuse candidate if and only if it has the hash and a key, whatever its status. |
| `UploadRequest.WithTextIff` | src/repositories/mongo_documents.py:35-41 | A candidate is used for analysis at once only if its text is stored and not empty, and all such candidates are considered. |
| `Gate.RunIsGated` | src/worker/antivirus_tasks.py:64-89 | Along every run with scanning on: every object, every file an upload task could still store, and every scan that is about to hand its file on, went through a scan that let it pass. |
| `Versions.RunIsTraced` | src/stream/consumers/document_analysis.py:218-279 | Along every run: each recorded version, and each version a handler carries from its lookup to its last write, was returned by a lookup for that document and request. |
| `Safety.WithTextOk` | src/repositories/mongo_documents.py:35-41 | Only candidates with a text that is there and not empty are used. |
| `Safety.RestoreOk` | src/worker/extraction_tasks.py:134-136 | Restoring a temp file from the object store writes the bytes that were uploaded. |
| `Safety.DegradeOk` | src/services/file_processor.py:482-486 | The degraded duplicate still has a key when it becomes uploaded. |
| `Validation.AcceptedTypeIsAFunctionOfTheBytes` | src/services/file_processor.py:606-634 | Two accepted uploads of the same bytes get the same type, whatever their file names. |
| `Validation.AcceptedIff` | src/services/file_processor.py:555-634 | An upload is accepted under a type if and only if it has between 1 byte and 50 MB, and its first 2048 bytes are detected as that type, or nothing is detected and the file is named `.txt` and the type is plain text. |
| `AnalysisTable.InsertValid` | src/repositories/mongo_analyses.py:13-31 | An insert the unique indexes accept adds one queued row under an unused id, changes no other row, and leaves both indexes exact. |
| `AnalysisTable.UpdateValid` | src/repositories/mongo_analyses.py:96-111 | An update leaves both indexes exact. |
| `AnalysisTable.UpdateRows` | src/repositories/mongo_analyses.py:96-111 | An update changes the row with that document and request and no other. |
| `AnalysisTable.LookupsAreExact` | src/repositories/mongo_analyses.py:33-63 | A lookup by document and request, or by parent, finds a row if and only if that row has this key. |
| `AnalysisTable.AcceptsIff` | src/models/mongo_analysis.py:24-31 | The unique indexes refuse an insert if and only if some row has the same document and request, or the same parent. |
| `AnalysisTable.DeleteValid` | src/repositories/mongo_analyses.py:89-94 | A removal takes exactly this row away, leaves both indexes exact, and its id is never used again. |
| `Writes.PutOk` | src/worker/s3_upload_task.py:184-185 | Storing a temp file never changes an object that is already there, and keeps the scan gate. |
| `Writes.InsertOk` | src/models/mongo_analysis.py:24-31 | Inserting an analysis of a document with a text keeps lineage and indexes. |
| `Writes.UpdateOk` | src/repositories/mongo_analyses.py:102-109 | An update of an analysis keeps results tied to the stored text, and touches no other document. |
| `Runs.StepKeepsRuns` | src/worker/extraction_tasks.py:290-341 | After every call, an analysis its process had to move on is finished, given up, handed to a message or still in that process's hands; it leaves the queued state only finished or with its message. |
| `Runs.DispatchDispatches` | src/services/analysis.py:31-53 | Get-or-create and publish never lose the analysis of the upload: it is published, or the task starts again, or its failure callback takes over. |
| `Runs.HandlerRuns` | src/stream/consumers/document_analysis.py:144-288 | The handler finishes its analysis or comes back to it, or its final failure marks it. |
| `Progress.StepKeepsCover` | src/worker/s3_upload_task.py:49-174 | After every call, a document is covered by the stepping process, by what it enqueued or by the others as strongly as its status needs. |
| `Progress.ApplyKeepsLive` | src/services/file_processor.py:201-266 | Every event, from inside or outside, keeps every unfinished document and analysis in somebody's hands. |
| `Progress.QuiescentIsFinished` | src/services/analysis.py:261-274 | With nothing pending, documents and analyses are finished except those whose last resort raised. |
| `Termination.StepIsLighter` | src/worker/s3_upload_task.py:205-213 | Every call makes its process lighter by more than the weight of what it enqueues. |
| `Termination.RunsAreBounded` | src/stream/consumers/base.py:9 | Calls made plus work left never exceed the work at the start plus what arrived. |
| `Termination.StepUsesAttempts` | src/worker/antivirus_tasks.py:134-139 | Each start of a task or message uses one of its attempts, and no call gives any back. |
| `Idempotence.GetOrCreateAgrees` | src/services/analysis.py:31-53 | Two processes that hold the record for one document and request, now or later, hold the same one unless one was removed. |
| `Idempotence.OneRetryIsPublished` | src/services/analysis.py:163-218 | Of any two children of one analysis that overlapping retries publish in a run, one was removed; so without removals at most one is created and published, once. |
| `Idempotence.SpentExcludes` | src/services/analysis.py:163-176 | After a child was published, every later one, or it, was removed. |
| `Idempotence.OneIdPerKey` | src/models/mongo_analysis.py:24-26 | The unique index hands out one live id per document and request. |
| `TableWrites.StepTable` | src/repositories/mongo_analyses.py:13-111 | Every call of every process writes to the analyses at most once, and what it writes is one insert, update or removal named by its program counter. |
| `TableWrites.KeepsFinalIff` | src/repositories/mongo_analyses.py:102-109 | A write leaves finished analyses alone if and only if it is an update of an unfinished one, finds none, or repeats what is there; inserts and removals always do. |
| `TableWrites.TimelyWellFormed` | src/stream/consumers/document_analysis.py:270-279 | Such writes keep failure kinds, results and prompt versions consistent with the status. |
| `TableWrites.LineageIff` | src/services/analysis.py:163-218 | A write keeps every retry attached to a transient failure if and only if a retry is inserted while its parent is there and retryable, a removed analysis has no child, and an updated one has none or stays retryable. |
| `Finality.StepKeepsFinalIff` | src/stream/consumers/document_analysis.py:107-131 | The same exact condition for one call of any process with any outcome. |
| `Finality.HandlerKeepsFinalIff` | src/stream/consumers/document_analysis.py:172-279 | For each of the handler's five writes, raising after it landed or not: finished analyses stay if and only if its own is unfinished or already has this state. |
| `Finality.StepRelies` | src/stream/consumers/document_analysis.py:163-173 | What a process has read about its analysis holds at its next call. |
| `Finality.ReliesStable` | src/services/analysis.py:261-274 | It is still so after a call of any process of another analysis, and after any removal. |
| `Finality.RunIsFinal` | src/stream/consumers/base.py:28-113 | Along every run in which the processes of one analysis do not overlap, states stay well formed and finished analyses stay as they are. |
| `Retries.StepLineageIff` | src/services/analysis.py:276-336 | One call keeps the lineage of retries if and only if its write is in line. |
| `Retries.InLineKeepsLineage` | src/services/analysis.py:142-220 | The lineage holds along every run, however interleaved, in which each write is in line. |
| `Retries.RunKeepsKin` | src/services/analysis.py:289-312 | It holds along every run that keeps the processes of one analysis apart, and a retry apart from the removal of its parent. |
| `Temps.StepKeepsTemp` | src/worker/extraction_tasks.py:226-264 | After every call a temp file is gone, was left by a failed unlink, or is kept by the process or by what it enqueued. |
| `Temps.OffFileIsHarmless` | src/services/documents.py:114-132 | Cancellations, handlers and requests on analyses never bring a file back, nor a document before its upload. |
| `TempRuns.StepStaysStored` | src/worker/s3_upload_task.py:58-62 | Only a scan or upload that is not over yet takes back that the object is stored. |
| `TempRuns.RunIsTidy` | src/worker/base_task.py:23-55 | Along every run in which the tasks of one document do not overlap every temp file is gone, left by a failed unlink, or kept by a live process. |
| `Leaks.StepDropsIff` | src/worker/base_task.py:99-106 | A process that works with a file drops it, still there, if and only if it cancels with the file present or drops out of the extraction on the status. |
| `Leaks.UnheldIffLetGo` | src/worker/extraction_tasks.py:94-103 | Over whole runs in any interleaving: the file is at some moment there and nobody's if and only if the last process working with it took one of these branches. |
| `Histories.CleanMeansScanned` | src/worker/antivirus_tasks.py:103-131 | Bytes count as clean only after a scan of a temp file with these bytes returned neither an infection nor an error. |
| `Histories.StepRecorded` | src/worker/base_task.py:44-53 | One call gives up a document or an analysis exactly where a recovery call raises, an insert raises after it landed, or a handler of a removed analysis writes over another. |
| `Histories.LostIsGivenUp` | src/services/analysis.py:364-374 | Over whole runs, a document or an analysis counts as lost if and only if some call gave it up. |
| `Limits.FailedRecoveryStrandsDocument` | src/services/file_processor.py:728-756 | A run from empty tables: queue and database fail after the row was written, and with nothing pending the document stays created. |
| `Limits.AmbiguousCreateStrandsDocument` | src/services/file_processor.py:225-233 | A run: the insert of the document lands although it raises, and with nothing pending the document stays created. |
| `Limits.AmbiguousInsertStrandsAnalysis` | src/services/analysis.py:222-249 | A run: the insert of an analysis lands although it raises, and with nothing pending it stays queued on an extracted document. |
| `Limits.LateHandlerStrandsAnalysis` | src/stream/consumers/document_analysis.py:235-239 | A run without a failed recovery: a late handler of a removed analysis writes over the one that took its place, which is then neither published nor marked failed. |
| `Limits.OverlappingDeliveryReopens` | src/repositories/mongo_analyses.py:102-109 | A run: a delivery that was overtaken turns a success into a failure with the result still set. |
| `Limits.RemoveRacesRetry` | src/services/analysis.py:276-336 | Two runs, one for each order of the writes: a retry and a removal that both passed their checks leave a retry of nothing. |
| `Limits.OverlappingTasksLeakFile` | src/worker/extraction_tasks.py:94-103 | A run: two overlapping tasks of one document and a cancellation leave its temp file behind with nothing pending, although no unlink failed. |
| `Sessions.SessionIsRun` | src/stream/consumers/base.py:28-113 | What the statement-by-statement programs do from any system state is a run of the step machine from that state. |
| `Sessions.CallsAreRun` | src/worker/base_task.py:8-21 | The calls of one process in a row are a run, and break no rule about overlapping while the others rest. |
| `Deliveries.EndedDelivers` | src/worker/base_task.py:8-21 | The calls of a process from its first to its end are a delivery, so the statements about deliveries hold for the runs of the machine and for the programs. |
| `Deliveries.ScanDelivery` | src/worker/antivirus_tasks.py:24-89 | A whole scan without a raised call, for every state and every answer: document gone or cancelled, file missing, infected, unavailable under either setting, clean; the exact row, file and task it leaves. |
| `Deliveries.VerdictDecides` | src/worker/antivirus_tasks.py:42-89 | From the scan call on: infected leaves status infected, no file and nothing enqueued. |
| `Deliveries.StoreDelivery` | src/worker/s3_upload_task.py:40-174 | A whole upload without a raised call: the object is stored once, an object that is there stays as it is, a refusal fails the document; the exact row, file, object and task it leaves. |
| `Deliveries.StoreLooks` | src/worker/s3_upload_task.py:176-185 | From the first storage call on: with the object there already the document gets its key, becomes uploaded and goes to extraction, objects unchanged. |
| `Deliveries.ReadDelivery` | src/worker/extraction_tasks.py:31-109 | A whole extraction without a raised call, for every status found: drop out, clean up, dispatch again, or extract from the file or from the restored object, and the exact row, text, file, analysis and message it leaves. |
| `Deliveries.ReadLooksAgain` | src/services/analysis.py:31-53 | An insert the index refuses looks again and publishes what it finds; another provider or nothing found is an error that is tried again. |
| `Deliveries.ReadMissesFile` | src/worker/extraction_tasks.py:226-264 | A file that vanished is restored once; a second time, and without a key, extraction fails for good. |
| `Deliveries.ScanRaises` | src/worker/antivirus_tasks.py:134-139 | A raised call of a scan took effect as a whole or not at all; the task starts again with one retry fewer, or goes to its failure callback when none is left or the error is not retried. |
| `Deliveries.StoreRaises` | src/worker/s3_upload_task.py:205-213 | So it is with the upload. |
| `Deliveries.ReadRaises` | src/worker/extraction_tasks.py:344-352 | So it is with the extraction. |
| `Deliveries.ScanFails` | src/worker/base_task.py:23-76 | The failure callback leaves the document failed, unless it is gone or cancelled, and its file removed. |
| `Deliveries.StoreFails` | src/worker/base_task.py:23-76 | So it is with the upload. |
| `Deliveries.ReadFails` | src/worker/extraction_tasks.py:323-341 | After extraction the document keeps its status and its queued analysis fails for a passing reason; before it the document fails; the file is removed in any case. |
| `Answers.MessageDelivery` | src/stream/consumers/document_analysis.py:144-288 | A whole message without a raised call: a missing or finished analysis stays, a foreign one, one without text and a refused one fail for good, any other succeeds with the text of its document and the version looked up; no other row changes. |
| `Answers.MessageRaises` | src/stream/consumers/base.py:28-113 | A raised call of a handler took effect as a whole or not at all; the message comes back, and from the third redelivery on its final failure is recorded. |
| `Answers.MessageFails` | src/stream/consumers/document_analysis.py:63-142 | The final failure marks exactly a matching analysis that is not finished. |
| `Answers.CancelDelivery` | src/services/documents.py:103-156 | A whole cancellation: status and temp name of this document, the file the row named, and nothing else. |
| `Answers.CreateDelivery` | src/services/analysis.py:222-259 | A whole request for an analysis: one queued row and one message if the document is extracted with a text and the index accepts it, and nothing otherwise. |
| `Answers.ApiNotPublished` | src/services/analysis.py:261-274 | When the publish raises, the analysis fails for a passing reason if it is still queued, even if the message is on its way. |
| `Answers.RetryDelivery` | src/services/analysis.py:142-220 | A whole retry: one row with document and provider of its parent and one message, if and only if the document is ready, the parent is its transient failure and has no child. |
| `Answers.RemoveDelivery` | src/services/analysis.py:276-336 | A whole removal: the row goes if and only if it is a finished analysis of this document without a child. |
| `Intake.UploadDelivery` | src/services/file_processor.py:143-379 | A whole upload request without a raised call: it follows a plan that is right for the documents, keys and texts it found, and leaves the exact row, file and task or message of that plan; a connection lost while copying leads back to extraction. |
| `Intake.RequestRaises` | src/services/file_processor.py:201-266 | A raised call took effect as a whole or not at all; before there is a document only the file goes, after that the document fails, and once its text is stored it stays extracted. |
| `Intake.RequestPublishes` | src/services/analysis.py:342-384 | The message is published, or the queued analysis fails for a passing reason and the file goes. |
| `Intake.RequestLooksAgain` | src/services/analysis.py:31-53 | The request shares get-or-create: it publishes what the second lookup finds, and gives up on another provider. |
| `Stores.Stores.PutObject` | src/storage/s3_storage.py:61-83 | The temp file becomes the object and nothing else changes, unless the call raised or was refused before it landed; then nothing changes. |
| `Stores.Stores.Download` | src/storage/s3_storage.py:94-129 | The object becomes the temp file and nothing else changes, or nothing changes. |
| `Stores.Stores.InsertAnalysis` | src/repositories/mongo_analyses.py:13-31 | The queued row is inserted under both indexes, though the call may raise afterwards; otherwise nothing changes. |
| `Stores.Stores.UpdateAnalysis` | src/repositories/mongo_analyses.py:96-111 | The row found by document and request is changed if the call lands, and no other. |
| `Stores.Stores.Finish` | src/repositories/documents.py:44-54 | Status and temp name of this document change together if the call lands, and nothing else. |
| `Stores.Stores.UpsertText` | src/repositories/mongo_documents.py:21-30 | The text of this document is set if the call lands, and nothing else changes. |
| `Tasks.Task.IsDocumentCancelled` | src/worker/base_task.py:78-92 | A document that is gone or cancelled ends the task after its file is removed. |
| `Tasks.Task.IsPathExists` | src/worker/base_task.py:99-117 | A missing file ends the task with the status cancelled. |
| `Tasks.Task.UpdateStatusAfterFailure` | src/worker/base_task.py:61-76 | The final failure is written unless the document is gone or cancelled; its own errors end in cleanup. |
| `Tasks.Task.OnTaskFailure` | src/worker/base_task.py:23-55 | The failure callback always ends the task. |
| `Tasks.DocumentScanTask.ProcessScanning` | src/worker/antivirus_tasks.py:103-131 | One scan call is made; the verdict is exactly what the scanner answered, none when it was unavailable or the file was gone, and an error exactly when the call raised; the next position is the one this verdict and the setting prescribe. |
| `Tasks.DocumentScanTask.Execute` | src/worker/antivirus_tasks.py:24-89 | The scan makes exactly the calls the machine prescribes, and ends finished or with the error Celery sees. |
| `Tasks.DocumentScanTask.Deliver` | src/worker/antivirus_tasks.py:134-139 | One delivery ends the task or puts it back with one retry less. |
| `Tasks.DocumentUploadTask.UploadDocument` | src/worker/s3_upload_task.py:176-185 | The storage is said to have refused exactly when one of its answers was a refusal; otherwise, unless a call raised, the object is there afterwards, and objects that were there stay as they are. |
| `Tasks.DocumentUploadTask.Execute` | src/worker/s3_upload_task.py:40-174 | The upload makes exactly the calls the machine prescribes. |
| `Tasks.DocumentUploadTask.Deliver` | src/worker/s3_upload_task.py:205-213 | One delivery ends the task or puts it back with one retry less. |
| `Tasks.DocumentExtractionTask.RestoreFileFromStorage` | src/worker/extraction_tasks.py:111-174 | The file is restored, or the document failed, or the task raised. |
| `Tasks.DocumentExtractionTask.ExtractText` | src/worker/extraction_tasks.py:198-224 | The text is stored before the status says so; a vanished file is told from an unreadable one. |
| `Tasks.DocumentExtractionTask.ProcessExtraction` | src/worker/extraction_tasks.py:226-274 | A vanished file is restored once; an unreadable one fails the document. |
| `Tasks.DocumentExtractionTask.GetOrCreateAnalysis` | src/services/analysis.py:31-53 | The record found or created for the key, or an error that is retried. |
| `Tasks.DocumentExtractionTask.DispatchAnalysis` | src/worker/extraction_tasks.py:290-321 | Get-or-create, then publish. |
| `Tasks.DocumentExtractionTask.Execute` | src/worker/extraction_tasks.py:31-109 | The status found decides: extract, clean up, drop out, or dispatch again. |
| `Tasks.DocumentExtractionTask.HandleFinalFailure` | src/worker/extraction_tasks.py:323-341 | An extracted document keeps its status, and its queued analysis is marked failed. |
| `Tasks.DocumentExtractionTask.Deliver` | src/worker/extraction_tasks.py:344-352 | One delivery ends the task or puts it back with one retry less. |
| `Uploads.UploadService.DetermineProcessingPath` | src/services/file_processor.py:309-379 | Unless a call raises there is a plan: the full pipeline exactly when no document has this hash and a key; analysis at once exactly when one of those that do has a stored text and the connection holds, with the key and text of such a document; otherwise extraction from the key of one of them. |
| `Uploads.UploadService.FindReusable` | src/repositories/documents.py:56-64 | The documents found are exactly those with this hash and a key. |
| `Uploads.UploadService.GetContent` | src/repositories/mongo_documents.py:35-41 | Of the documents found, one with a text is used whenever there is one and the connection holds, and otherwise the key of any. |
| `Uploads.UploadService.CreateDocumentForProcessing` | src/services/file_processor.py:270-307 | The row is created with the status and key of its path. |
| `Uploads.UploadService.AnalyzingOnlyProcessing` | src/services/file_processor.py:451-553 | The text is copied and the analysis started, or the path degrades, or the failure says which recovery follows. |
| `Uploads.UploadService.ProcessUpload` | src/services/file_processor.py:143-268 | The whole request makes exactly the calls the machine prescribes and always comes to its end; it succeeds only with one task or message enqueued, and fails without a raised call only with none. |
| `Analyses.AnalysisService.EnsureReadyForAnalysis` | src/services/documents.py:257-287 | Only an extracted document with a text that is not empty goes on. |
| `Analyses.AnalysisService.CreateAndDispatchAnalysis` | src/services/analysis.py:222-259 | Create, publish, and mark failed when the publish raises; success means exactly one message for a run of this document and request, failure without a raised call means none. |
| `Analyses.AnalysisService.RetryAnalysis` | src/services/analysis.py:142-220 | The retry makes exactly the calls the machine prescribes; success means exactly one message, failure without a raised call means none. |
| `Analyses.AnalysisService.MarkDispatchFailed` | src/services/analysis.py:261-274 | Only an analysis that is still queued is marked failed. |
| `Analyses.Removal.RemoveAnalysis` | src/services/analysis.py:276-336 | Success means that the analysis was finished and without a child, and is gone; failure without a raised call means that it was not, and nothing changed. |
| `Analyses.DocumentService.CancelDocumentProcessing` | src/services/documents.py:103-156 | Success means that the document was not cancelled yet, and that exactly its status and temp name changed; failure without a raised call means that it was gone or cancelled already. |
| `Messages.DocumentAnalysisConsumer.CheckAnalysis` | src/stream/consumers/document_analysis.py:163-190 | A missing, finished or foreign analysis ends the message without analysing. |
| `Messages.DocumentAnalysisConsumer.GetPrompt` | src/stream/consumers/document_analysis.py:218-225 | The version is the one the lookup returned; a lookup that raises, a missing prompt included, is a retryable error. |
| `Messages.DocumentAnalysisConsumer.Analyze` | src/stream/consumers/document_analysis.py:242-268 | The report has the text asked about and the version given, and there is none exactly when the provider raised or refused. |
| `Messages.DocumentAnalysisConsumer.Handle` | src/stream/consumers/document_analysis.py:144-288 | The handler makes exactly the calls the machine prescribes and tells retryable errors from dropped ones; a result it records has the stored text of its document and the version its own prompt lookup returned. |
| `Messages.DocumentAnalysisConsumer.OnFinalFailure` | src/stream/consumers/document_analysis.py:63-142 | Only an unfinished analysis that matches the message is marked failed. |
| `Messages.DocumentAnalysisConsumer.Call` | src/stream/consumers/base.py:28-113 | Acknowledge, record the final failure after the third redelivery, or raise for one more. |
| `RateLimiter.RateLimiter.CheckRateLimit` | src/core/rate_limiter.py:13-44 | The count is this request and the earlier ones of the full history in (now - window, now], and the request is allowed if and only if fewer than `limit` earlier ones lie there; other keys are untouched. |
| `RateLimiter.PrunedIsRecent` | src/core/rate_limiter.py:28-34 | Pruning the kept set, expired or not, gives what pruning the whole history gives. |
| `RateLimiter.AfterCounts` | src/core/rate_limiter.py:28-34 | What pruning keeps is as many requests as there are positions in the window. |
| `RateLimiter.RefusedIff` | src/core/rate_limiter.py:42-44 | A request is refused if and only if at least `limit` earlier requests lie in the window that ends with it. |
| `RateLimiter.NoBurst` | src/core/rate_limiter.py:42-44 | No interval of the window's length admits more than the limit, wherever it ends. |
| `RateLimiter.RemainingIsHonoured` | src/core/middlewares/rate_limit.py:55 | An advertised remainder of r means the next r requests are admitted. |
| `RateLimiter.ResetIsEarlyIff` | src/core/rate_limiter.py:40 | At the advertised reset time a request still counts unless it came on a full second; one second later it never does. |
| `Prompts.PromptsRepository.GetActivePrompt` | src/repositories/mongo_prompts.py:17-50 | An entry that has not expired is returned as it is; otherwise the active prompt of the table, if there is one, which is then cached; what is returned was active, with that content, within the last `prompt_ttl` seconds. |
| `Prompts.PromptsRepository.CreatePrompt` | src/repositories/mongo_prompts.py:55-92 | A used version is a conflict and changes nothing; otherwise the new prompt replaces the active one of its type, and the cache is left holding the replaced one. |
| `Prompts.CreateKeepsTable` | src/repositories/mongo_prompts.py:74-90 | Versions stay unique and at most one prompt of each type is active. |
| `Prompts.CreateReplaces` | src/repositories/mongo_prompts.py:74-90 | Creating a prompt deactivates the active one of its type, adds the new one, and changes nothing else in the table. |
| `Instream.FramesRoundTrip` | src/antivirus/client.py:21-28 | For every file and chunk size the scanner decodes exactly the file, and then what follows the zero length. |
| `Instream.ClamAVClient.ScanFile` | src/antivirus/client.py:15-39 | Command, frames and final zero are sent and decode to the file; a plain reply comes out as its text however it was split; a missing file sends nothing. |
| `Instream.ReceivedText` | src/antivirus/client.py:30-39 | A reply with only NULs after its first NUL, as far as one receive can reach, gives the same text for every split into receives of at most 4096 bytes. |
| `Instream.SplitIndependentIff` | src/antivirus/client.py:30-39 | A reply is independent of how receives of at most 4096 bytes split it if and only if only NULs follow its first NUL within that reach. |
| `Pagination.PagesAgree` | src/services/analysis.py:66-76 | The look-ahead page and the counted page of one list are equal, items and `has_next`. |
| `Pagination.PageIsWindow` | src/services/documents.py:82-88 | Page k holds exactly the elements at the positions from (k - 1) * limit up to k * limit, and has a next page exactly when there are more. |
| `Pagination.FollowYieldsAll` | src/services/documents.py:82-88 | Following pages until `has_next` is false yields every element once, in order. |
| `Pagination.PagesShowMatching` | src/repositories/mongo_analyses.py:65-87 | All pages of a filtered list show each matching analysis as often as it is stored, and nothing else. |
| `Pagination.MatchingKeepsOrder` | src/repositories/mongo_analyses.py:65-87 | The filtered list keeps the order of the list. |
| `FileSaver.HashingFileSaver.SaveFromStream` | src/services/file_processor.py:115-122 | The stream is appended to the file and to the hash alike; a closed saver changes nothing. |
| `FileSaver.Save` | src/services/file_processor.py:171-173 | File and hash are those of the uploaded bytes. |
| `Storage.S3Storage.DownloadFile` | src/storage/s3_storage.py:94-129 | The target file appears whole or stays as it was; only a staging file may be left over. |

## Left out

- Idempotence.OneRetryIsPublished: a removal in between allows a second child, as in the program.
- Theorems.StoredObjectsWereScanned: says nothing about what the scanner finds, and nothing with scanning off; `Theorems.StoredObjectsPassedAScan` covers fail-open.
- Deliveries.ReadDelivery: supposes that an analysis found for the upload has its provider; the other case is in `Deliveries.ReadLooksAgain`.
- Intake.UploadDelivery: the same for the upload request, with `Intake.RequestLooksAgain`.
- Tasks.DocumentExtractionTask.Execute: has no branch for an unknown MIME type, because tasks carry the type of an accepted upload.
- Instream.ClamAVClient.ScanFile: timeouts and decoding of the reply as UTF-8 are not modelled.
- RateLimiter.RateLimiter.CheckRateLimit: the window of a key does not change, the clock does not go back and is the one the store expires keys by, and members of the set are distinct; the middleware lets requests pass when the store fails, which is not modelled.
- Prompts.PromptsRepository.GetActivePrompt: calls do not overlap, and the cache is up or down for the whole of a call.
- Stores.Stores.UpdateAnalysis: finding the row and saving it back are one call, so a change between the two, and a removed row coming back, are not captured; nor is the session's habit of not writing a value that did not change.
- FileSaver.HashingFileSaver.SaveFromStream: a write that fails half-way and leaves part of the file.
- Worker crashes between two calls; the wall-clock side of retries, backoff and the retry queue.
- User ids and ownership, request validation, error codes and texts, timestamps, logging and HTTP.
- LLM providers (a result, a retryable error or a refusal), document parsers (a function that may fail), JWT, password hashing, the user cache, presigned URLs, file name sanitising, configuration.
- Deletion and life cycle of stored objects, which the pipeline does not use.
