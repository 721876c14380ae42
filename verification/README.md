# Upload-job lifecycle of the Seedr proxy service

This project models, in Dafny, the asynchronous upload jobs of a small HTTP
service that forwards uploaded files to a Seedr cloud storage account
(`server.py`). A client posts a file; the service stages it under `/tmp`,
writes a `pending` status record for a fresh job id and answers 202 at once.
After the response a background worker writes `processing`, makes one upload
attempt, writes `completed` (with the remote result) or `failed` (with a fixed
message) and removes the staged file whatever happened. Clients poll the job's
record through the status endpoint. The model also covers how a delete request
picks between the file and folder delete calls.

Modules:

- `Json` (`json.dfy`): JSON values, job records (dicts with string keys), responses.
- `JobStatus` (`job_status.dfy`): the four statuses and the dict each is written as,
  a decoder that reads such a dict back, and the pending → processing →
  completed | failed state machine with its no-skip, no-revisit lemmas.
- `StatusStore` (`status_store.dfy`): the status directory as a map from record
  file path to record; the record path of a job id (with `os.path.join`
  semantics); `read_status`; a write log with `Replay` and `HistoryOf`, and the
  lemma that a read returns the record most recently written.
- `Remote` (`remote.dfy`): remote call outcomes (a payload or an exception) and
  the remote calls the modelled endpoints make.
- `UploadJobs` (`upload_jobs.dfy`): the class `Server` holding the status
  store, the staged files and the remote calls made; `write_status`, the
  dispatcher `upload_file`, the worker `upload_to_seedr_in_background`, and the
  two run back to back; temp-path naming and the job-history lemmas.
- `Endpoints` (`endpoints.dfy`): `get_upload_status` and `delete_item` as functions.

The job id from `uuid.uuid4()` is a parameter of the dispatcher, constrained
to the text form of a version-4 uuid and to having no record yet. The remote
upload and delete calls are parameters: the outcome each call returns or
raises. Staging the upload is a parameter too: it succeeds, fails when the file
is opened, or fails during the copy after the file was created.

Behaviours of the code that the model keeps:

- The status endpoint answers 404 for an empty record as well as a missing one
  (`if not status`).
- When the byte copy fails after the staged file was opened, the request fails
  with the generic 500 and no record is written, but the partly written staged
  file stays under `/tmp`: nothing removes it. `Server.UploadFile` states this.
- The worker is registered before `pending` is written. It runs only after the
  response, so it always sees the `pending` record already in place.

## Model

| member | source | states |
|---|---|---|
| `JobStatus.EncodeStatus` | server.py:69-74 | every record the service writes is a non-empty dict with a string `status`; it has `result` exactly when completed and `error` exactly when failed |
| `JobStatus.DecodeStatus` | server.py:69-74 | a dict accepted as a status is exactly the record written for that status |
| `JobStatus.DecodeEncode` | server.py:69-74 | every status reads back from the record written for it |
| `JobStatus.EncodeInjective` | server.py:69-74 | distinct statuses are written as distinct records |
| `JobStatus.ForwardOnlyStageAt` | server.py:69-74 | in a history that moves only pending → processing → terminal, the i-th status is at stage i |
| `JobStatus.ForwardOnlyNoSkipNoRevisit` | server.py:64-77 | such a history has at most three statuses, skips none, repeats none, and nothing follows a terminal status |
| `JobStatus.LifecycleIsForwardOnly` | server.py:68-74 | pending, processing, terminal is a valid history, and a terminal status has no successor |
| `StatusStore.RecordPath` | server.py:58 | a relative id's record file is `STATUS_DIR/<id>.json`; an absolute id discards `STATUS_DIR` and gives `<id>.json` |
| `StatusStore.PlainRecordPathIsEntry` | server.py:53 | for an id without `/` the record file is the single entry `<id>.json` of `STATUS_DIR`, a name that is neither `.` nor `..` |
| `StatusStore.RecordPathInjective` | server.py:51-54 | distinct ids without `/` have distinct record files, as files and not only as path strings |
| `StatusStore.AbsoluteIdAliases` | server.py:58 | an id starting with `/` escapes `STATUS_DIR` and can name the record file of another id |
| `StatusStore.ReadStatus` | server.py:56-62 | `read_status` is None exactly when the record file does not exist, otherwise the stored dict |
| `StatusStore.HistoryOfConcat` | server.py:51-54 | the records written to one file by two runs of writes are those of the first run, then those of the second |
| `StatusStore.ReadIsLastWrite` | server.py:56-62 | after any sequence of whole-file writes a read returns the record most recently written for the id, or the earlier content if none was |
| `StatusStore.WriteReplacesOnlyItsRecord` | server.py:51-54 | a write replaces the id's record and leaves every record at another path unchanged |
| `Remote.PassThrough` | server.py:141-147 | a remote result is returned with 200; a raised remote call becomes the generic 500 |
| `Json.Falsy` | server.py:105 | `not status` holds exactly for None and for an empty dict |
| `JobStatus.DecodeHistory` | server.py:69-74 | a sequence of records reads back as statuses of the same length, each written as its record; it reads back whenever every record does |
| `JobStatus.DecodeLifecycle` | server.py:69-74 | the records pending, processing, terminal read back as that status history |
| `UploadJobs.TempPath` | server.py:89 | the staged path is `/tmp/`, the id, `-` and the client filename, in that order, so id and filename can be read back from it |
| `UploadJobs.AcceptedResponse` | server.py:97 | the dispatcher's answer is 202 with a body holding only `file_id`, the job id |
| `UploadJobs.TempPathInjective` | server.py:88-89 | ids of equal length (all uuids) give distinct jobs distinct staged files, and the path determines id and filename |
| `UploadJobs.TempPathOutsideStatusDir` | server.py:89 | a staged file of a uuid job is never a record file |
| `UploadJobs.UuidIsPlainName` | server.py:88 | a uuid contains no `/`, so its record file is one entry of `STATUS_DIR` |
| `UploadJobs.TerminalStatus` | server.py:70-74 | the worker's final status is terminal: completed with the remote result exactly when the upload returned, otherwise failed with "Upload process failed." |
| `UploadJobs.FailedRecordIsGeneric` | server.py:72-74 | the failed record is the same whatever the exception, and carries the fixed message |
| `UploadJobs.JobHistory` | server.py:64-97 | over dispatch and worker, with writes to other record files before, between, during the upload and after, the job's record goes pending, processing, terminal, once each in that order; that history reads back as a forward-only status history, and a read sees the terminal record |
| `UploadJobs.JobLogHistory` | server.py:64-97 | in the interleaved log the job's record history is its earlier history followed by pending, processing, terminal |
| `UploadJobs.OtherJobsLeaveRecordAlone` | server.py:51-54 | writes of other uuid jobs never touch this job's record |
| `UploadJobs.JobHistoryAmongOtherJobs` | server.py:64-97 | a fresh uuid job's record history is pending, processing, terminal even when other uuid jobs' workers write before, between, during its upload and after |
| `UploadJobs.Server.constructor` | server.py:31-32 | the service starts from an existing status directory and set of staged files, with no remote call made |
| `UploadJobs.Server.WriteStatus` | server.py:51-54 | the job's record is replaced whole and every other record file is unchanged; the write is appended to the log |
| `UploadJobs.Server.UploadFile` | server.py:83-97 | for a fresh uuid: the file is staged at `/tmp/<id>-<filename>`, the record becomes pending, the worker is registered for that id and path, and the answer is 202 with the id; if staging raises, 500, no record, no worker, and the staged file exists exactly when it was created |
| `UploadJobs.Server.UploadToSeedrInBackground` | server.py:64-77 | writes processing, then the terminal status for the outcome; exactly one upload call with the staged path; the staged file is removed and no other staged file changes, on every outcome |
| `UploadJobs.Server.ServeUpload` | server.py:83-97 | dispatch followed by the worker: answer 202; exactly the job's three writes (pending, processing, terminal) are appended to the write log, so every other record's history is unchanged; the new store is the old one with the job's record set to the terminal record; the job's record history reads back as the forward-only history pending, processing, terminal; other plain ids' records and other staged files are unchanged; the staged file is gone |
| `Endpoints.GetUploadStatus` | server.py:99-107 | 404 with "File not found" exactly when there is no record or it is empty, otherwise 200 with the stored record unchanged; the store is only read |
| `Endpoints.PollReportsWrittenStatus` | server.py:104-107 | a poll after any status write answers 200 with a body that reads back as that status |
| `Endpoints.DeleteItem` | server.py:136-147 | "file" makes only the file delete call, "folder" only the folder delete call, any other type answers 400 and makes no call; a made call's result is passed through |
| `Endpoints.DeleteItemDefaultsToFile` | server.py:137 | without an explicit type the request deletes a file |

## Left out

- The web framework: routing, the root endpoint, request parsing, the 422 validation handler and `JSONResponse` details. The generic 500 handler appears only as the response a raised call gets.
- Loading credentials from the environment and building the Seedr client: process setup.
- The remote client's own behaviour: `upload_file`, `delete_file` and `delete_folder` are reduced to "returned this payload" or "raised". The `/add`, `/list` and `/status` endpoints only pass a remote call through and have no logic of their own.
- Byte copying, JSON serialisation and file-system calls: the status directory is a map, the staged files a set.
- Failures of local writes: `write_status` is taken to succeed. A write that raises part-way (a truncated record file, or a failed write in the `except` branch that leaves the record at `processing`) is not modelled.
- The shape of `json.load`'s result: a record file is taken to hold a dict, the only kind this service writes.
- Randomness of `uuid.uuid4`: the id is a parameter with the uuid text form and no existing record.
- Scheduling of background tasks and concurrency between jobs: one job's dispatch is followed by its worker. `UploadJobs.JobHistory` allows other jobs' writes before, between, during the upload and after, but only as whole writes.
- Endpoints.GetUploadStatus: never answers 500 in the model, because a write is an atomic map update. In the code `write_status` truncates the file on open and then streams the JSON, so a poll that reads the job's record while its worker is writing can see an empty or partial file. `json.load` then raises and the generic handler answers 500.
- UploadJobs.Server.UploadToSeedrInBackground: the staged file's removal is taken to succeed. In the code `os.remove` in the `finally` block can itself raise, and then the staged file stays.
- Path normalisation: paths are compared as strings. The framework's path-parameter rule keeps `/` out of a job id in a status request. The lemmas about record files therefore require ids without `/`: for such an id the record file is one directory entry, so equal strings and equal files coincide. `StatusStore.AbsoluteIdAliases` shows what an id starting with `/` would do. `.` and `..` segments in an uploaded filename are not resolved either.
- Logging.
