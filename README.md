# PDF scanning pipeline: a Dafny model

The system takes PDF uploads through an HTTP back end, stores one task row per upload,
and runs a worker that picks up PENDING tasks. The worker sends each file to the
VirusTotal service, polls until the analysis is completed, writes the report document
and marks the task COMPLETED, or marks it FAILED with a message. The back end lists
tasks, shows one task and serves a finished task's report.

What the model covers:

- **The task row** (`Models`). It is a datatype with the status lifecycle
  PENDING → RUNNING → COMPLETED | FAILED. `WellFormed` is the lifecycle invariant:
  - a completion stamp exactly on terminal rows;
  - a report location exactly on COMPLETED rows;
  - an error message exactly on FAILED rows.

  The shared table is the class `TaskStore`. Its map from `task_id` to row is
  updated in place by whole-row commits.
- **The scanner** (`Scanner`).
  - `UploadFile` and `GetAnalysis` turn one service reply into a value or an error
    message.
  - `ScanFile` is the imperative `scan_file`: one upload, then a `while true` polling
    loop. It is proved equal to the specification function `Scan`, built from the
    index-recursive loop specification `Await`.
- **The worker** (`Worker`).
  - `Precheck` runs the three prechecks in order.
  - `Process` is the specification of `process_task` for the row it finds.
  - `Daemon.ProcessTask` and `Daemon.Execute` are the imperative version: they update
    the store and append to the worker's trace of effects.
  - `PendingSnapshot` takes the PENDING query.
  - `Daemon.RunCycle` is one iteration of `main`'s loop, proved equal to the
    specification `Cycle`, which is built from `Step`.
- **The back end** (`Backend`):
  - `CreateTask`;
  - the `get_tasks` listing (`AllRows`, `SortByCreatedDesc`, `GetTasks`);
  - `GetTask`;
  - `GetReport`, with the project-root rewrite of "../" locations (`JoinPath`,
    `ResolveReportPath`).
- **Cross-component facts** (`Pipeline`): intake, worker and report lookup connected
  through the shared path formulas of `Settings`.

The outside world appears as inputs:

- **The scanning service** is a `Script`: the upload replies and poll replies it will
  give, in order. Every operation hands back the replies it did not use. A run that
  uses up the script while the program would still wait ends in the model-only outcome
  `OutOfScript`. The worker then stops, reported by a `stalled` flag.
- **Environment variables** are a map, and the files on disk are a set of paths (`Env`).
- **The clock** is a `now` parameter.
- **The fresh `uuid4()` task id** is a parameter of `CreateTask`.
- **Effects** (commits, service requests, sleeps, report writes) are recorded in order
  as `Event`s.

One might expect processing a row that is already terminal to do nothing. The code of
`process_task` (worker/worker.py:61-110) never looks at the status it finds. The model follows the
code: `ReprocessingOverwritesTerminalRow` shows that a COMPLETED row whose file is
missing is overwritten with FAILED. Only `main`'s PENDING filter prevents this.

## Model

| member | source | states |
|---|---|---|
| Models.NewTask | models.py:5-16 | A new row has the given id, description and filename, status PENDING (the column default), created_at stamped with the insert time, no error, completion or report, and it meets the lifecycle invariant |
| Models.TaskStore.constructor | models.py:5-9 | The task table starts empty, and every row is keyed by its unique task_id |
| Settings.GetEnvOr | worker/worker.py:73 | os.getenv with a default: a variable that is set wins, even when set to the empty string; an unset variable gives the default |
| Settings.UploadPath | backend/main.py:36 | Definition of the upload location `{uploads_dir}/{task_id}_{filename}`, the same formula as worker/worker.py:74; properties in UploadPathPdfIff and Pipeline.IntakeTaskPassesFormatCheck |
| Settings.ReportPath | worker/worker.py:90 | Definition of the report location `{reports_dir}/{task_id}_report.json`; properties in Worker.ProcessSuccess and Backend.DefaultReportResolvesUnderRoot |
| Settings.UploadPathPdfIff | backend/main.py:29-36 | The stored upload path `{dir}/{id}_{filename}` ends in ".pdf" exactly when the original filename does |
| Strings.EndsWithAfterSeparator | worker/worker.py:74-78 | A path that ends in a separator followed by a tail ends with a suffix not containing that separator exactly when the tail does |
| Scanner.UploadFile | worker/worker.py:18-29 | 200 yields the file id, and only 200 succeeds; 429 gives exactly the quota message; any other code fails with "Upload failed: " followed by the response text, which can be read back |
| Scanner.GetAnalysis | worker/worker.py:31-38 | 200 yields the decoded body unchanged, and only 200 succeeds; any other code fails with "Analysis failed: " followed by the response text |
| Scanner.Await | worker/worker.py:45-56 | The polling loop from any position consumes polls only forward and never past the end of the script |
| Scanner.Scan | worker/worker.py:40-59 | Definition of a whole `scan_file` call on a script of replies (one upload, the polling loop `Await`, failures wrapped with the scan prefix); properties in ScanReturnsCompletedBody, ScanStopsAtFirstStop, ScanFailureKeepsCause, ScanPollsOneMoreThanSleeps and ScanEffectsAreServiceCallsAndSleeps |
| Scanner.ScanFile | worker/worker.py:40-59 | The imperative scan (one upload, polling until "completed", failures wrapped with "VirusTotal scan failed: ") yields exactly the outcome, effects and remaining replies of the specification `Scan` |
| Scanner.AwaitStopsAtFirstStop | worker/worker.py:45-56 | The loop runs to the first poll that does not continue; that poll alone decides the result: a completed 200 reply returns its body, and any other code fails without retry |
| Scanner.AwaitNeverStops | worker/worker.py:45-56 | If every remaining poll is an unfinished 200 reply, the loop consumes the whole script and never returns |
| Scanner.AwaitEndsOnStop | worker/worker.py:45-56 | Conversely, every non-stalled outcome comes from the last poll consumed, every earlier poll continued, and the outcome is that poll's stop outcome |
| Scanner.AwaitLength | worker/worker.py:45-56 | The loop has two effects per unfinished poll, plus one for the stopping poll, and its last effect is that stopping poll |
| Scanner.AwaitTrace | worker/worker.py:45-56 | Position by position, the j-th unfinished poll is followed by a sleep of 15 seconds if its status was "queued" and 10 seconds otherwise |
| Scanner.AwaitBalance | worker/worker.py:45-56 | The loop's effects are polls and sleeps only; a loop that stopped made one more poll than sleeps |
| Scanner.ScanReturnsCompletedBody | worker/worker.py:42-50 | A scan returns a report only after an accepted upload and a 200 "completed" poll preceded only by continuing polls; the report is that poll's body, and the polls after it stay unconsumed |
| Scanner.ScanStopsAtFirstStop | worker/worker.py:42-59 | After an accepted upload, the first poll that does not continue decides the scan (wrapped with the scan prefix), and exactly the replies after it remain |
| Scanner.ScanFailureKeepsCause | worker/worker.py:24-59 | Every scan failure is "VirusTotal scan failed: " followed by the cause: the quota message on 429, the upload failure text on another non-200 code, or the analysis failure text of a refused poll |
| Scanner.ScanPollsOneMoreThanSleeps | worker/worker.py:42-56 | A scan that ended on a poll made one more poll than sleeps; a refused upload makes neither |
| Scanner.ScanEffectsAreServiceCallsAndSleeps | worker/worker.py:40-59 | A scan's effects are service calls and sleeps only; it never writes to the task store |
| Worker.ApiKeyConfigured | worker/worker.py:81-82 | Definition of `if not api_key`: the key counts as configured only when it is set and not empty; used by Precheck |
| Worker.Precheck | worker/worker.py:73-83 | The three prechecks in order: missing file, then path not ending in ".pdf", then API key unset or empty; each message is given exactly when its check is the first to fail, and none exactly when all pass |
| Worker.Process | worker/worker.py:61-106 | Definition of `process_task` on the row it found: claim as RUNNING, prechecks, scan, report write, one terminal commit; properties in ProcessEffectOrder, ProcessPrecheckFailure, ProcessSuccess, ProcessTerminalOutcome, ReprocessingOverwritesTerminalRow and ProcessPendingKeepsWellFormed |
| Worker.Step | worker/worker.py:63-67 | Definition of one `process_task(task_id)` call on the whole store: a missing row is left alone, an existing one is processed by Process and its final row committed; Daemon.ProcessTask is proved equal to it |
| Worker.Cycle | worker/worker.py:124-131 | Definition of the per-task loop of one main cycle: Step on each snapshot id in order, stopping at a stall; properties in CycleTouchesOnlySnapshot, CycleEndsTerminal, CycleKeepsWellFormed and CycleFinishesSnapshot, and Daemon.RunCycle is proved equal to it |
| Worker.PendingSnapshot | worker/worker.py:124-126 | The query returns every PENDING task id once, and only PENDING ids that exist |
| Worker.Daemon.ProcessTask | worker/worker.py:61-71 | An unknown id changes nothing; otherwise the store, the trace, the remaining replies and the stall flag become exactly what `Process` prescribes for the row found, and every row stays keyed by its id |
| Worker.Daemon.Execute | worker/worker.py:73-106 | After the RUNNING commit, the prechecks, the scan, the report write and the single terminal commit produce exactly `Process`'s final row, effects after the claim, and remaining replies |
| Worker.Daemon.RunCycle | worker/worker.py:119-131 | One loop iteration of main: a snapshot of the PENDING ids, then process_task on each in order, then a 5-second sleep unless it stalled; store, trace and replies equal the `Cycle` specification |
| Worker.ProcessEffectOrder | worker/worker.py:69-106 | RUNNING is committed before anything else; when the run finishes, the terminal row is the last effect; nothing else is committed in between |
| Worker.ProcessPrecheckFailure | worker/worker.py:73-83 | A failing precheck fails the row with that check's message and the completion stamp, makes no service call and consumes no reply |
| Worker.ProcessSuccess | worker/worker.py:86-98 | A COMPLETED row passed every precheck and had a scan that returned a report; its location is `{reports_dir}/{id}_report.json`; the document written there just before the commit is the scan's report |
| Worker.ProcessTerminalOutcome | worker/worker.py:69-106 | A run stalls exactly when prechecks pass and the script runs out. Otherwise the row ends terminal with the stamp, and its identity columns are untouched. Only success sets `report_path`. A failure message is a precheck message or a wrapped scan failure |
| Worker.ReprocessingOverwritesTerminalRow | worker/worker.py:61-76 | process_task does not check the status it finds: a COMPLETED row whose file is gone becomes FAILED, keeps its report location, and no longer meets the lifecycle invariant |
| Worker.ProcessPendingKeepsWellFormed | worker/worker.py:69-106 | Processing a PENDING well-formed row leaves a well-formed row |
| Worker.CycleTouchesOnlySnapshot | worker/worker.py:128-129 | A cycle keeps the set of task ids and changes no row outside its snapshot |
| Worker.CycleEndsTerminal | worker/worker.py:128-129 | A cycle that did not stall leaves every snapshot task COMPLETED or FAILED |
| Worker.CycleKeepsWellFormed | worker/worker.py:124-129 | A cycle over distinct PENDING ids preserves the lifecycle invariant of every row |
| Worker.CycleFinishesSnapshot | worker/worker.py:124-129 | Over a real PENDING snapshot, a cycle leaves every non-PENDING row unchanged, and, unless it stalled, finishes every task that was PENDING |
| Backend.CreateTask | backend/main.py:24-54 | A filename not ending in ".pdf" gets 400 "Only PDF files are allowed", and nothing is stored or written. Otherwise it answers the new id with "PENDING", inserts exactly one new PENDING row under that id, and writes the upload to `{uploads_dir}/{id}_{filename}` |
| Backend.InsertByCreatedDesc | backend/main.py:59 | Inserting one row into a list sorted newest first keeps it sorted and adds exactly that row |
| Backend.SortByCreatedDesc | backend/main.py:59 | `order_by(created_at desc)`: the result is sorted newest first and is a permutation of the rows |
| Backend.AllRows | backend/main.py:59 | Querying all rows returns each row of the table once, as stored |
| Backend.GetTasks | backend/main.py:56-74 | The listing renders every row exactly once, as stored, newest first |
| Backend.View | backend/main.py:62-73 | Definition of the rendering of one row (the same dictionary as backend/main.py:85-94), with the timestamps kept as numbers; used by GetTasks and GetTask |
| Backend.GetTask | backend/main.py:76-94 | An unknown id, and only an unknown id, is 404 "Task not found"; a known one is rendered from its row |
| Backend.JoinPath | backend/main.py:114 | posixpath.join of two parts: the result ends with the second part; an absolute second part replaces the first; otherwise the result starts with the first part |
| Backend.ResolveReportPath | backend/main.py:108-116 | A stored location starting with "../" is joined to the project root with those three characters removed: the result keeps the rest as its ending and starts with the project root, except that an absolute rest replaces the root, as `os.path.join` does; any other location is used as it is |
| Backend.HasReport | backend/main.py:105 | Definition of `if not task.report_path`: an unset and an empty location both mean no report; used by GetReport |
| Backend.GetReport | backend/main.py:96-121 | 404s in order: "Task not found", then "Report not generated yet" for an unset or empty location, then "Report file not found: " with the resolved path; otherwise the resolved path, which exists |
| Backend.DefaultReportResolvesUnderRoot | backend/main.py:109-114 | A report written under the worker's default "../reports" is served from `{root}/reports/{id}_report.json` |
| Backend.UnfinishedTaskHasNoReport | backend/main.py:105-106 | A well-formed row that is not COMPLETED has no report location, so the report endpoint answers 404 "Report not generated yet" |
| Backend.CreatedTaskReadsBackPending | backend/main.py:43-54 | Right after intake the task reads back as PENDING with no error, completion or report, and its report is "not generated yet" |
| Pipeline.IntakeTaskPassesFormatCheck | worker/worker.py:74-79 | The worker rebuilds exactly the upload path intake wrote, so a task accepted by intake never fails the worker's "File is not a PDF" check |
| Pipeline.IntakeTaskReachesScanner | worker/worker.py:73-86 | With the upload still on disk and an API key configured, a task created by intake passes every precheck and reaches the scanner |
| Pipeline.QueuedThenCompletedScenario | worker/worker.py:40-98 | With an accepted upload, one "queued" poll and then a "completed" poll, the task ends COMPLETED with exactly these effects: claim, upload, poll, 15-second sleep, poll, report write, terminal commit. The report is the second poll's body |
| Pipeline.MissingFileScenario | worker/worker.py:73-76 | A task whose upload is missing fails with "File not found" and the completion stamp, and makes no call to the scanning service |
| Pipeline.CompletedReportIsServed | backend/main.py:96-121 | A task the worker completed under the default reports directory is served from the project root's reports directory once the file exists there |

## Left out

- **HTTP, web framework and database machinery:** the HTTP transport, FastAPI, its
  CORS middleware and request parsing are not modelled. Nor are SQLAlchemy sessions,
  `refresh` and `close`. The store is a map committed whole-row at a time.
- **File-system effects:** reading the multipart upload and writing its bytes,
  `os.makedirs`, `json.dump` and `FileResponse` are left out. They appear only as paths
  in the results and as `ReportWritten` events. Files written by the model are not added
  to the `files` set.
- **Process-level control:** signal handling, `KeyboardInterrupt`, `main`'s outer
  exception handler with its 5-second retry, and the infinite loop are left out. One
  cycle is modelled; a loop over cycles is a repetition of it.
- **Failures that need a malformed reply or a broken system:** a 200 reply without
  `data.id` or `data.attributes.status` (a KeyError), or with a body that is not JSON (a
  JSON decode error), is left out; `scan_file` would catch and wrap either. So are a failing file open during
  upload, disk-write failures of the report and database errors. These would need a
  model of Python exceptions from library code.
- **Service headers and URLs:** API-key headers and the request URLs are left out. A
  request is recorded by its path or file id only.
- **Timestamps and ids:** timestamps are natural numbers; `isoformat()` rendering and
  `utcnow()` are left out. The integer surrogate column `id` is left out.
- **Task ordering:** SQL returns tied `created_at` rows in an order it chooses; the model
  picks one. `AllRows` and `PendingSnapshot` likewise pick any order, and their
  contracts do not depend on it.
- Worker.Daemon.RunCycle: passes a single `now` for the whole cycle, while the source
  reads the clock at each terminal commit. Every completion stamp of one cycle is
  therefore equal in the model.
- Backend.CreateTask: requires the fresh id to be absent from the store. This is the
  uniqueness that `uuid4()` and the unique column give the source.
- Worker.Daemon.ProcessTask: the `OutOfScript` stall is a model-only ending for a
  script that runs out while the program would still poll. The source would wait forever
  there, so the model says nothing about later behaviour.
- Scanner.ScanFile: the console messages printed while polling are not modelled, and
  neither are the sleeps' real durations. A sleep is an event carrying its number of
  seconds.
- **Console output:** the "Task completed" and "Task failed" messages of `process_task`
  (worker/worker.py:100, 107), the "Worker started" message of `main`
  (worker/worker.py:120) and the shutdown and error messages (worker/worker.py:113, 136)
  are not modelled; they change no state.
- Strings.EndsWithAfterSeparator: characters are plain `char`s; Python's Unicode string
  semantics beyond this are not modelled.
