/** The task-store front end (backend/main.py): intake of an upload, the task listing,
    single-task lookup and the report lookup, each with its ordered 404 answers. */
module Backend {
  import opened Wrappers
  import opened Strings
  import opened Settings
  import opened Models

  const PdfOnly := "Only PDF files are allowed"
  const TaskNotFound := "Task not found"
  const ReportNotGenerated := "Report not generated yet"
  const ReportFileNotFoundPrefix := "Report file not found: "
  const ParentPrefix := "../"

  /** An `HTTPException`: status code and `detail` text. */
  datatype HttpError = HttpError(status: int, detail: string)

  /** The body `create_task` answers with. */
  datatype Created = Created(taskId: string, status: string)

  /** A task as the API renders it; an absent `completed_at` is rendered as null. */
  datatype TaskView = TaskView(
    id: string,
    description: string,
    filename: string,
    status: string,
    errorMessage: Option<string>,
    createdAt: Timestamp,
    completedAt: Option<Timestamp>,
    reportPath: Option<string>)

  function View(t: Task): TaskView {
    TaskView(t.taskId, t.description, t.filename, t.status.Name(), t.errorMessage,
             t.createdAt, t.completedAt, t.reportPath)
  }

  /** `create_task`: a filename not ending in ".pdf" is refused with 400 and nothing is
      stored; otherwise the upload is written at the upload path and one PENDING row is
      inserted. `taskId` is the fresh `uuid4()` and `now` the insert time. */
  method CreateTask(store: TaskStore, vars: Vars, description: string, filename: string, taskId: string, now: Timestamp)
    returns (r: Result<Created, HttpError>, stored: Option<string>)
    requires store.Valid()
    requires taskId !in store.tasks
    modifies store
    ensures store.Valid()
    ensures !EndsWith(filename, PdfSuffix) ==>
              r == Failure(HttpError(400, PdfOnly)) && stored == None && store.tasks == old(store.tasks)
    ensures EndsWith(filename, PdfSuffix) ==>
              && r == Success(Created(taskId, PENDING.Name()))
              && store.tasks == old(store.tasks)[taskId := NewTask(taskId, description, filename, now)]
              && stored == Some(UploadPath(UploadsDir(vars), store.tasks[taskId].taskId, store.tasks[taskId].filename))
  {
    if !EndsWith(filename, PdfSuffix) {
      return Failure(HttpError(400, PdfOnly)), None;
    }
    var filePath := UploadPath(UploadsDir(vars), taskId, filename);
    var task := NewTask(taskId, description, filename, now);
    store.tasks := store.tasks[taskId := task];
    return Success(Created(taskId, PENDING.Name())), Some(filePath);
  }

  // ---------------------------------------------------------------------------
  // get_tasks

  predicate SortedByCreatedDesc(rows: seq<Task>) {
    forall i, j :: 0 <= i < j < |rows| ==> rows[i].createdAt >= rows[j].createdAt
  }

  /** Insert `t` behind every row at least as recent. */
  function InsertByCreatedDesc(t: Task, rows: seq<Task>): (r: seq<Task>)
    requires SortedByCreatedDesc(rows)
    ensures SortedByCreatedDesc(r)
    ensures multiset(r) == multiset(rows) + multiset{t}
  {
    if rows == [] then [t]
    else if rows[0].createdAt >= t.createdAt then
      assert rows == [rows[0]] + rows[1..];
      var tail := InsertByCreatedDesc(t, rows[1..]);
      NoneMoreRecent(rows[0], t, rows[1..], tail);
      [rows[0]] + tail
    else [t] + rows
  }

  /** A row at least as recent as `t` and as every row of `rest` is at least as recent as
      every row of `rest` with `t` added, in whatever order. */
  lemma NoneMoreRecent(top: Task, t: Task, rest: seq<Task>, tail: seq<Task>)
    requires multiset(tail) == multiset(rest) + multiset{t}
    requires top.createdAt >= t.createdAt
    requires forall k :: 0 <= k < |rest| ==> top.createdAt >= rest[k].createdAt
    ensures forall k :: 0 <= k < |tail| ==> top.createdAt >= tail[k].createdAt
  {
    forall k | 0 <= k < |tail|
      ensures top.createdAt >= tail[k].createdAt
    {
      assert tail[k] in multiset(tail);
      if tail[k] != t {
        assert tail[k] in multiset(rest);
        var m :| 0 <= m < |rest| && rest[m] == tail[k];
      }
    }
  }

  /** `order_by(Task.created_at.desc())`: most recent first (rows with equal stamps may
      come in any order; this picks one). */
  function SortByCreatedDesc(rows: seq<Task>): (r: seq<Task>)
    ensures SortedByCreatedDesc(r)
    ensures multiset(r) == multiset(rows)
  {
    if rows == [] then []
    else
      assert rows == [rows[0]] + rows[1..];
      InsertByCreatedDesc(rows[0], SortByCreatedDesc(rows[1..]))
  }

  /** Two orderings of the same rows have the same length and the same members. */
  lemma SameRows(a: seq<Task>, b: seq<Task>)
    requires multiset(a) == multiset(b)
    ensures |a| == |b|
    ensures forall x :: x in a <==> x in b
  {
    forall x ensures x in a <==> x in b {
      assert x in multiset(a) <==> x in multiset(b);
    }
    assert |a| == |multiset(a)| == |multiset(b)| == |b|;
  }

  /** `db.query(Task).all()`: every row of a store keyed by id, once each, in an order
      the store chooses. */
  method AllRows(tasks: map<string, Task>) returns (rows: seq<Task>)
    requires KeyedById(tasks)
    ensures |rows| == |tasks|
    ensures forall i :: 0 <= i < |rows| ==> rows[i].taskId in tasks && rows[i] == tasks[rows[i].taskId]
    ensures forall id :: id in tasks ==> tasks[id] in rows
  {
    rows := [];
    var unseen := tasks.Keys;
    while unseen != {}
      invariant unseen <= tasks.Keys
      invariant forall i :: 0 <= i < |rows| ==>
                  rows[i].taskId in tasks && rows[i].taskId !in unseen && rows[i] == tasks[rows[i].taskId]
      invariant forall id :: id in tasks && id !in unseen ==> tasks[id] in rows
      invariant |rows| + |unseen| == |tasks.Keys|
      decreases unseen
    {
      var id :| id in unseen;
      rows := rows + [tasks[id]];
      unseen := unseen - {id};
    }
    assert |tasks.Keys| == |tasks|;
  }

  /** `get_tasks`: every row once, rendered, most recently created first. Reading does
      not change the store. */
  method GetTasks(store: TaskStore) returns (views: seq<TaskView>)
    requires store.Valid()
    ensures |views| == |store.tasks|
    ensures forall i :: 0 <= i < |views| ==> views[i].id in store.tasks && views[i] == View(store.tasks[views[i].id])
    ensures forall id :: id in store.tasks ==> exists i :: 0 <= i < |views| && views[i] == View(store.tasks[id])
    ensures forall i, j :: 0 <= i < j < |views| ==> views[i].createdAt >= views[j].createdAt
  {
    var rows := AllRows(store.tasks);
    var sorted := SortByCreatedDesc(rows);
    views := seq(|sorted|, i requires 0 <= i < |sorted| => View(sorted[i]));
    RenderedListing(store.tasks, rows, sorted, views);
  }

  /** The rendered rows, sorted, are the store's rows once each, most recent first. */
  lemma RenderedListing(tasks: map<string, Task>, rows: seq<Task>, sorted: seq<Task>, views: seq<TaskView>)
    requires |rows| == |tasks|
    requires forall i :: 0 <= i < |rows| ==> rows[i].taskId in tasks && rows[i] == tasks[rows[i].taskId]
    requires forall id :: id in tasks ==> tasks[id] in rows
    requires SortedByCreatedDesc(sorted) && multiset(sorted) == multiset(rows)
    requires |views| == |sorted| && forall i :: 0 <= i < |views| ==> views[i] == View(sorted[i])
    ensures |views| == |tasks|
    ensures forall i :: 0 <= i < |views| ==> views[i].id in tasks && views[i] == View(tasks[views[i].id])
    ensures forall id :: id in tasks ==> exists i :: 0 <= i < |views| && views[i] == View(tasks[id])
    ensures forall i, j :: 0 <= i < j < |views| ==> views[i].createdAt >= views[j].createdAt
  {
    SameRows(sorted, rows);
    forall i | 0 <= i < |views|
      ensures views[i].id in tasks && views[i] == View(tasks[views[i].id])
    {
      assert sorted[i] in rows;
    }
    forall id | id in tasks
      ensures exists i :: 0 <= i < |views| && views[i] == View(tasks[id])
    {
      var i :| 0 <= i < |sorted| && sorted[i] == tasks[id];
      assert views[i] == View(tasks[id]);
    }
    forall i, j | 0 <= i < j < |views|
      ensures views[i].createdAt >= views[j].createdAt
    {
      assert views[i].createdAt == sorted[i].createdAt && views[j].createdAt == sorted[j].createdAt;
    }
  }

  // ---------------------------------------------------------------------------
  // get_task and get_report

  /** `get_task`: an unknown id is 404 "Task not found"; a known one is rendered. */
  function GetTask(tasks: map<string, Task>, taskId: string): (r: Result<TaskView, HttpError>)
    ensures r.Failure? <==> taskId !in tasks
    ensures r.Failure? ==> r.error == HttpError(404, TaskNotFound)
    ensures r.Success? ==> r.value == View(tasks[taskId])
  {
    if taskId !in tasks then Failure(HttpError(404, TaskNotFound)) else Success(View(tasks[taskId]))
  }

  /** `os.path.join(a, b)` on POSIX: an absolute `b` replaces `a`; otherwise one "/" is
      put between them unless `a` is empty or already ends in "/". */
  function JoinPath(a: string, b: string): (r: string)
    ensures EndsWith(r, b)
    ensures StartsWith(b, "/") ==> r == b
    ensures !StartsWith(b, "/") ==> StartsWith(r, a)
  {
    if StartsWith(b, "/") then b
    else if a == [] || EndsWith(a, "/") then a + b
    else a + "/" + b
  }

  /** The report location the backend opens: a stored path starting with "../" is taken
      relative to the project root, without those three characters, and keeps the rest as
      its ending; if that rest is itself absolute, `os.path.join` drops the root and the
      rest is used alone. Any other stored path is used as it is. */
  function ResolveReportPath(reportPath: string, projectRoot: string): (r: string)
    ensures StartsWith(reportPath, ParentPrefix) ==> EndsWith(r, reportPath[|ParentPrefix|..])
    ensures StartsWith(reportPath, ParentPrefix) && !StartsWith(reportPath[|ParentPrefix|..], "/") ==>
              StartsWith(r, projectRoot)
    ensures StartsWith(reportPath, ParentPrefix) && StartsWith(reportPath[|ParentPrefix|..], "/") ==>
              r == reportPath[|ParentPrefix|..]
    ensures !StartsWith(reportPath, ParentPrefix) ==> r == reportPath
  {
    if StartsWith(reportPath, ParentPrefix) then JoinPath(projectRoot, reportPath[3..]) else reportPath
  }

  /** `if not task.report_path`: an unset and an empty location both count as no report. */
  predicate HasReport(t: Task) {
    t.reportPath.Some? && t.reportPath.value != ""
  }

  /** `get_report`: unknown task, then missing location, then missing file, each a 404
      with its own text; otherwise the resolved location of the report document. */
  function GetReport(tasks: map<string, Task>, taskId: string, projectRoot: string, files: set<string>): (r: Result<string, HttpError>)
    ensures taskId !in tasks ==> r == Failure(HttpError(404, TaskNotFound))
    ensures taskId in tasks && !HasReport(tasks[taskId]) ==> r == Failure(HttpError(404, ReportNotGenerated))
    ensures taskId in tasks && HasReport(tasks[taskId]) ==>
              var path := ResolveReportPath(tasks[taskId].reportPath.value, projectRoot);
              && (path !in files ==> r == Failure(HttpError(404, ReportFileNotFoundPrefix + path)))
              && (path in files ==> r == Success(path))
    ensures r.Success? ==> r.value in files
  {
    if taskId !in tasks then Failure(HttpError(404, TaskNotFound))
    else
      var t := tasks[taskId];
      if !HasReport(t) then Failure(HttpError(404, ReportNotGenerated))
      else
        var path := ResolveReportPath(t.reportPath.value, projectRoot);
        if path !in files then Failure(HttpError(404, ReportFileNotFoundPrefix + path))
        else Success(path)
  }

  // ---------------------------------------------------------------------------
  // Properties

  /** A report the worker wrote under the default "../reports" is served from the
      project root's "reports" directory. */
  lemma DefaultReportResolvesUnderRoot(projectRoot: string, taskId: string)
    requires projectRoot != [] && !EndsWith(projectRoot, "/")
    ensures ResolveReportPath(ReportPath(DefaultReportsDir, taskId), projectRoot)
            == projectRoot + "/reports/" + taskId + "_report.json"
  {
    var rest := "reports/" + taskId + "_report.json";
    assert DefaultReportsDir + "/" == ParentPrefix + "reports/";
    assert ReportPath(DefaultReportsDir, taskId) == ParentPrefix + rest;
    PrefixThenRest(ParentPrefix, rest);
    assert rest[0] == 'r';
    assert !StartsWith(rest, "/");
    assert JoinPath(projectRoot, rest) == projectRoot + "/" + rest;
    assert "/" + "reports/" == "/reports/";
  }

  /** A well-formed row that is not COMPLETED has no report to serve. */
  lemma UnfinishedTaskHasNoReport(tasks: map<string, Task>, taskId: string, projectRoot: string, files: set<string>)
    requires taskId in tasks && WellFormed(tasks[taskId]) && tasks[taskId].status != COMPLETED
    ensures GetReport(tasks, taskId, projectRoot, files) == Failure(HttpError(404, ReportNotGenerated))
  {
  }

  /** Right after intake the task reads back as PENDING with no completion, error or report. */
  lemma CreatedTaskReadsBackPending(tasks: map<string, Task>, taskId: string, description: string, filename: string, now: Timestamp,
                                    projectRoot: string, files: set<string>)
    ensures var tasks' := tasks[taskId := NewTask(taskId, description, filename, now)];
      && GetTask(tasks', taskId) == Success(TaskView(taskId, description, filename, "PENDING", None, now, None, None))
      && GetReport(tasks', taskId, projectRoot, files) == Failure(HttpError(404, ReportNotGenerated))
  {
  }
}
