/** End-to-end properties that join the intake endpoint, the worker and the report
    endpoint through the shared task store and the shared path formulas. */
module Pipeline {
  import opened Wrappers
  import opened Strings
  import opened Settings
  import opened Models
  import opened Service
  import opened Effects
  import opened Scanner
  import opened Worker
  import opened Backend

  /** A task created by intake never fails the worker's "File is not a PDF" check: the
      worker rebuilds the very path intake stored, and that path ends in ".pdf". */
  lemma IntakeTaskPassesFormatCheck(env: Env, taskId: string, description: string, filename: string, now: Timestamp)
    requires EndsWith(filename, PdfSuffix)
    ensures InputPath(env, Claim(NewTask(taskId, description, filename, now))) == UploadPath(UploadsDir(env.vars), taskId, filename)
    ensures Precheck(env, Claim(NewTask(taskId, description, filename, now))) != Some(NotPdf)
  {
    UploadPathPdfIff(UploadsDir(env.vars), taskId, filename);
  }

  /** With the stored upload still on disk and a key configured, an intake task passes
      every precheck and reaches the scanner. */
  lemma IntakeTaskReachesScanner(env: Env, taskId: string, description: string, filename: string, now: Timestamp)
    requires EndsWith(filename, PdfSuffix)
    requires UploadPath(UploadsDir(env.vars), taskId, filename) in env.files
    requires ApiKeyConfigured(env.vars)
    ensures Precheck(env, Claim(NewTask(taskId, description, filename, now))) == None
  {
    IntakeTaskPassesFormatCheck(env, taskId, description, filename, now);
  }

  /** A fresh task whose upload is accepted, whose first poll is "queued" and whose second
      is "completed" ends COMPLETED after one 15-second wait, and the report written is
      the second poll's body. */
  lemma QueuedThenCompletedScenario(env: Env, t: Task, upload: UploadResponse,
                                    first: AnalysisResponse, second: AnalysisResponse,
                                    moreUploads: seq<UploadResponse>, morePolls: seq<AnalysisResponse>, now: Timestamp)
    requires t.status == PENDING && t.errorMessage == None
    requires Precheck(env, Claim(t)) == None
    requires upload.code == 200
    requires first.code == 200 && first.body.status == QueuedStatus
    requires second.code == 200 && second.body.status == CompletedStatus
    ensures var run := Process(t, env, Script([upload] + moreUploads, [first, second] + morePolls), now);
      var reportPath := ReportPath(ReportsDir(env.vars), t.taskId);
      && run.final.status == COMPLETED
      && run.final.reportPath == Some(reportPath)
      && run.final.completedAt == Some(now)
      && run.final.errorMessage == None
      && run.events == [Committed(Claim(t)), UploadRequested(InputPath(env, Claim(t))),
                        AnalysisRequested(upload.fileId), Slept(QueuedDelay),
                        AnalysisRequested(upload.fileId),
                        ReportWritten(reportPath, second.body), Committed(run.final)]
      && run.rest == Script(moreUploads, morePolls)
  {
    var polls := [first, second] + morePolls;
    assert ([upload] + moreUploads)[1..] == moreUploads;
    assert polls[2..] == morePolls;
    assert Await(upload.fileId, polls, 1) ==
           AwaitRun(Scanned(second.body), [AnalysisRequested(upload.fileId)], 2);
  }

  /** A task whose upload is missing fails with "File not found", is stamped, and causes
      no call to the scanning service. */
  lemma MissingFileScenario(env: Env, t: Task, script: Script, now: Timestamp)
    requires InputPath(env, t) !in env.files
    ensures var run := Process(t, env, script, now);
      && run.final.status == FAILED
      && run.final.errorMessage == Some(FileNotFound)
      && run.final.completedAt == Some(now)
      && run.rest == script
      && forall e :: e in run.events ==> !e.IsServiceCall()
  {
    assert InputPath(env, Claim(t)) == InputPath(env, t);
  }

  /** A report the worker completed under the default reports directory is served by the
      report endpoint from the project root's "reports" directory, once the file is there. */
  lemma CompletedReportIsServed(env: Env, t: Task, script: Script, now: Timestamp,
                                tasks: map<string, Task>, projectRoot: string, files: set<string>)
    requires ReportsDirVar !in env.vars
    requires projectRoot != [] && !EndsWith(projectRoot, "/")
    requires Process(t, env, script, now).final.status == COMPLETED
    requires projectRoot + "/reports/" + t.taskId + "_report.json" in files
    ensures var tasks' := tasks[t.taskId := Process(t, env, script, now).final];
      GetReport(tasks', t.taskId, projectRoot, files) == Success(projectRoot + "/reports/" + t.taskId + "_report.json")
  {
    ProcessSuccess(t, env, script, now);
    DefaultReportResolvesUnderRoot(projectRoot, t.taskId);
    assert ReportPath(DefaultReportsDir, t.taskId) != "";
  }
}
