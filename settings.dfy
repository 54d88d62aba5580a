/** Environment lookups and the two file-path formulas that the intake endpoint and the
    worker must agree on (backend/main.py:34-36, worker/worker.py:73-74 and 88-90). */
module Settings {
  import opened Wrappers
  import opened Strings

  /** The process environment, as `os.getenv` sees it. */
  type Vars = map<string, string>

  const UploadsDirVar := "UPLOADS_DIR"
  const ReportsDirVar := "REPORTS_DIR"
  const ApiKeyVar := "VIRUSTOTAL_API_KEY"
  const DefaultUploadsDir := "../uploads"
  const DefaultReportsDir := "../reports"

  /** The only document type the system accepts. */
  const PdfSuffix := ".pdf"

  /** `os.getenv(name)`: absent when the variable is not set. */
  function GetEnv(vars: Vars, name: string): Option<string> {
    if name in vars then Some(vars[name]) else None
  }

  /** `os.getenv(name, default)`: a variable that is set, even to "", wins over the default. */
  function GetEnvOr(vars: Vars, name: string, default: string): (r: string)
    ensures name in vars ==> r == vars[name]
    ensures name !in vars ==> r == default
  {
    match GetEnv(vars, name)
    case Some(v) => v
    case None => default
  }

  function UploadsDir(vars: Vars): string {
    GetEnvOr(vars, UploadsDirVar, DefaultUploadsDir)
  }

  function ReportsDir(vars: Vars): string {
    GetEnvOr(vars, ReportsDirVar, DefaultReportsDir)
  }

  /** `f"{uploads_dir}/{task_id}_{filename}"` */
  function UploadPath(uploadsDir: string, taskId: string, filename: string): string {
    uploadsDir + "/" + taskId + "_" + filename
  }

  /** `f"{reports_dir}/{task_id}_report.json"` */
  function ReportPath(reportsDir: string, taskId: string): string {
    reportsDir + "/" + taskId + "_report.json"
  }

  /** The stored upload path ends in ".pdf" exactly when the original filename does:
      the "_" written before the filename cannot be part of a ".pdf" ending. */
  lemma UploadPathPdfIff(uploadsDir: string, taskId: string, filename: string)
    ensures EndsWith(UploadPath(uploadsDir, taskId, filename), PdfSuffix) <==> EndsWith(filename, PdfSuffix)
  {
    assert UploadPath(uploadsDir, taskId, filename) == (uploadsDir + "/" + taskId) + ['_'] + filename;
    EndsWithAfterSeparator(uploadsDir + "/" + taskId, '_', filename, PdfSuffix);
  }
}
