/** What the external scanning service (VirusTotal API v3) can answer, as data. The service
    itself is a finite script of responses, consumed in order by the calls the worker makes. */
module Service {

  /** The document returned by `GET /analyses/{id}`: `data.attributes.status` and the verdict
      counters in `data.attributes.stats`; the rest of the document is abstracted away. The
      worker writes this value unchanged as the report. */
  datatype Analysis = Analysis(status: string, stats: map<string, int>)

  /** The reply to `POST /files`: HTTP status code, raw body text, and `data.id` of the body. */
  datatype UploadResponse = UploadResponse(code: int, text: string, fileId: string)

  /** The reply to one `GET /analyses/{id}`: HTTP status code, raw body text, decoded body. */
  datatype AnalysisResponse = AnalysisResponse(code: int, text: string, body: Analysis)

  /** The responses the service will still give: one queue for uploads, one for polls. */
  datatype Script = Script(uploads: seq<UploadResponse>, polls: seq<AnalysisResponse>)
}
