/** The observable effects of the worker, in the order they happen. */
module Effects {
  import opened Models
  import opened Service

  datatype Event =
    | Committed(task: Task)             // a whole-row commit to the task store
    | UploadRequested(path: string)     // POST /files with the file at `path`
    | AnalysisRequested(fileId: string) // GET /analyses/{fileId}
    | Slept(units: nat)                 // time.sleep(units)
    | ReportWritten(path: string, report: Analysis)  // json.dump of the report to `path`
  {
    /** A call to the external scanning service. */
    predicate IsServiceCall() {
      UploadRequested? || AnalysisRequested?
    }
  }

  function CountPolls(events: seq<Event>): nat {
    if events == [] then 0 else (if events[0].AnalysisRequested? then 1 else 0) + CountPolls(events[1..])
  }

  function CountSleeps(events: seq<Event>): nat {
    if events == [] then 0 else (if events[0].Slept? then 1 else 0) + CountSleeps(events[1..])
  }

  lemma {:induction false} CountsOfConcat(a: seq<Event>, b: seq<Event>)
    ensures CountPolls(a + b) == CountPolls(a) + CountPolls(b)
    ensures CountSleeps(a + b) == CountSleeps(a) + CountSleeps(b)
  {
    if a != [] {
      assert (a + b)[1..] == a[1..] + b;
      CountsOfConcat(a[1..], b);
    } else {
      assert a + b == b;
    }
  }

  /** Appending to a trace in two steps is appending once. */
  lemma ConcatAssoc(a: seq<Event>, b: seq<Event>, c: seq<Event>)
    ensures (a + b) + c == a + (b + c)
  {
  }
}
