/** `VirusTotalScanner` (worker/worker.py:12-59): classification of the two service replies,
    and `scan_file`, which uploads once and then polls until the analysis is completed. */
module Scanner {
  import opened Wrappers
  import opened Strings
  import opened Service
  import opened Effects

  const QuotaExceeded := "VirusTotal API quota exceeded"
  const UploadFailedPrefix := "Upload failed: "
  const AnalysisFailedPrefix := "Analysis failed: "
  const ScanFailedPrefix := "VirusTotal scan failed: "

  const CompletedStatus := "completed"
  const QueuedStatus := "queued"

  /** Seconds slept after a "queued" poll, and after any other unfinished poll. */
  const QueuedDelay: nat := 15
  const InProgressDelay: nat := 10

  /** `upload_file`: 200 yields `data.id`; 429 is the quota error, recognisable by its
      message alone; every other code is a generic failure whose message carries the body text. */
  function UploadFile(resp: UploadResponse): (r: Result<string, string>)
    ensures r.Success? <==> resp.code == 200
    ensures r.Success? ==> r.value == resp.fileId
    ensures r == Failure(QuotaExceeded) <==> resp.code == 429
    ensures r.Failure? && r.error != QuotaExceeded ==>
              StartsWith(r.error, UploadFailedPrefix) && r.error[|UploadFailedPrefix|..] == resp.text
  {
    if resp.code == 200 then Success(resp.fileId)
    else if resp.code == 429 then Failure(QuotaExceeded)
    else
      assert (UploadFailedPrefix + resp.text)[0] != QuotaExceeded[0];
      PrefixThenRest(UploadFailedPrefix, resp.text);
      Failure(UploadFailedPrefix + resp.text)
  }

  /** `get_analysis`: 200 yields the decoded body unchanged; anything else is a failure
      whose message carries the body text. */
  function GetAnalysis(resp: AnalysisResponse): (r: Result<Analysis, string>)
    ensures r.Success? <==> resp.code == 200
    ensures r.Success? ==> r.value == resp.body
    ensures r.Failure? ==> StartsWith(r.error, AnalysisFailedPrefix) && r.error[|AnalysisFailedPrefix|..] == resp.text
  {
    if resp.code == 200 then Success(resp.body)
    else
      PrefixThenRest(AnalysisFailedPrefix, resp.text);
      Failure(AnalysisFailedPrefix + resp.text)
  }

  /** The wait after an unfinished poll with the given status. */
  function Delay(status: string): nat {
    if status == QueuedStatus then QueuedDelay else InProgressDelay
  }

  /** How a scan ends. `OutOfScript` is not a behaviour of the program: it marks a run
      whose script of responses ran out while the program would still be waiting. */
  datatype ScanOutcome = Scanned(report: Analysis) | ScanFailed(message: string) | OutOfScript

  /** The polling loop from poll `i` on: its outcome, its effects, and the index of the
      first poll it did not consume. */
  datatype AwaitRun = AwaitRun(outcome: ScanOutcome, events: seq<Event>, next: nat)

  /** The polling loop of `scan_file` (worker/worker.py:45-56), stated recursively. */
  function Await(fileId: string, polls: seq<AnalysisResponse>, i: nat): (r: AwaitRun)
    requires i <= |polls|
    ensures i <= r.next <= |polls|
    decreases |polls| - i
  {
    if i == |polls| then AwaitRun(OutOfScript, [], i)
    else
      match GetAnalysis(polls[i])
      case Failure(e) => AwaitRun(ScanFailed(e), [AnalysisRequested(fileId)], i + 1)
      case Success(a) =>
        if a.status == CompletedStatus then AwaitRun(Scanned(a), [AnalysisRequested(fileId)], i + 1)
        else
          var rest := Await(fileId, polls, i + 1);
          AwaitRun(rest.outcome, [AnalysisRequested(fileId), Slept(Delay(a.status))] + rest.events, rest.next)
  }

  /** The single failure shape `scan_file` raises: the cause's message behind a fixed prefix. */
  function Wrap(o: ScanOutcome): ScanOutcome {
    match o
    case ScanFailed(m) => ScanFailed(ScanFailedPrefix + m)
    case _ => o
  }

  /** A whole `scan_file` call: outcome, effects in order, and the responses left. */
  datatype ScanRun = ScanRun(outcome: ScanOutcome, events: seq<Event>, rest: Script)

  /** The specification of `scan_file` on a script of responses. */
  function Scan(path: string, script: Script): ScanRun {
    if |script.uploads| == 0 then ScanRun(OutOfScript, [], script)
    else
      var afterUpload := script.(uploads := script.uploads[1..]);
      match UploadFile(script.uploads[0])
      case Failure(e) => ScanRun(ScanFailed(ScanFailedPrefix + e), [UploadRequested(path)], afterUpload)
      case Success(fileId) =>
        var w := Await(fileId, script.polls, 0);
        ScanRun(Wrap(w.outcome), [UploadRequested(path)] + w.events, afterUpload.(polls := script.polls[w.next..]))
  }

  /** `scan_file`: one upload, then `while True` polling. The loop ends only by returning
      a completed analysis, by a failed poll, or (in the model only) when the script ends. */
  method ScanFile(path: string, script: Script) returns (run: ScanRun)
    ensures run == Scan(path, script)
  {
    if |script.uploads| == 0 {
      return ScanRun(OutOfScript, [], script);
    }
    var uploaded := UploadFile(script.uploads[0]);
    var events := [UploadRequested(path)];
    var rest := script.(uploads := script.uploads[1..]);
    if uploaded.Failure? {
      return ScanRun(ScanFailed(ScanFailedPrefix + uploaded.error), events, rest);
    }
    var fileId := uploaded.value;
    var polls := script.polls;
    var i := 0;
    while true
      invariant 0 <= i <= |polls|
      invariant Await(fileId, polls, 0).outcome == Await(fileId, polls, i).outcome
      invariant Await(fileId, polls, 0).next == Await(fileId, polls, i).next
      invariant [UploadRequested(path)] + Await(fileId, polls, 0).events == events + Await(fileId, polls, i).events
      decreases |polls| - i
    {
      if i == |polls| {
        return ScanRun(OutOfScript, events, rest.(polls := polls[i..]));
      }
      var analysis := GetAnalysis(polls[i]);
      events := events + [AnalysisRequested(fileId)];
      if analysis.Failure? {
        return ScanRun(ScanFailed(ScanFailedPrefix + analysis.error), events, rest.(polls := polls[i + 1..]));
      }
      var status := analysis.value.status;
      if status == CompletedStatus {
        return ScanRun(Scanned(analysis.value), events, rest.(polls := polls[i + 1..]));
      } else if status == QueuedStatus {
        events := events + [Slept(QueuedDelay)];
      } else {
        events := events + [Slept(InProgressDelay)];
      }
      i := i + 1;
    }
  }

  // ---------------------------------------------------------------------------
  // Properties of the polling loop

  /** A poll after which the loop goes on: a 200 reply whose status is not "completed". */
  predicate Continues(p: AnalysisResponse) {
    p.code == 200 && p.body.status != CompletedStatus
  }

  /** What a poll that ends the loop makes of it. */
  function StopOutcome(p: AnalysisResponse): ScanOutcome {
    if p.code == 200 then Scanned(p.body) else ScanFailed(AnalysisFailedPrefix + p.text)
  }

  /** The loop runs until the first poll that does not continue, and that poll alone
      decides the outcome: a completed 200 reply returns its body unchanged, any other
      code fails without retry. */
  lemma {:induction false} AwaitStopsAtFirstStop(fileId: string, polls: seq<AnalysisResponse>, i: nat, k: nat)
    requires i <= k < |polls|
    requires forall j :: i <= j < k ==> Continues(polls[j])
    requires !Continues(polls[k])
    ensures Await(fileId, polls, i).next == k + 1
    ensures Await(fileId, polls, i).outcome == StopOutcome(polls[k])
    decreases k - i
  {
    if i < k {
      AwaitStopsAtFirstStop(fileId, polls, i + 1, k);
    }
  }

  /** If no poll in the script stops the loop, the loop consumes them all. */
  lemma {:induction false} AwaitNeverStops(fileId: string, polls: seq<AnalysisResponse>, i: nat)
    requires i <= |polls|
    requires forall j :: i <= j < |polls| ==> Continues(polls[j])
    ensures Await(fileId, polls, i).next == |polls|
    ensures Await(fileId, polls, i).outcome == OutOfScript
    decreases |polls| - i
  {
    if i < |polls| {
      AwaitNeverStops(fileId, polls, i + 1);
    }
  }

  /** Conversely, every outcome other than running out of script comes from the last
      poll consumed, and every poll before it continued the loop. In particular the loop
      returns only on a 200 reply whose status is exactly "completed", and returns its body. */
  lemma {:induction false} AwaitEndsOnStop(fileId: string, polls: seq<AnalysisResponse>, i: nat)
    requires i <= |polls|
    ensures var r := Await(fileId, polls, i);
      r.outcome.OutOfScript? ==> r.next == |polls| && forall j :: i <= j < |polls| ==> Continues(polls[j])
    ensures var r := Await(fileId, polls, i);
      !r.outcome.OutOfScript? ==>
        && i < r.next
        && (forall j :: i <= j < r.next - 1 ==> Continues(polls[j]))
        && !Continues(polls[r.next - 1])
        && r.outcome == StopOutcome(polls[r.next - 1])
    decreases |polls| - i
  {
    if i < |polls| && Continues(polls[i]) {
      AwaitEndsOnStop(fileId, polls, i + 1);
    }
  }

  /** How many unfinished polls the loop saw from position `i`: each of them was slept on. */
  function Waits(r: AwaitRun, i: nat): int {
    if r.outcome.OutOfScript? then r.next - i else r.next - i - 1
  }

  /** The loop's effects are two per unfinished poll, plus the stopping poll if any, and
      that last effect is the stopping poll. */
  lemma {:induction false} AwaitLength(fileId: string, polls: seq<AnalysisResponse>, i: nat)
    requires i <= |polls|
    ensures var r := Await(fileId, polls, i);
      && 0 <= Waits(r, i)
      && |r.events| == 2 * Waits(r, i) + (if r.outcome.OutOfScript? then 0 else 1)
      && (!r.outcome.OutOfScript? ==> r.events[2 * Waits(r, i)] == AnalysisRequested(fileId))
    decreases |polls| - i
  {
    if i < |polls| && Continues(polls[i]) {
      AwaitLength(fileId, polls, i + 1);
      var rest := Await(fileId, polls, i + 1);
      var r := Await(fileId, polls, i);
      assert r.events == [AnalysisRequested(fileId), Slept(Delay(polls[i].body.status))] + rest.events;
      assert r.outcome == rest.outcome && r.next == rest.next;
      assert Waits(r, i) == Waits(rest, i + 1) + 1;
      if !r.outcome.OutOfScript? {
        assert r.events[2 * Waits(r, i)] == rest.events[2 * Waits(rest, i + 1)];
      }
    }
  }

  /** The effects of the loop, position by position: the j-th unfinished poll is followed
      by exactly one sleep of `Delay` of its status (and, by `AwaitLength`, a stopping
      poll by none). */
  lemma {:induction false} AwaitTrace(fileId: string, polls: seq<AnalysisResponse>, i: nat)
    requires i <= |polls|
    ensures var r := Await(fileId, polls, i);
      && 0 <= Waits(r, i)
      && |r.events| == 2 * Waits(r, i) + (if r.outcome.OutOfScript? then 0 else 1)
      && (forall j :: 0 <= j < Waits(r, i) ==>
            r.events[2 * j] == AnalysisRequested(fileId) &&
            r.events[2 * j + 1] == Slept(Delay(polls[i + j].body.status)))
    decreases |polls| - i
  {
    AwaitLength(fileId, polls, i);
    if i < |polls| && Continues(polls[i]) {
      AwaitTrace(fileId, polls, i + 1);
      var rest := Await(fileId, polls, i + 1);
      var r := Await(fileId, polls, i);
      assert r.events == [AnalysisRequested(fileId), Slept(Delay(polls[i].body.status))] + rest.events;
      assert Waits(r, i) == Waits(rest, i + 1) + 1;
      forall j | 0 <= j < Waits(r, i)
        ensures r.events[2 * j] == AnalysisRequested(fileId)
        ensures r.events[2 * j + 1] == Slept(Delay(polls[i + j].body.status))
      {
        if j == 0 {
          assert r.events[2 * j + 1] == Slept(Delay(polls[i].body.status));
        } else {
          assert r.events[2 * j] == rest.events[2 * (j - 1)];
          assert r.events[2 * j + 1] == rest.events[2 * (j - 1) + 1];
          assert polls[(i + 1) + (j - 1)] == polls[i + j];
        }
      }
    }
  }

  /** The loop's effects are polls and sleeps only, and a loop that stopped polled
      once more than it slept. */
  lemma {:induction false} AwaitBalance(fileId: string, polls: seq<AnalysisResponse>, i: nat)
    requires i <= |polls|
    ensures var r := Await(fileId, polls, i);
      CountPolls(r.events) == CountSleeps(r.events) + (if r.outcome.OutOfScript? then 0 else 1)
    ensures forall e :: e in Await(fileId, polls, i).events ==> e.AnalysisRequested? || e.Slept?
    decreases |polls| - i
  {
    if i < |polls| && Continues(polls[i]) {
      AwaitBalance(fileId, polls, i + 1);
      var rest := Await(fileId, polls, i + 1);
      var head := [AnalysisRequested(fileId), Slept(Delay(polls[i].body.status))];
      CountsOfConcat(head, rest.events);
      assert CountPolls(head) == 1 && CountSleeps(head) == 1 by {
        assert head[1..][1..] == [];
      }
    } else if i < |polls| {
      assert CountPolls(Await(fileId, polls, i).events) == 1;
    }
  }

  // ---------------------------------------------------------------------------
  // Properties of a whole scan

  /** `scan_file` returns a report only when the upload was accepted and a poll answered
      200 with status "completed" after polls that all continued; the report is that
      poll's body, and the polls after it are left unconsumed. */
  lemma ScanReturnsCompletedBody(path: string, script: Script)
    ensures var run := Scan(path, script);
      run.outcome.Scanned? ==>
        && |script.uploads| > 0 && script.uploads[0].code == 200
        && exists k :: 0 <= k < |script.polls|
             && (forall j :: 0 <= j < k ==> Continues(script.polls[j]))
             && script.polls[k].code == 200 && script.polls[k].body.status == CompletedStatus
             && run.outcome.report == script.polls[k].body
             && run.rest.polls == script.polls[k + 1..]
  {
    if |script.uploads| > 0 && script.uploads[0].code == 200 {
      var w := Await(script.uploads[0].fileId, script.polls, 0);
      AwaitEndsOnStop(script.uploads[0].fileId, script.polls, 0);
      if w.outcome.Scanned? {
        var k := w.next - 1;
        assert script.polls[k].code == 200 && script.polls[k].body.status == CompletedStatus;
      }
    }
  }

  /** And conversely: after an accepted upload, the first poll that does not continue
      decides the scan, with analysis failures wrapped behind the scan prefix. */
  lemma ScanStopsAtFirstStop(path: string, script: Script, k: nat)
    requires |script.uploads| > 0 && script.uploads[0].code == 200
    requires k < |script.polls|
    requires forall j :: 0 <= j < k ==> Continues(script.polls[j])
    requires !Continues(script.polls[k])
    ensures Scan(path, script).outcome == Wrap(StopOutcome(script.polls[k]))
    ensures Scan(path, script).rest == Script(script.uploads[1..], script.polls[k + 1..])
  {
    AwaitStopsAtFirstStop(script.uploads[0].fileId, script.polls, 0, k);
  }

  /** Every failure leaves `scan_file` as "VirusTotal scan failed: " followed by the
      original message, and that message names the cause: the quota, a refused upload,
      or a refused poll (with the body text of the response that caused it). */
  lemma ScanFailureKeepsCause(path: string, script: Script)
    ensures var run := Scan(path, script);
      run.outcome.ScanFailed? ==>
        var m := run.outcome.message;
        && StartsWith(m, ScanFailedPrefix)
        && |script.uploads| > 0
        && var cause := m[|ScanFailedPrefix|..];
           var up := script.uploads[0];
           || (up.code == 429 && cause == QuotaExceeded)
           || (up.code != 200 && up.code != 429 && cause == UploadFailedPrefix + up.text)
           || (up.code == 200 &&
               (exists k :: 0 <= k < |script.polls| && script.polls[k].code != 200 &&
                  cause == AnalysisFailedPrefix + script.polls[k].text))
  {
    var run := Scan(path, script);
    if run.outcome.ScanFailed? {
      var up := script.uploads[0];
      if up.code == 200 {
        var w := Await(up.fileId, script.polls, 0);
        AwaitEndsOnStop(up.fileId, script.polls, 0);
        PrefixThenRest(ScanFailedPrefix, w.outcome.message);
        assert script.polls[w.next - 1].code != 200;
      } else {
        PrefixThenRest(ScanFailedPrefix, UploadFile(up).error);
      }
    }
  }

  /** In every scan that ended on a poll, there was exactly one more poll than sleeps;
      a rejected upload makes neither. */
  lemma ScanPollsOneMoreThanSleeps(path: string, script: Script)
    ensures var run := Scan(path, script);
      |script.uploads| > 0 && script.uploads[0].code == 200 && !run.outcome.OutOfScript? ==>
        CountPolls(run.events) == CountSleeps(run.events) + 1
    ensures var run := Scan(path, script);
      |script.uploads| > 0 && script.uploads[0].code != 200 ==>
        CountPolls(run.events) == 0 && CountSleeps(run.events) == 0
  {
    if |script.uploads| > 0 && script.uploads[0].code == 200 {
      var w := Await(script.uploads[0].fileId, script.polls, 0);
      AwaitBalance(script.uploads[0].fileId, script.polls, 0);
      CountsOfConcat([UploadRequested(path)], w.events);
    }
  }

  /** A scan never touches the task store: its effects are service calls and sleeps. */
  lemma ScanEffectsAreServiceCallsAndSleeps(path: string, script: Script)
    ensures forall e :: e in Scan(path, script).events ==> e.IsServiceCall() || e.Slept?
  {
    if |script.uploads| > 0 && script.uploads[0].code == 200 {
      AwaitBalance(script.uploads[0].fileId, script.polls, 0);
    }
  }
}
