/** `process_task` and one cycle of `main` (worker/worker.py:61-131): claim a task, run
    the prechecks in order, scan, and write exactly one terminal row. */
module Worker {
  import opened Wrappers
  import opened Strings
  import opened Settings
  import opened Models
  import opened Service
  import opened Effects
  import opened Scanner

  const FileNotFound := "File not found"
  const NotPdf := "File is not a PDF"
  const ApiKeyMissing := "VirusTotal API key not configured"

  /** Seconds slept after each discovery cycle. */
  const CycleDelay: nat := 5

  /** What the worker reads from its surroundings: environment variables and the set of
      paths that exist on disk. */
  datatype Env = Env(vars: Vars, files: set<string>)

  /** The input file of a task, as the worker reconstructs it from the row. */
  function InputPath(env: Env, t: Task): string {
    UploadPath(UploadsDir(env.vars), t.taskId, t.filename)
  }

  /** `if not api_key`: an unset and an empty key are both missing. */
  predicate ApiKeyConfigured(vars: Vars) {
    GetEnv(vars, ApiKeyVar).Some? && GetEnv(vars, ApiKeyVar).value != ""
  }

  /** The three prechecks, in order; the message of the first that fails. */
  function Precheck(env: Env, t: Task): (r: Option<string>)
    ensures r == Some(FileNotFound) <==> InputPath(env, t) !in env.files
    ensures r == Some(NotPdf) <==> InputPath(env, t) in env.files && !EndsWith(InputPath(env, t), PdfSuffix)
    ensures r == Some(ApiKeyMissing) <==>
              InputPath(env, t) in env.files && EndsWith(InputPath(env, t), PdfSuffix) && !ApiKeyConfigured(env.vars)
    ensures r == None <==>
              InputPath(env, t) in env.files && EndsWith(InputPath(env, t), PdfSuffix) && ApiKeyConfigured(env.vars)
  {
    var path := InputPath(env, t);
    if path !in env.files then Some(FileNotFound)
    else if !EndsWith(path, PdfSuffix) then Some(NotPdf)
    else if !ApiKeyConfigured(env.vars) then Some(ApiKeyMissing)
    else None
  }

  /** One `process_task` call on an existing row: the row it leaves, its effects in
      order, the responses left, and whether the model ran out of script mid-scan. */
  datatype ProcessRun = ProcessRun(final: Task, events: seq<Event>, rest: Script, stalled: bool)

  function Claim(t: Task): Task {
    t.(status := RUNNING)
  }

  function Fail(t: Task, message: string, now: Timestamp): Task {
    t.(status := FAILED, errorMessage := Some(message), completedAt := Some(now))
  }

  function Complete(t: Task, reportPath: string, now: Timestamp): Task {
    t.(status := COMPLETED, reportPath := Some(reportPath), completedAt := Some(now))
  }

  /** The specification of `process_task` for the row `t` it found. */
  function Process(t: Task, env: Env, script: Script, now: Timestamp): ProcessRun {
    var running := Claim(t);
    var claim := [Committed(running)];
    match Precheck(env, running)
    case Some(m) =>
      var failed := Fail(running, m, now);
      ProcessRun(failed, claim + [Committed(failed)], script, false)
    case None =>
      var scan := Scan(InputPath(env, running), script);
      match scan.outcome
      case OutOfScript => ProcessRun(running, claim + scan.events, scan.rest, true)
      case ScanFailed(m) =>
        var failed := Fail(running, m, now);
        ProcessRun(failed, claim + scan.events + [Committed(failed)], scan.rest, false)
      case Scanned(report) =>
        var path := ReportPath(ReportsDir(env.vars), t.taskId);
        var done := Complete(running, path, now);
        ProcessRun(done, claim + scan.events + [ReportWritten(path, report), Committed(done)], scan.rest, false)
  }

  /** One discovery cycle of `main` from position `i` of the snapshot on: the rows it
      leaves, its effects, the responses left, and whether it stalled. */
  datatype CycleRun = CycleRun(tasks: map<string, Task>, events: seq<Event>, rest: Script, stalled: bool)

  /** One `process_task(task_id)` call on the whole store: a missing id changes nothing. */
  function Step(tasks: map<string, Task>, id: string, env: Env, script: Script, now: Timestamp): CycleRun {
    if id !in tasks then CycleRun(tasks, [], script, false)
    else
      var run := Process(tasks[id], env, script, now);
      CycleRun(tasks[id := run.final], run.events, run.rest, run.stalled)
  }

  function Cycle(tasks: map<string, Task>, ids: seq<string>, i: nat, env: Env, script: Script, now: Timestamp): (c: CycleRun)
    requires i <= |ids|
    decreases |ids| - i
  {
    if i == |ids| then CycleRun(tasks, [], script, false)
    else
      var st := Step(tasks, ids[i], env, script, now);
      if st.stalled then st
      else
        var c := Cycle(st.tasks, ids, i + 1, env, st.rest, now);
        CycleRun(c.tasks, st.events + c.events, c.rest, c.stalled)
  }

  /** One position of the snapshot: the cycle is that task's step followed, unless it
      stalled, by the cycle over the rest. */
  lemma CycleStepsOnce(tasks: map<string, Task>, ids: seq<string>, i: nat, env: Env, script: Script, now: Timestamp)
    requires i < |ids|
    ensures var st := Step(tasks, ids[i], env, script, now);
      var here := Cycle(tasks, ids, i, env, script, now);
      && (st.stalled ==> here == st)
      && (!st.stalled ==>
            var next := Cycle(st.tasks, ids, i + 1, env, st.rest, now);
            here.tasks == next.tasks && here.rest == next.rest && here.stalled == next.stalled
            && here.events == st.events + next.events)
  {
  }

  /** `whole` is what the cycle does from the start, `c` what it still does from here
      on, and `done` the effects already taken. */
  predicate CycleMatches(whole: CycleRun, c: CycleRun, done: seq<Event>) {
    whole.tasks == c.tasks && whole.rest == c.rest && whole.stalled == c.stalled && whole.events == done + c.events
  }

  /** Taking one step keeps `CycleMatches`, or, on a stall, ends the whole cycle there. */
  lemma CycleAdvance(whole: CycleRun, tasks: map<string, Task>, ids: seq<string>, i: nat, env: Env, script: Script, now: Timestamp, done: seq<Event>)
    requires i < |ids|
    requires CycleMatches(whole, Cycle(tasks, ids, i, env, script, now), done)
    ensures var st := Step(tasks, ids[i], env, script, now);
      && (st.stalled ==> whole.tasks == st.tasks && whole.rest == st.rest && whole.stalled && whole.events == done + st.events)
      && (!st.stalled ==> CycleMatches(whole, Cycle(st.tasks, ids, i + 1, env, st.rest, now), done + st.events))
  {
    CycleStepsOnce(tasks, ids, i, env, script, now);
  }

  /** What `db.query(Task).filter(Task.status == "PENDING").all()` returns: each PENDING
      task id exactly once, in an order the store chooses. */
  predicate IsPendingSnapshot(tasks: map<string, Task>, ids: seq<string>) {
    && (forall i :: 0 <= i < |ids| ==> ids[i] in tasks && tasks[ids[i]].status == PENDING)
    && (forall id :: id in tasks && tasks[id].status == PENDING ==> id in ids)
    && (forall i, j :: 0 <= i < j < |ids| ==> ids[i] != ids[j])
  }

  method PendingSnapshot(tasks: map<string, Task>) returns (ids: seq<string>)
    ensures IsPendingSnapshot(tasks, ids)
  {
    ids := [];
    var unseen := tasks.Keys;
    while unseen != {}
      invariant unseen <= tasks.Keys
      invariant forall i :: 0 <= i < |ids| ==> ids[i] in tasks && ids[i] !in unseen && tasks[ids[i]].status == PENDING
      invariant forall id :: id in tasks && id !in unseen && tasks[id].status == PENDING ==> id in ids
      invariant forall i, j :: 0 <= i < j < |ids| ==> ids[i] != ids[j]
      decreases unseen
    {
      var id :| id in unseen;
      if tasks[id].status == PENDING {
        ids := ids + [id];
      }
      unseen := unseen - {id};
    }
  }

  /** The worker process: the responses the scanning service will still give, and the
      trace of everything the worker has done so far. */
  class Daemon {
    var script: Script
    var trace: seq<Event>

    constructor (script: Script)
      ensures this.script == script && trace == []
    {
      this.script := script;
      trace := [];
    }

    /** `process_task`: a missing row is left alone; otherwise RUNNING is committed before
        anything else, then exactly one terminal row is committed. */
    method ProcessTask(store: TaskStore, taskId: string, env: Env, now: Timestamp) returns (stalled: bool)
      requires store.Valid()
      modifies this, store
      ensures store.Valid()
      ensures var st := Step(old(store.tasks), taskId, env, old(script), now);
                && store.tasks == st.tasks
                && trace == old(trace) + st.events
                && script == st.rest
                && stalled == st.stalled
    {
      if taskId !in store.tasks {
        return false;
      }
      ghost var run := Process(store.tasks[taskId], env, script, now);
      ghost var trace0 := trace;
      var task := store.tasks[taskId];
      task := task.(status := RUNNING);
      store.tasks := store.tasks[taskId := task];
      trace := trace + [Committed(task)];
      stalled := Execute(store, task, env, now, run);
      assert run.events == [Committed(task)] + run.events[1..];
      ConcatAssoc(trace0, [Committed(task)], run.events[1..]);
    }

    /** The body of `process_task`'s `try` block, after the claim was committed: the
        prechecks, the scan, and the one terminal commit. */
    method Execute(store: TaskStore, task: Task, env: Env, now: Timestamp, ghost run: ProcessRun) returns (stalled: bool)
      requires store.Valid() && task.taskId in store.tasks && task.status == RUNNING
      requires store.tasks[task.taskId] == task
      requires |trace| >= 1 && trace[|trace| - 1] == Committed(task)
      requires run == Process(task, env, script, now)
      modifies this, store
      ensures store.Valid()
      ensures store.tasks == old(store.tasks)[task.taskId := run.final]
      ensures trace == old(trace) + run.events[1..]
      ensures script == run.rest && stalled == run.stalled
    {
      var taskId := task.taskId;
      ghost var trace0 := trace;
      var error: Option<string> := None;
      var filePath := UploadPath(UploadsDir(env.vars), taskId, task.filename);
      assert filePath == InputPath(env, Claim(task));
      if filePath !in env.files {
        error := Some(FileNotFound);
      } else if !EndsWith(filePath, PdfSuffix) {
        error := Some(NotPdf);
      } else if !ApiKeyConfigured(env.vars) {
        error := Some(ApiKeyMissing);
      }
      if error.Some? {
        assert Precheck(env, Claim(task)) == error;
        var failed := task.(status := FAILED, errorMessage := Some(error.value), completedAt := Some(now));
        store.tasks := store.tasks[taskId := failed];
        trace := trace + [Committed(failed)];
        return false;
      }
      assert Precheck(env, Claim(task)) == None;
      ghost var script0 := script;
      var scan := ScanFile(filePath, script);
      assert scan == Scan(InputPath(env, Claim(task)), script0);
      script := scan.rest;
      trace := trace + scan.events;
      assert run.events[1..] == scan.events + run.events[1 + |scan.events|..];
      match scan.outcome
      case OutOfScript =>
        return true;
      case ScanFailed(m) =>
        var failed := task.(status := FAILED, errorMessage := Some(m), completedAt := Some(now));
        store.tasks := store.tasks[taskId := failed];
        trace := trace + [Committed(failed)];
        ConcatAssoc(trace0, scan.events, [Committed(failed)]);
        return false;
      case Scanned(report) =>
        var reportPath := ReportPath(ReportsDir(env.vars), taskId);
        trace := trace + [ReportWritten(reportPath, report)];
        var done := task.(status := COMPLETED, reportPath := Some(reportPath), completedAt := Some(now));
        store.tasks := store.tasks[taskId := done];
        trace := trace + [Committed(done)];
        ConcatAssoc(trace0, scan.events, [ReportWritten(reportPath, report)]);
        ConcatAssoc(trace0, scan.events + [ReportWritten(reportPath, report)], [Committed(done)]);
        return false;
    }

    /** One iteration of `main`'s loop: snapshot the PENDING tasks, process them in
        snapshot order, then sleep. A stalled scan ends the cycle where it stands. */
    method RunCycle(store: TaskStore, env: Env, now: Timestamp) returns (snapshot: seq<string>, stalled: bool)
      requires store.Valid()
      modifies this, store
      ensures store.Valid()
      ensures IsPendingSnapshot(old(store.tasks), snapshot)
      ensures var c := Cycle(old(store.tasks), snapshot, 0, env, old(script), now);
                && store.tasks == c.tasks
                && script == c.rest
                && stalled == c.stalled
                && trace == old(trace) + c.events + (if c.stalled then [] else [Slept(CycleDelay)])
    {
      snapshot := PendingSnapshot(store.tasks);
      ghost var whole := Cycle(store.tasks, snapshot, 0, env, script, now);
      ghost var trace0 := trace;
      ghost var done: seq<Event> := [];
      var i := 0;
      while i < |snapshot|
        invariant 0 <= i <= |snapshot|
        invariant store.Valid()
        invariant trace == trace0 + done
        invariant CycleMatches(whole, Cycle(store.tasks, snapshot, i, env, script, now), done)
      {
        ghost var st := Step(store.tasks, snapshot[i], env, script, now);
        CycleAdvance(whole, store.tasks, snapshot, i, env, script, now, done);
        var s := ProcessTask(store, snapshot[i], env, now);
        ConcatAssoc(trace0, done, st.events);
        done := done + st.events;
        if s {
          return snapshot, true;
        }
        i := i + 1;
      }
      trace := trace + [Slept(CycleDelay)];
      return snapshot, false;
    }
  }

  // ---------------------------------------------------------------------------
  // Properties of process_task

  /** The order of effects: RUNNING is committed first, before any service call; the
      terminal row, when there is one, is the last effect, and nothing else is committed. */
  lemma ProcessEffectOrder(t: Task, env: Env, script: Script, now: Timestamp)
    ensures var run := Process(t, env, script, now);
      && |run.events| >= 1
      && run.events[0] == Committed(Claim(t))
      && (!run.stalled ==> |run.events| >= 2 && run.events[|run.events| - 1] == Committed(run.final))
      && (forall j :: 0 < j < |run.events| - 1 ==> !run.events[j].Committed?)
      && (run.stalled ==> forall j :: 0 < j < |run.events| ==> !run.events[j].Committed?)
  {
    var run := Process(t, env, script, now);
    var path := InputPath(env, Claim(t));
    if Precheck(env, Claim(t)).None? {
      var scan := Scan(path, script);
      ScanEffectsAreServiceCallsAndSleeps(path, script);
      forall j | 0 < j < |run.events| && j - 1 < |scan.events|
        ensures run.events[j] == scan.events[j - 1]
      {
      }
      assert forall j :: 0 <= j < |scan.events| ==> scan.events[j] in scan.events;
    }
  }

  /** A failing precheck fails the task with that check's message and stamps it; the
      scanner is never called and no response is consumed. */
  lemma ProcessPrecheckFailure(t: Task, env: Env, script: Script, now: Timestamp)
    requires Precheck(env, Claim(t)).Some?
    ensures var run := Process(t, env, script, now);
      && run.final == Fail(Claim(t), Precheck(env, Claim(t)).value, now)
      && run.final.status == FAILED && run.final.completedAt == Some(now)
      && run.events == [Committed(Claim(t)), Committed(run.final)]
      && run.rest == script && !run.stalled
      && forall e :: e in run.events ==> !e.IsServiceCall()
  {
  }

  /** On success the row is COMPLETED with the report under the reports directory, and
      the document written there is the body of the completed poll. */
  lemma ProcessSuccess(t: Task, env: Env, script: Script, now: Timestamp)
    ensures var run := Process(t, env, script, now);
      run.final.status == COMPLETED ==>
        var path := ReportPath(ReportsDir(env.vars), t.taskId);
        && Precheck(env, Claim(t)) == None
        && Scan(InputPath(env, Claim(t)), script).outcome.Scanned?
        && run.final == Complete(Claim(t), path, now)
        && run.final.reportPath == Some(path) && run.final.completedAt == Some(now)
        && |run.events| >= 2
        && run.events[|run.events| - 2] == ReportWritten(path, Scan(InputPath(env, Claim(t)), script).outcome.report)
  {
  }

  /** Every run that does not stall ends in a terminal row stamped with `now`; the row's
      identity is untouched, `report_path` changes only on success, and a failure's
      message is a precheck message or a wrapped scan failure. */
  lemma ProcessTerminalOutcome(t: Task, env: Env, script: Script, now: Timestamp)
    ensures var run := Process(t, env, script, now);
      && (run.stalled <==> Precheck(env, Claim(t)) == None && Scan(InputPath(env, Claim(t)), script).outcome.OutOfScript?)
      && (run.stalled ==> run.final == Claim(t))
      && (!run.stalled ==> run.final.status.IsTerminal() && run.final.completedAt == Some(now))
      && run.final.taskId == t.taskId && run.final.description == t.description
      && run.final.filename == t.filename && run.final.createdAt == t.createdAt
      && (run.final.reportPath != t.reportPath ==> run.final.status == COMPLETED)
      && (run.final.errorMessage != t.errorMessage ==> run.final.status == FAILED)
      && (run.final.status == FAILED ==>
            run.final.errorMessage.Some? &&
            var m := run.final.errorMessage.value;
            m == FileNotFound || m == NotPdf || m == ApiKeyMissing || StartsWith(m, ScanFailedPrefix))
  {
    var run := Process(t, env, script, now);
    if Precheck(env, Claim(t)) == None {
      ScanFailureKeepsCause(InputPath(env, Claim(t)), script);
    }
  }

  /** `process_task` does not look at the status it finds: a COMPLETED row whose file is
      gone is overwritten with FAILED, keeping its old report location. Only `main`'s
      PENDING filter keeps terminal rows from being processed again. */
  lemma ReprocessingOverwritesTerminalRow(t: Task, env: Env, script: Script, now: Timestamp)
    requires t.status == COMPLETED && t.reportPath.Some?
    requires InputPath(env, t) !in env.files
    ensures var run := Process(t, env, script, now);
      && run.final.status == FAILED
      && run.final.errorMessage == Some(FileNotFound)
      && run.final.reportPath == t.reportPath
      && !WellFormed(run.final)
  {
    assert InputPath(env, Claim(t)) == InputPath(env, t);
  }

  /** Processing a PENDING row keeps it well-formed: the terminal fields appear together
      with the terminal status. */
  lemma ProcessPendingKeepsWellFormed(t: Task, env: Env, script: Script, now: Timestamp)
    requires WellFormed(t) && t.status == PENDING
    ensures WellFormed(Process(t, env, script, now).final)
  {
  }

  // ---------------------------------------------------------------------------
  // Properties of a cycle of main

  /** A cycle changes no key of the store and no row outside its snapshot. */
  lemma {:induction false} CycleTouchesOnlySnapshot(tasks: map<string, Task>, ids: seq<string>, i: nat, env: Env, script: Script, now: Timestamp)
    requires i <= |ids|
    ensures var c := Cycle(tasks, ids, i, env, script, now);
      && c.tasks.Keys == tasks.Keys
      && forall id :: id in tasks && id !in ids[i..] ==> c.tasks[id] == tasks[id]
    decreases |ids| - i
  {
    if i < |ids| {
      if ids[i] !in tasks {
        CycleTouchesOnlySnapshot(tasks, ids, i + 1, env, script, now);
      } else {
        var run := Process(tasks[ids[i]], env, script, now);
        if !run.stalled {
          CycleTouchesOnlySnapshot(tasks[ids[i] := run.final], ids, i + 1, env, run.rest, now);
        }
      }
    }
  }

  /** A cycle that did not stall leaves every snapshot task COMPLETED or FAILED. */
  lemma {:induction false} CycleEndsTerminal(tasks: map<string, Task>, ids: seq<string>, i: nat, env: Env, script: Script, now: Timestamp)
    requires i <= |ids|
    ensures var c := Cycle(tasks, ids, i, env, script, now);
      && c.tasks.Keys == tasks.Keys
      && (!c.stalled ==> forall k :: i <= k < |ids| && ids[k] in tasks ==> c.tasks[ids[k]].status.IsTerminal())
    decreases |ids| - i
  {
    CycleTouchesOnlySnapshot(tasks, ids, i, env, script, now);
    if i < |ids| {
      var c := Cycle(tasks, ids, i, env, script, now);
      if ids[i] !in tasks {
        CycleEndsTerminal(tasks, ids, i + 1, env, script, now);
      } else {
        var run := Process(tasks[ids[i]], env, script, now);
        ProcessTerminalOutcome(tasks[ids[i]], env, script, now);
        if !run.stalled {
          var tasks' := tasks[ids[i] := run.final];
          CycleEndsTerminal(tasks', ids, i + 1, env, run.rest, now);
          CycleTouchesOnlySnapshot(tasks', ids, i + 1, env, run.rest, now);
          if !c.stalled && ids[i] !in ids[i + 1..] {
            assert c.tasks[ids[i]] == tasks'[ids[i]];
          }
          forall k | i <= k < |ids| && ids[k] in tasks && !c.stalled
            ensures c.tasks[ids[k]].status.IsTerminal()
          {
            if ids[k] == ids[i] && ids[i] in ids[i + 1..] {
              var k' :| i + 1 <= k' < |ids| && ids[k'] == ids[i];
              assert (ids[i + 1..])[k' - (i + 1)] == ids[k'];
            }
          }
        }
      }
    }
  }

  /** A cycle over a snapshot of distinct PENDING ids keeps the lifecycle invariant of
      every row in the store. */
  lemma {:induction false} CycleKeepsWellFormed(tasks: map<string, Task>, ids: seq<string>, i: nat, env: Env, script: Script, now: Timestamp)
    requires i <= |ids|
    requires AllWellFormed(tasks)
    requires forall k :: i <= k < |ids| ==> ids[k] in tasks && tasks[ids[k]].status == PENDING
    requires forall k, l :: i <= k < l < |ids| ==> ids[k] != ids[l]
    ensures AllWellFormed(Cycle(tasks, ids, i, env, script, now).tasks)
    decreases |ids| - i
  {
    if i < |ids| {
      var run := Process(tasks[ids[i]], env, script, now);
      ProcessPendingKeepsWellFormed(tasks[ids[i]], env, script, now);
      var tasks' := tasks[ids[i] := run.final];
      if !run.stalled {
        CycleKeepsWellFormed(tasks', ids, i + 1, env, run.rest, now);
      }
    }
  }

  /** Over an actual snapshot, a cycle that did not stall has finished every task that was
      PENDING when it started, and left every other row exactly as it was. */
  lemma CycleFinishesSnapshot(tasks: map<string, Task>, ids: seq<string>, env: Env, script: Script, now: Timestamp)
    requires IsPendingSnapshot(tasks, ids)
    ensures var c := Cycle(tasks, ids, 0, env, script, now);
      && c.tasks.Keys == tasks.Keys
      && (forall id :: id in tasks && tasks[id].status != PENDING ==> c.tasks[id] == tasks[id])
      && (!c.stalled ==> forall id :: id in tasks && tasks[id].status == PENDING ==> c.tasks[id].status.IsTerminal())
  {
    CycleTouchesOnlySnapshot(tasks, ids, 0, env, script, now);
    CycleEndsTerminal(tasks, ids, 0, env, script, now);
    var c := Cycle(tasks, ids, 0, env, script, now);
    forall id | id in tasks && tasks[id].status != PENDING
      ensures c.tasks[id] == tasks[id]
    {
      assert ids[0..] == ids;
    }
    forall id | id in tasks && tasks[id].status == PENDING && !c.stalled
      ensures c.tasks[id].status.IsTerminal()
    {
      var k :| 0 <= k < |ids| && ids[k] == id;
    }
  }
}
