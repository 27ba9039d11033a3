/**
 * The execution engine: runs a workflow's tasks one after another, hands each task's
 * function the results of the tasks before it, and records the run as a job.
 *
 * The three tables are maps from id to record; the serverless function call is a total
 * function of the function name and the input (an invocation failure comes back as an error
 * text, so it is just another result); the job id and the two clock readings are parameters;
 * a table operation that throws is named by a `Crash` parameter.
 */
module Orchestrator {
  import opened Wrappers
  import opened BackendModel

  /** The result recorded for a task that names no function. */
  const NoOp := "No-Op"

  /** The input key under which the accumulated results are passed. */
  const ContextKey := "context"

  /** A value of a function input: a task parameter, or the map of earlier results. */
  datatype InputValue = Param(json: Json) | ContextValue(results: map<string, string>)

  /** The function call: function name and input to the response text. */
  type Invoker = (string, map<string, InputValue>) -> string

  /** One function invocation, as sent. */
  datatype Call = Call(functionName: string, input: map<string, InputValue>)

  /**
   * The input a task's function receives: every task parameter, then the results so far under
   * `"context"`, which replaces a parameter of that name.
   */
  function LambdaInput(parameters: Option<map<string, Json>>, context: map<string, string>): (input: map<string, InputValue>)
    ensures ContextKey in input && input[ContextKey] == ContextValue(context)
    ensures forall k :: k in input <==> k == ContextKey || (parameters.Some? && k in parameters.value)
    ensures forall k :: k in input && k != ContextKey ==> input[k] == Param(parameters.value[k])
  {
    var base := if parameters.Some? then map k | k in parameters.value :: Param(parameters.value[k]) else map[];
    base[ContextKey := ContextValue(context)]
  }

  /** The invocations one task makes: none when it names no function, otherwise one. */
  function CallsOf(task: Task, context: map<string, string>): seq<Call> {
    match task.lambdaFunctionName
    case None => []
    case Some(f) => [Call(f, LambdaInput(task.parameters, context))]
  }

  /** What one task returns, given the results of the tasks before it. */
  function TaskResult(invoke: Invoker, task: Task, context: map<string, string>): string {
    match task.lambdaFunctionName
    case None => NoOp
    case Some(f) => invoke(f, LambdaInput(task.parameters, context))
  }

  /** The loop's state: the result per task name, the log so far and the invocations sent. */
  datatype RunState = RunState(context: map<string, string>, logs: seq<LogEntry>, calls: seq<Call>)

  /** One turn of the loop: a missing task is skipped; a found one runs, is recorded and logged. */
  function Step(invoke: Invoker, tasks: map<string, Task>, st: RunState, id: string): RunState {
    if id !in tasks then st
    else
      var task := tasks[id];
      var result := TaskResult(invoke, task, st.context);
      RunState(st.context[task.name := result], st.logs + [LogEntry(task.name, result)], st.calls + CallsOf(task, st.context))
  }

  /** The state after the loop has gone through `ids`, starting from nothing. */
  function Replay(invoke: Invoker, tasks: map<string, Task>, ids: seq<string>): RunState
    decreases |ids|
  {
    if ids == [] then RunState(map[], [], [])
    else Step(invoke, tasks, Replay(invoke, tasks, ids[..|ids| - 1]), ids[|ids| - 1])
  }

  /** The tasks the ids resolve to, in list order, missing ones dropped. */
  function FoundTasks(tasks: map<string, Task>, ids: seq<string>): (found: seq<Task>)
    ensures |found| <= |ids|
    ensures forall t :: t in found ==> exists i :: 0 <= i < |ids| && ids[i] in tasks && tasks[ids[i]] == t
    ensures forall i :: 0 <= i < |ids| && ids[i] in tasks ==> tasks[ids[i]] in found
    ensures |ids| == 1 ==> found == (if ids[0] in tasks then [tasks[ids[0]]] else [])
    decreases |ids|
  {
    if ids == [] then []
    else
      var pre := ids[..|ids| - 1];
      var rest := FoundTasks(tasks, pre);
      assert forall i :: 0 <= i < |pre| ==> pre[i] == ids[i];
      if ids[|ids| - 1] in tasks then rest + [tasks[ids[|ids| - 1]]] else rest
  }

  /**
   * The found tasks follow list order, once per occurrence: those of two id lists one after
   * the other are those of the first followed by those of the second. With the one-id case
   * this fixes the tasks the loop runs.
   */
  lemma {:induction false} FoundTasksAppend(tasks: map<string, Task>, a: seq<string>, b: seq<string>)
    ensures FoundTasks(tasks, a + b) == FoundTasks(tasks, a) + FoundTasks(tasks, b)
    decreases |b|
  {
    if b == [] {
      assert a + b == a;
    } else {
      var pre := b[..|b| - 1];
      assert (a + b)[..|a + b| - 1] == a + pre;
      assert (a + b)[|a + b| - 1] == b[|b| - 1];
      FoundTasksAppend(tasks, a, pre);
    }
  }

  /** The found tasks that name a function, in order. */
  function Invoking(found: seq<Task>): seq<Task>
    decreases |found|
  {
    if found == [] then []
    else
      var rest := Invoking(found[..|found| - 1]);
      if found[|found| - 1].lambdaFunctionName.Some? then rest + [found[|found| - 1]] else rest
  }

  /** The result map a log describes: each entry writes its result under its task name. */
  function ContextOf(logs: seq<LogEntry>): map<string, string>
    decreases |logs|
  {
    if logs == [] then map[]
    else ContextOf(logs[..|logs| - 1])[logs[|logs| - 1].task := logs[|logs| - 1].result]
  }

  /**
   * What the loop logs, entry by entry: one log entry per found task, in list order, each
   * holding that task's name and the result it returned when given exactly the results logged
   * before it; and the result map is the one the log describes.
   */
  lemma {:induction false} ReplayLogs(invoke: Invoker, tasks: map<string, Task>, ids: seq<string>)
    ensures var st := Replay(invoke, tasks, ids);
      var found := FoundTasks(tasks, ids);
      && |st.logs| == |found|
      && (forall j :: 0 <= j < |found| ==>
            st.logs[j] == LogEntry(found[j].name, TaskResult(invoke, found[j], ContextOf(st.logs[..j]))))
      && st.context == ContextOf(st.logs)
    decreases |ids|
  {
    if ids != [] {
      var pre := ids[..|ids| - 1];
      var id := ids[|ids| - 1];
      ReplayLogs(invoke, tasks, pre);
      var st0 := Replay(invoke, tasks, pre);
      var found0 := FoundTasks(tasks, pre);
      if id in tasks {
        var task := tasks[id];
        var e := LogEntry(task.name, TaskResult(invoke, task, st0.context));
        var logs := st0.logs + [e];
        var found := found0 + [task];
        assert Replay(invoke, tasks, ids).logs == logs;
        assert Replay(invoke, tasks, ids).context == st0.context[task.name := e.result];
        assert FoundTasks(tasks, ids) == found;
        forall j | 0 <= j < |found|
          ensures logs[j] == LogEntry(found[j].name, TaskResult(invoke, found[j], ContextOf(logs[..j])))
        {
          if j < |found0| {
            assert logs[..j] == st0.logs[..j];
          } else {
            assert logs[..j] == st0.logs;
          }
        }
        assert logs[..|logs| - 1] == st0.logs;
      } else {
        assert Replay(invoke, tasks, ids) == st0;
        assert FoundTasks(tasks, ids) == found0;
      }
    }
  }

  /**
   * What the loop invokes: one invocation per found task that names a function, in order, to
   * that function; a task naming no function is never invoked.
   */
  lemma {:induction false} ReplayCalls(invoke: Invoker, tasks: map<string, Task>, ids: seq<string>)
    ensures var calls := Replay(invoke, tasks, ids).calls;
      var invoking := Invoking(FoundTasks(tasks, ids));
      && |calls| == |invoking|
      && forall j :: 0 <= j < |calls| ==> invoking[j].lambdaFunctionName == Some(calls[j].functionName)
    decreases |ids|
  {
    if ids != [] {
      var pre := ids[..|ids| - 1];
      var id := ids[|ids| - 1];
      ReplayCalls(invoke, tasks, pre);
      var st0 := Replay(invoke, tasks, pre);
      var found0 := FoundTasks(tasks, pre);
      if id in tasks {
        var task := tasks[id];
        var found := found0 + [task];
        assert FoundTasks(tasks, ids) == found;
        assert Replay(invoke, tasks, ids).calls == st0.calls + CallsOf(task, st0.context);
        assert found[..|found| - 1] == found0;
        assert Invoking(found) == Invoking(found0) + (if task.lambdaFunctionName.Some? then [task] else []);
      } else {
        assert Replay(invoke, tasks, ids) == st0;
        assert FoundTasks(tasks, ids) == found0;
      }
    }
  }

  /**
   * A later task with the same name overwrites: a name is in the result map exactly when some
   * entry carries it, and its value is the result of the last such entry.
   */
  lemma {:induction false} ContextLastWins(logs: seq<LogEntry>, k: string)
    ensures k in ContextOf(logs) <==> exists j :: 0 <= j < |logs| && logs[j].task == k
    ensures forall j :: 0 <= j < |logs| && logs[j].task == k && (forall l :: j < l < |logs| ==> logs[l].task != k) ==>
              ContextOf(logs)[k] == logs[j].result
    decreases |logs|
  {
    if logs != [] {
      var pre := logs[..|logs| - 1];
      ContextLastWins(pre, k);
      assert forall j :: 0 <= j < |pre| ==> pre[j] == logs[j];
    }
  }

  /** A task naming no function returns "No-Op" and invokes nothing. */
  lemma NullFunctionIsNoOp(invoke: Invoker, task: Task, context: map<string, string>)
    requires task.lambdaFunctionName.None?
    ensures TaskResult(invoke, task, context) == NoOp && CallsOf(task, context) == []
  {
  }

  /**
   * The job record saved after each found task: the running job with the log up to and
   * including that task.
   */
  function ProgressJobs(started: JobHistory, invoke: Invoker, tasks: map<string, Task>, ids: seq<string>): seq<JobHistory>
    decreases |ids|
  {
    if ids == [] then []
    else
      var rest := ProgressJobs(started, invoke, tasks, ids[..|ids| - 1]);
      if ids[|ids| - 1] in tasks then rest + [started.(logs := Replay(invoke, tasks, ids).logs)] else rest
  }

  /** Each progress save holds one more log entry than the one before, and nothing else changes. */
  lemma {:induction false} ProgressJobsGrowByOneEntry(started: JobHistory, invoke: Invoker, tasks: map<string, Task>, ids: seq<string>)
    ensures var saved := ProgressJobs(started, invoke, tasks, ids);
      var logs := Replay(invoke, tasks, ids).logs;
      && |saved| == |logs|
      && forall j :: 0 <= j < |saved| ==> saved[j] == started.(logs := logs[..j + 1])
    decreases |ids|
  {
    if ids != [] {
      var pre := ids[..|ids| - 1];
      ProgressJobsGrowByOneEntry(started, invoke, tasks, pre);
      var saved0 := ProgressJobs(started, invoke, tasks, pre);
      var logs0 := Replay(invoke, tasks, pre).logs;
      var saved := ProgressJobs(started, invoke, tasks, ids);
      var logs := Replay(invoke, tasks, ids).logs;
      forall j | 0 <= j < |saved|
        ensures saved[j] == started.(logs := logs[..j + 1])
      {
        if j < |saved0| {
          assert logs[..j + 1] == logs0[..j + 1];
        } else {
          assert logs[..j + 1] == logs;
        }
      }
    }
  }

  /** The loop's `i`-th turn, as `Replay` and `ProgressJobs` see it. */
  lemma ProgressStep(started: JobHistory, invoke: Invoker, tasks: map<string, Task>, ids: seq<string>, i: nat)
    requires i < |ids|
    ensures Replay(invoke, tasks, ids[..i + 1]) == Step(invoke, tasks, Replay(invoke, tasks, ids[..i]), ids[i])
    ensures ProgressJobs(started, invoke, tasks, ids[..i + 1])
         == ProgressJobs(started, invoke, tasks, ids[..i])
            + (if ids[i] in tasks then [started.(logs := Replay(invoke, tasks, ids[..i + 1]).logs)] else [])
  {
    assert ids[..i + 1][..i] == ids[..i];
  }

  /** A table operation that throws: the lookup of the `step`-th id, or the save after that task. */
  datatype Crash = DuringLookup(step: nat) | DuringSave(step: nat)

  /**
   * Where the loop stops: how many ids it went through, and whether an exception escaped.
   * A save only happens after a found task, so a crash named at a missing task's save never
   * occurs.
   */
  function StopPoint(tasks: map<string, Task>, ids: seq<string>, crash: Option<Crash>): (stop: (nat, bool))
    ensures stop.0 <= |ids|
    ensures !stop.1 ==> stop.0 == |ids|
  {
    match crash
    case Some(DuringLookup(k)) => if k < |ids| then (k, true) else (|ids|, false)
    case Some(DuringSave(k)) => if k < |ids| && ids[k] in tasks then (k + 1, true) else (|ids|, false)
    case None => (|ids|, false)
  }

  /** How many ids are covered by the progress saves that reached the table. */
  function SavedPrefix(tasks: map<string, Task>, ids: seq<string>, crash: Option<Crash>): (n: nat)
    ensures n <= StopPoint(tasks, ids, crash).0
  {
    match crash
    case Some(DuringSave(k)) => if k < |ids| && ids[k] in tasks then k else |ids|
    case _ => StopPoint(tasks, ids, crash).0
  }

  /** No exception is due at an id before `i`. */
  predicate Unreached(tasks: map<string, Task>, ids: seq<string>, crash: Option<Crash>, i: nat) {
    match crash
    case Some(DuringLookup(k)) => k >= i
    case Some(DuringSave(k)) => k >= i || k >= |ids| || ids[k] !in tasks
    case None => true
  }

  /** A job as first saved: running, no end time, no log. */
  function Started(jobId: string, workflowId: string, startTime: int): JobHistory {
    JobHistory(jobId, workflowId, Running, startTime, None, [])
  }

  /** The job as finally saved: the outcome, the end time and the log of the tasks that ran. */
  function Finished(started: JobHistory, failed: bool, endTime: int, logs: seq<LogEntry>): (job: JobHistory)
    ensures job.status == Failed <==> failed
    ensures job.status == Completed <==> !failed
    ensures job.endTime == Some(endTime) && job.logs == logs
    ensures job.jobId == started.jobId && job.workflowId == started.workflowId && job.startTime == started.startTime
  {
    started.(status := if failed then Failed else Completed, endTime := Some(endTime), logs := logs)
  }

  /**
   * The engine with its three tables. `saves` lists every record written to the job table, in
   * order; `calls` lists every function invocation sent.
   */
  class WorkflowOrchestrator {
    var workflows: map<string, Workflow>
    var tasks: map<string, Task>
    var jobs: map<string, JobHistory>
    var saves: seq<JobHistory>
    var calls: seq<Call>
    const invoke: Invoker

    constructor (workflows: map<string, Workflow>, tasks: map<string, Task>, invoke: Invoker)
      ensures this.workflows == workflows && this.tasks == tasks && this.invoke == invoke
      ensures jobs == map[] && saves == [] && calls == []
    {
      this.workflows, this.tasks, this.invoke := workflows, tasks, invoke;
      jobs, saves, calls := map[], [], [];
    }

    /**
     * `executeTask`: "No-Op" without a call when the task names no function; otherwise the
     * input is built from the parameters and the results so far and the function is invoked.
     */
    method ExecuteTask(task: Task, context: map<string, string>) returns (result: string)
      modifies this`calls
      ensures result == TaskResult(invoke, task, context)
      ensures calls == old(calls) + CallsOf(task, context)
    {
      if task.lambdaFunctionName.None? {
        return NoOp;
      }
      var input: map<string, InputValue> := map[];
      if task.parameters.Some? {
        input := map k | k in task.parameters.value :: Param(task.parameters.value[k]);
      }
      input := input[ContextKey := ContextValue(context)];
      calls := calls + [Call(task.lambdaFunctionName.value, input)];
      result := invoke(task.lambdaFunctionName.value, input);
    }

    /**
     * The loop of `runWorkflow` over the task ids, from the first save to the end of the list or
     * the first exception: the log and the invocations of the tasks it went through, and one save
     * of the job per found task whose save did not throw. Only the job's own entry of the job
     * table changes.
     */
    method RunTasks(started: JobHistory, ids: seq<string>, crash: Option<Crash>) returns (logs: seq<LogEntry>, failed: bool)
      requires started.jobId in jobs
      modifies this`jobs, this`saves, this`calls
      ensures var stop := StopPoint(tasks, ids, crash);
        var st := Replay(invoke, tasks, ids[..stop.0]);
        && logs == st.logs && failed == stop.1
        && calls == old(calls) + st.calls
        && saves == old(saves) + ProgressJobs(started, invoke, tasks, ids[..SavedPrefix(tasks, ids, crash)])
      ensures jobs.Keys == old(jobs).Keys
      ensures forall k :: k in jobs && k != started.jobId ==> jobs[k] == old(jobs)[k]
    {
      var context: map<string, string> := map[];
      var job := started.(logs := []);
      failed := false;
      var i := 0;
      while i < |ids| && !failed
        invariant 0 <= i <= |ids|
        invariant context == Replay(invoke, tasks, ids[..i]).context
        invariant job == started.(logs := Replay(invoke, tasks, ids[..i]).logs)
        invariant calls == old(calls) + Replay(invoke, tasks, ids[..i]).calls
        invariant jobs.Keys == old(jobs).Keys
        invariant forall k :: k in jobs && k != started.jobId ==> jobs[k] == old(jobs)[k]
        invariant !failed ==> Unreached(tasks, ids, crash, i)
        invariant failed ==> StopPoint(tasks, ids, crash) == (i, true)
        invariant saves == old(saves) + ProgressJobs(started, invoke, tasks, ids[..if failed then SavedPrefix(tasks, ids, crash) else i])
        decreases |ids| - i, if failed then 0 else 1
      {
        if crash == Some(DuringLookup(i)) {
          failed := true;
        } else {
          var id := ids[i];
          ProgressStep(started, invoke, tasks, ids, i);
          if id in tasks {
            var task := tasks[id];
            var result := ExecuteTask(task, context);
            context := context[task.name := result];
            job := job.(logs := job.logs + [LogEntry(task.name, result)]);
            if crash == Some(DuringSave(i)) {
              failed := true;
            } else {
              jobs := jobs[started.jobId := job];
              saves := saves + [job];
            }
          }
          i := i + 1;
        }
      }
      logs := job.logs;
    }

    /**
     * `runWorkflow`: an unknown workflow id changes nothing. Otherwise a running job is saved,
     * the task ids are gone through in order (a null list means none), each found task runs
     * and its result is logged and saved, and the job is saved a last time, COMPLETED when the
     * loop finished and FAILED when a table operation threw, with its end time.
     */
    method RunWorkflow(workflowId: string, jobId: string, startTime: int, endTime: int, crash: Option<Crash>)
      modifies this
      ensures workflows == old(workflows) && tasks == old(tasks)
      ensures workflowId !in workflows ==> jobs == old(jobs) && saves == old(saves) && calls == old(calls)
      ensures workflowId in workflows ==>
        var ids := workflows[workflowId].taskIds.GetOr([]);
        var stop := StopPoint(tasks, ids, crash);
        var st := Replay(invoke, tasks, ids[..stop.0]);
        var started := Started(jobId, workflowId, startTime);
        var final := Finished(started, stop.1, endTime, st.logs);
        && jobs == old(jobs)[jobId := final]
        && calls == old(calls) + st.calls
        && saves == old(saves) + [started] + ProgressJobs(started, invoke, tasks, ids[..SavedPrefix(tasks, ids, crash)]) + [final]
    {
      if workflowId !in workflows {
        return;
      }
      var started := Started(jobId, workflowId, startTime);
      jobs := jobs[jobId := started];
      saves := saves + [started];
      var ids := workflows[workflowId].taskIds.GetOr([]);
      var logs, failed := RunTasks(started, ids, crash);
      var final := Finished(started, failed, endTime, logs);
      jobs := jobs[jobId := final];
      saves := saves + [final];
    }
  }
}
