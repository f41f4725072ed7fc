/**
 Task processing in kernelgym/worker/gpu_worker.py: every task a worker takes is answered once,
 with a normalised status, and counted once.
 */
module GpuWorker {
  import opened Common
  import opened Replies

  /** A task payload; the two keys the worker insists on, and the type that picks a failed result. */
  datatype TaskData = TaskData(id: string, baseId: Option<string>, taskType: string, hasToolkit: bool, hasAdapter: bool)

  /** How the pool call ends. */
  datatype PoolRun = PoolRaised(message: string) | NotSuccessful(errorType: string, message: string) | Ran(result: Reply)

  /** `_process_toolkit_task` after the pool returned: anything but "completed" becomes "failed". */
  function Normalise(r: Reply, classify: string -> string): Reply {
    if r.status == Some(COMPLETED) then r
    else
      var message := TextOr(r, "Task failed");
      r.(status := Some(FAILED), errorMessage := Some(Some(message)),
         errorCode := if r.errorCode.None? || r.errorCode.value.None? then Some(Some(classify(message))) else r.errorCode)
  }

  function FailedDict(t: TaskData, message: string, code: string): Reply {
    var half := HalfTask(t.id, if t.baseId.Some? then t.baseId.value else t.id, t.taskType == "reference_timing");
    if t.taskType == "reference_timing" then FailedReferenceDict(half, -1.0, message, code)
    else if t.taskType == "kernel_evaluation" then FailedKernelDict(half, -1.0, message, code)
    else FailedKernelDict(half, -1.0, message, code).(baseId := None, referenceRuntime := Some(-1.0))
  }

  /** What is stored for a task, given how its pool call ends. */
  function Answer(t: TaskData, run: PoolRun, classify: string -> string): Reply {
    var raised :=
      if !t.hasToolkit then Some("Task payload missing required 'toolkit'")
      else if !t.hasAdapter then Some("Task payload missing required 'backend_adapter'")
      else if run.PoolRaised? then Some(run.message)
      else if run.NotSuccessful? then Some(run.errorType + ": " + run.message)
      else None;
    if raised.Some? then FailedDict(t, "Task processing failed: " + raised.value, classify(raised.value))
    else Normalise(run.result, classify)
  }

  /** The task is counted as completed exactly when its stored status says so. */
  lemma AnswerIsNormalised(t: TaskData, run: PoolRun, classify: string -> string)
    ensures Answer(t, run, classify).status in {Some(COMPLETED), Some(FAILED)}
    ensures Answer(t, run, classify).status == Some(COMPLETED) <==>
              t.hasToolkit && t.hasAdapter && run.Ran? && run.result.status == Some(COMPLETED)
    ensures Answer(t, run, classify).status == Some(FAILED) ==>
              Answer(t, run, classify).errorMessage.Some? && Answer(t, run, classify).errorMessage.value.Some?
              && Answer(t, run, classify).errorCode.Some? && Answer(t, run, classify).errorCode.value.Some?
  {
  }

  /** A task that raised is answered in the shape its type asks for: a reference has only a runtime, a kernel
      only what belongs to a kernel, any other evaluation both and no base; every runtime is -1. */
  lemma FailureHasShape(t: TaskData, run: PoolRun, classify: string -> string)
    requires !t.hasToolkit || !t.hasAdapter || !run.Ran?
    ensures var r := Answer(t, run, classify);
      var isReference, isKernel := t.taskType == "reference_timing", t.taskType == "kernel_evaluation";
      && r.taskId == Some(t.id) && r.status == Some("failed") && r.hasMetadata
      && r.baseId == (if isReference || isKernel then Some(if t.baseId.Some? then t.baseId.value else t.id) else None)
      && r.referenceRuntime == (if isKernel then None else Some(-1.0))
      && r.kernelRuntime == (if isReference then None else Some(-1.0))
      && r.compiled == r.correctness == r.decoy == (if isReference then None else Some(false))
  {
  }

  /** How many stored answers say "completed". */
  function CompletedIn(answers: seq<(string, Reply)>): nat {
    if answers == [] then 0
    else CompletedIn(answers[..|answers| - 1]) + (if answers[|answers| - 1].1.status == Some(COMPLETED) then 1 else 0)
  }

  function Answers(tasks: seq<(TaskData, PoolRun)>, classify: string -> string): seq<(string, Reply)> {
    seq(|tasks|, i requires 0 <= i < |tasks| => (tasks[i].0.id, Answer(tasks[i].0, tasks[i].1, classify)))
  }

  lemma CompletedSnoc(answers: seq<(string, Reply)>, x: (string, Reply))
    ensures CompletedIn(answers + [x]) == CompletedIn(answers) + (if x.1.status == Some(COMPLETED) then 1 else 0)
  {
    assert (answers + [x])[..|answers|] == answers;
  }

  class GPUWorker {
    const classify: string -> string
    var currentTask: Option<string>
    var tasksProcessed: nat
    var tasksCompleted: nat
    var tasksFailed: nat
    var completions: seq<(string, Reply)>   // the `complete_task` calls made so far

    /** Between tasks the counters are those of the answers stored so far. */
    predicate Between()
      reads this
    {
      && currentTask.None? && tasksProcessed == |completions|
      && tasksCompleted == CompletedIn(completions)
      && tasksCompleted + tasksFailed == tasksProcessed
    }

    constructor (classify: string -> string)
      ensures Between() && completions == [] && this.classify == classify
    {
      this.classify := classify;
      currentTask, tasksProcessed, tasksCompleted, tasksFailed, completions := None, 0, 0, 0, [];
    }

    /** `_run_toolkit_task`: either a result or the text of the exception. */
    method RunToolkitTask(run: PoolRun) returns (result: Option<Reply>, error: string)
      ensures result.Some? <==> run.Ran?
      ensures run.Ran? ==> result == Some(run.result)
      ensures run.PoolRaised? ==> error == run.message
      ensures run.NotSuccessful? ==> error == run.errorType + ": " + run.message
    {
      match run {
        case PoolRaised(message) => result, error := None, message;
        case NotSuccessful(errorType, message) => result, error := None, errorType + ": " + message;
        case Ran(r) => result, error := Some(r), "";
      }
    }

    /** `_process_toolkit_task`; the text of the exception if it raises before answering. */
    method ProcessToolkitTask(t: TaskData, run: PoolRun) returns (raised: Option<string>)
      modifies this`completions, this`tasksCompleted, this`tasksFailed
      ensures raised.None? <==> t.hasToolkit && t.hasAdapter && run.Ran?
      ensures raised.None? ==> completions == old(completions) + [(t.id, Answer(t, run, classify))]
      ensures raised.None? ==>
                && tasksCompleted == old(tasksCompleted) + (if Answer(t, run, classify).status == Some(COMPLETED) then 1 else 0)
                && tasksFailed == old(tasksFailed) + (if Answer(t, run, classify).status == Some(COMPLETED) then 0 else 1)
      ensures raised.Some? ==>
                && completions == old(completions) && tasksCompleted == old(tasksCompleted) && tasksFailed == old(tasksFailed)
                && Answer(t, run, classify) == FailedDict(t, "Task processing failed: " + raised.value, classify(raised.value))
    {
      if !t.hasToolkit { return Some("Task payload missing required 'toolkit'"); }
      if !t.hasAdapter { return Some("Task payload missing required 'backend_adapter'"); }
      var result, error := RunToolkitTask(run);
      if result.None? { return Some(error); }
      var r := result.value;
      var status := r.status;
      if status != Some(COMPLETED) {
        var message := TextOr(r, "Task failed");
        if r.errorCode.None? || r.errorCode.value.None? { r := r.(errorCode := Some(Some(classify(message)))); }
        r := r.(status := Some(FAILED), errorMessage := Some(Some(message)));
      }
      completions := completions + [(t.id, r)];
      if status == Some(COMPLETED) { tasksCompleted := tasksCompleted + 1; } else { tasksFailed := tasksFailed + 1; }
      return None;
    }

    /** One task, from start to `finally`: one answer, one count, whatever happened. */
    method ProcessTask(t: TaskData, run: PoolRun)
      requires Between()
      modifies this
      ensures Between()
      ensures completions == old(completions) + [(t.id, Answer(t, run, classify))]
    {
      CompletedSnoc(completions, (t.id, Answer(t, run, classify)));
      currentTask := Some(t.id);
      var raised := ProcessToolkitTask(t, run);
      if raised.Some? {
        completions := completions + [(t.id, FailedDict(t, "Task processing failed: " + raised.value, classify(raised.value)))];
        tasksFailed := tasksFailed + 1;
      }
      currentTask := None;
      tasksProcessed := tasksProcessed + 1;
    }

    /** The processing loop over the tasks it takes: each is answered exactly once, in order. */
    method ProcessAll(tasks: seq<(TaskData, PoolRun)>)
      requires Between()
      modifies this
      ensures Between()
      ensures completions == old(completions) + Answers(tasks, classify)
    {
      var n := 0;
      while n < |tasks|
        invariant 0 <= n <= |tasks|
        invariant Between()
        invariant completions == old(completions) + Answers(tasks[..n], classify)
      {
        ProcessTask(tasks[n].0, tasks[n].1);
        assert Answers(tasks[..n + 1], classify)
               == Answers(tasks[..n], classify) + [(tasks[n].0.id, Answer(tasks[n].0, tasks[n].1, classify))];
        n := n + 1;
      }
      assert tasks[..n] == tasks;
    }
  }
}
