/**
 The result dictionaries that travel from a worker to the workflow (kernelgym/schema/result.py)
 and how the toolkit and the worker build them. Metadata is only present or absent here.
 */
module Replies {
  import opened Common

  const COMPLETED := "completed"
  const FAILED := "failed"

  /** A JSON object: None is a missing key; a present error message or code may still be null. */
  datatype Reply = Reply(
    taskId: Option<string>, baseId: Option<string>,
    compiled: Option<bool>, correctness: Option<bool>, decoy: Option<bool>,
    kernelRuntime: Option<real>, referenceRuntime: Option<real>, hasMetadata: bool,
    status: Option<string>, errorMessage: Option<Option<string>>, errorCode: Option<Option<string>>)

  const EMPTY_REPLY := Reply(None, None, None, None, None, None, None, false, None, None, None)

  function TextOr(r: Reply, fallback: string): string {
    if r.errorMessage.Some? && r.errorMessage.value.Some? && r.errorMessage.value.value != "" then r.errorMessage.value.value
    else fallback
  }

  /** The task a worker is given for one half of an evaluation. */
  datatype HalfTask = HalfTask(id: string, baseId: string, isReference: bool)

  // ---- what the toolkit returns ----

  /** What running a kernel against its reference found; an empty text is an absent detail. */
  datatype Exec = Exec(compiled: bool, correctness: bool, decoy: bool, runtime: real,
                       compilationError: string, runtimeError: string, error: string, validationError: string)

  function Or(a: string, b: string): string { if a != "" then a else b }

  /** `KernelEvaluationResult.from_kernel_exec_result(...).to_dict()`. */
  function KernelDict(task: HalfTask, e: Exec): Reply {
    var compileDetail := Or(e.compilationError, Or(e.error, e.validationError));
    var runDetail := Or(e.runtimeError, e.error);
    var message :=
      if !e.compiled then Some(if compileDetail != "" then "Kernel compilation failed: " + compileDetail
                               else "Kernel compilation failed")
      else if !e.correctness then Some(if runDetail != "" then "Kernel execution failed: " + runDetail
                                       else "Kernel produced incorrect results")
      else None;
    var code :=
      if !e.compiled then Some("COMPILATION_ERROR")
      else if !e.correctness then Some(if runDetail != "" then "RUNTIME_ERROR" else "CORRECTNESS_ERROR")
      else None;
    Reply(Some(task.id), Some(task.baseId), Some(e.compiled), Some(e.correctness), Some(e.decoy),
          Some(e.runtime), None, true, Some(if e.compiled then COMPLETED else FAILED), Some(message), Some(code))
  }

  function FailedKernelDict(task: HalfTask, runtime: real, message: string, code: string): Reply {
    Reply(Some(task.id), Some(task.baseId), Some(false), Some(false), Some(false),
          Some(runtime), None, true, Some(FAILED), Some(Some(message)), Some(Some(code)))
  }

  function ReferenceDict(task: HalfTask, runtime: real): Reply {
    Reply(Some(task.id), Some(task.baseId), None, None, None,
          None, Some(runtime), true, Some(COMPLETED), Some(None), Some(None))
  }

  function FailedReferenceDict(task: HalfTask, runtime: real, message: string, code: string): Reply {
    Reply(Some(task.id), Some(task.baseId), None, None, None,
          None, Some(runtime), true, Some(FAILED), Some(Some(message)), Some(Some(code)))
  }

  datatype KernelWork = RefusedKernel(message: string) | KernelThrew(message: string) | KernelRan(exec: Exec)

  datatype ReferenceWork = RefusedReference(message: string) | ReferenceThrew(message: string) | Timed(a: real, b: real, c: real)

  /** The middle one of three full-round timings. */
  function Median(a: real, b: real, c: real): (m: real)
    ensures m in {a, b, c}
    ensures (if a <= m then 1 else 0) + (if b <= m then 1 else 0) + (if c <= m then 1 else 0) >= 2
    ensures (if a >= m then 1 else 0) + (if b >= m then 1 else 0) + (if c >= m then 1 else 0) >= 2
  {
    var (lo, hi) := if a <= b then (a, b) else (b, a);
    if c <= lo then lo else if c <= hi then c else hi
  }

  function KernelToolkit(task: HalfTask, w: KernelWork, classify: string -> string): Reply {
    match w
    case RefusedKernel(message) => FailedKernelDict(task, 0.0, message, "VALIDATION_ERROR")
    case KernelThrew(message) => FailedKernelDict(task, 0.0, "Kernel evaluation failed: " + message, classify(message))
    case KernelRan(exec) => KernelDict(task, exec)
  }

  function ReferenceToolkit(task: HalfTask, w: ReferenceWork, classify: string -> string): Reply {
    match w
    case RefusedReference(message) =>
      FailedReferenceDict(task, 0.0, "Reference code validation failed: " + message, "VALIDATION_ERROR")
    case ReferenceThrew(message) =>
      FailedReferenceDict(task, 0.0, "Reference timing failed: " + message, classify(message))
    case Timed(a, b, c) => ReferenceDict(task, Median(a, b, c))
  }
}
