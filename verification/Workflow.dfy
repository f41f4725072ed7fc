/**
 One evaluation request through kernelgym/workflow/kernelbench.py: validation, the kernel task,
 the reference runtime (cached or timed), and the combined result, as functions of the request,
 the cache and the two replies.
 */
module Workflow {
  import opened Common
  import opened Replies

  datatype Gpus = Unset | NotAnInteger | Count(n: int)

  datatype Request = Request(
    id: string, referenceCode: string, kernelCode: string, entryPoint: string,
    uuid: Option<string>, useCache: bool, isValid: bool, gpus: Gpus)

  datatype Evaluation = Evaluation(
    taskId: string, compiled: bool, correctness: bool, decoy: bool,
    referenceRuntime: real, kernelRuntime: real, speedup: real,
    status: string, errorMessage: Option<string>, errorCode: Option<string>)

  datatype Outcome = Answered(result: Evaluation) | ValueError | TypeError

  type Key = (string, int, bool)

  type Store = map<Key, real>

  // ---- the reference cache ----

  predicate HasUuid(uuid: Option<string>) { uuid.Some? && uuid.value != "" }

  function KeyOf(hash: string -> int, uuid: string, code: string, isValid: bool): Key { (uuid, hash(code), isValid) }

  /** `_get_cached_reference_runtime`; no provider is the same as an empty one. */
  function Cached(hash: string -> int, cache: Option<Store>, uuid: Option<string>, code: string, isValid: bool): Option<real> {
    if cache.None? || !HasUuid(uuid) then None
    else
      var k := KeyOf(hash, uuid.value, code, isValid);
      if k in cache.value then Some(cache.value[k]) else None
  }

  function Put(hash: string -> int, cache: Option<Store>, uuid: Option<string>, code: string, isValid: bool, runtime: real): Option<Store> {
    if cache.None? || !HasUuid(uuid) then cache
    else Some(cache.value[KeyOf(hash, uuid.value, code, isValid) := runtime])
  }

  // ---- validation ----

  predicate CodeOk(code: string, entryPoint: string) { code != "" && Contains(code, "class " + entryPoint) }

  predicate ValidRequest(t: Request) {
    && (t.gpus.Count? ==> t.gpus.n >= 1) && !t.gpus.NotAnInteger?
    && (t.useCache ==> HasUuid(t.uuid))
    && CodeOk(t.referenceCode, t.entryPoint) && CodeOk(t.kernelCode, t.entryPoint + "New")
  }

  function FirstError(t: Request): string {
    if t.gpus.Count? && t.gpus.n < 1 then "resources.gpus must be >= 1"
    else if t.gpus.NotAnInteger? then "resources.gpus must be an integer"
    else if t.useCache && !HasUuid(t.uuid) then "UUID is required when use_reference_cache is True"
    else if !CodeOk(t.referenceCode, t.entryPoint) then "Reference code validation failed: " + CodeError(t.referenceCode, t.entryPoint)
    else "Kernel code validation failed: " + CodeError(t.kernelCode, t.entryPoint + "New")
  }

  function CodeError(code: string, entryPoint: string): string {
    if code == "" then "Code is required" else "Code must contain a '" + entryPoint + "' class"
  }

  // ---- results ----

  function FailedResult(id: string, message: Option<string>, code: Option<string>): Evaluation {
    Evaluation(id, false, false, false, -1.0, -1.0, 0.0, FAILED, message, code)
  }

  datatype Kernel = Kernel(taskId: string, baseId: string, compiled: bool, correctness: bool, decoy: bool,
                           runtime: real, status: string, errorMessage: Option<string>, errorCode: Option<string>)

  datatype Reference = Reference(taskId: string, baseId: string, runtime: real, status: string,
                                 errorMessage: Option<string>, errorCode: Option<string>)

  predicate HasKernelFields(r: Reply) {
    r.taskId.Some? && r.baseId.Some? && r.compiled.Some? && r.correctness.Some? && r.decoy.Some?
    && r.kernelRuntime.Some? && r.hasMetadata
  }

  function Flatten(x: Option<Option<string>>): Option<string> { if x.Some? then x.value else None }

  function KernelOf(r: Reply): Kernel
    requires HasKernelFields(r)
  {
    Kernel(r.taskId.value, r.baseId.value, r.compiled.value, r.correctness.value, r.decoy.value, r.kernelRuntime.value,
           if r.status.Some? then r.status.value else COMPLETED, Flatten(r.errorMessage), Flatten(r.errorCode))
  }

  predicate HasReferenceFields(r: Reply) { r.taskId.Some? && r.baseId.Some? && r.referenceRuntime.Some? && r.hasMetadata }

  function ReferenceOf(r: Reply): Reference
    requires HasReferenceFields(r)
  {
    Reference(r.taskId.value, r.baseId.value, r.referenceRuntime.value,
              if r.status.Some? then r.status.value else COMPLETED, Flatten(r.errorMessage), Flatten(r.errorCode))
  }

  function KernelOnly(t: Request, k: Kernel): Evaluation {
    Evaluation(t.id, k.compiled, k.correctness, k.decoy, -1.0, k.runtime, 0.0, k.status, k.errorMessage, k.errorCode)
  }

  function MessageText(m: Option<string>): string { if m.Some? then m.value else "None" }

  /** `EvaluationResult.from_paired_results`. */
  function Combine(ref: Reference, k: Kernel): Evaluation {
    var speedup := if k.correctness && k.runtime > 0.0 && ref.runtime > 0.0 then ref.runtime / k.runtime else 0.0;
    var (status, message, code) :=
      if ref.status != COMPLETED then
        (FAILED, Some("Reference timing failed: " + MessageText(ref.errorMessage)), ref.errorCode)
      else if k.status != COMPLETED then
        (FAILED, Some("Kernel evaluation failed: " + MessageText(k.errorMessage)), k.errorCode)
      else (COMPLETED, None, None);
    Evaluation(ref.baseId, k.compiled, k.correctness, k.decoy, ref.runtime, k.runtime, speedup, status, message, code)
  }

  // ---- the request, stage by stage ----

  /** Either the request ends before the reference matters, or the kernel to be compared. */
  datatype Stage = Final(result: Evaluation) | Ready(kernel: Kernel)

  function KernelStage(t: Request, reply: Option<Reply>): Stage {
    if !ValidRequest(t) then Final(FailedResult(t.id, Some(FirstError(t)), Some("VALIDATION_ERROR")))
    else if reply.None? then Final(FailedResult(t.id, Some("kernel result missing"), None))
    else
      var r := reply.value;
      if r.errorMessage.Some? && r.compiled.None? then
        Final(FailedResult(t.id, r.errorMessage.value, None))
      else if !HasKernelFields(r) then Final(FailedResult(t.id, Some("kernel result missing required fields"), None))
      else
        var k := KernelOf(r);
        if k.compiled && k.correctness then Ready(k) else Final(KernelOnly(t, k))
  }

  function CachedReference(t: Request, runtime: real): Reference {
    Reference(t.id + "_ref", t.id, runtime, COMPLETED, None, None)
  }

  /** A cache-enabled request with a cached runtime times no reference. */
  function Hit(hash: string -> int, cache: Option<Store>, t: Request): Option<real> {
    if t.useCache && HasUuid(t.uuid) then Cached(hash, cache, t.uuid, t.referenceCode, t.isValid) else None
  }

  function CombineOrRaise(ref: Reference, k: Kernel): Outcome {
    if ref.baseId != k.baseId then ValueError else Answered(Combine(ref, k))
  }

  /** `kernelAsked` and `referenceAsked`: the subtasks submitted. `combined`: reached `_combine_results`. */
  datatype Handled = Handled(outcome: Outcome, cache: Option<Store>, kernelAsked: bool, referenceAsked: bool, combined: bool)

  function TimedReference(hash: string -> int, cache: Option<Store>, t: Request, k: Kernel, reply: Option<Reply>): Handled {
    if reply.None? then Handled(Answered(KernelOnly(t, k)), cache, true, true, false)
    else
      var r := reply.value;
      if r.errorMessage.Some? && r.referenceRuntime.None? then Handled(Answered(KernelOnly(t, k)), cache, true, true, false)
      else if !HasReferenceFields(r) then Handled(TypeError, cache, true, true, false)
      else
        var ref := ReferenceOf(r);
        var after := if t.useCache then Put(hash, cache, t.uuid, t.referenceCode, t.isValid, ref.runtime) else cache;
        Handled(CombineOrRaise(ref, k), after, true, true, true)
  }

  /** A whole request. A reply of None stands for no answer and for an empty one. */
  function Handle(hash: string -> int, cache: Option<Store>, t: Request, kernelReply: Option<Reply>, referenceReply: Option<Reply>)
    : Handled
  {
    match KernelStage(t, kernelReply)
    case Final(result) => Handled(Answered(result), cache, ValidRequest(t), false, false)
    case Ready(k) =>
      match Hit(hash, cache, t)
      case Some(runtime) => Handled(CombineOrRaise(CachedReference(t, runtime), k), cache, true, false, true)
      case None => TimedReference(hash, cache, t, k, referenceReply)
  }
}
