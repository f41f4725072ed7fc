/**
 What an evaluation says, in terms of the request and the replies it rests on: for every request that is
 answered, and for kernels that a worker has run.
 */
module Verdicts {
  import opened Common
  import opened Replies
  import opened Workflow
  import opened WorkflowResults
  import opened GpuWorker

  // ---- which requests are taken ----

  /** A request is taken when it asks for at least one GPU or leaves that open, brings a uuid if it is to
      use the reference cache, and both codes declare the class they have to. */
  lemma ValidExactly(t: Request)
    ensures ValidRequest(t) <==>
            && (t.gpus == Unset || (t.gpus.Count? && t.gpus.n >= 1))
            && (t.useCache ==> t.uuid.Some? && t.uuid.value != "")
            && (exists before, after :: t.referenceCode == before + ("class " + t.entryPoint) + after)
            && (exists before, after :: t.kernelCode == before + ("class " + (t.entryPoint + "New")) + after)
  {
    ContainsExactly(t.referenceCode, "class " + t.entryPoint);
    ContainsExactly(t.kernelCode, "class " + (t.entryPoint + "New"));
    assert !Contains("", "class " + t.entryPoint) && !Contains("", "class " + (t.entryPoint + "New"));
  }

  function CodeComplaint(code: string, className: string): string {
    if code == "" then "Code is required" else "Code must contain a '" + className + "' class"
  }

  /** The first thing wrong with a request, in the order in which they are looked for. */
  lemma FirstErrorMeans(t: Request)
    requires !ValidRequest(t)
    ensures (t.gpus.Count? && t.gpus.n < 1) ==> FirstError(t) == "resources.gpus must be >= 1"
    ensures t.gpus.NotAnInteger? ==> FirstError(t) == "resources.gpus must be an integer"
    ensures (t.gpus.Count? ==> t.gpus.n >= 1) && !t.gpus.NotAnInteger? && t.useCache && (t.uuid.None? || t.uuid.value == "") ==>
              FirstError(t) == "UUID is required when use_reference_cache is True"
    ensures (t.gpus.Count? ==> t.gpus.n >= 1) && !t.gpus.NotAnInteger? && (t.useCache ==> t.uuid.Some? && t.uuid.value != "") ==>
              FirstError(t) == if !CodeOk(t.referenceCode, t.entryPoint)
                               then "Reference code validation failed: " + CodeComplaint(t.referenceCode, t.entryPoint)
                               else "Kernel code validation failed: " + CodeComplaint(t.kernelCode, t.entryPoint + "New")
  {
  }

  /** A kernel is run for every valid request; a reference is timed exactly for a compiled, correct kernel
      of a request that finds none in the cache. */
  lemma AsksExactly(hash: string -> int, cache: Option<Store>, t: Request, kernelReply: Option<Reply>, referenceReply: Option<Reply>)
    ensures var h := Handle(hash, cache, t, kernelReply, referenceReply);
      && (h.kernelAsked <==> ValidRequest(t))
      && (h.referenceAsked <==>
            && ValidRequest(t) && kernelReply.Some? && Complete(kernelReply.value)
            && kernelReply.value.compiled.value && kernelReply.value.correctness.value && Hit(hash, cache, t).None?)
      && (h.combined ==> h.kernelAsked && (h.referenceAsked <==> Hit(hash, cache, t).None?))
  {
  }

  /** A request that is not to use the cache is handled the same whatever is cached, and leaves it alone. */
  lemma WithoutCache(hash: string -> int, cache: Option<Store>, t: Request, kernelReply: Option<Reply>, referenceReply: Option<Reply>)
    requires !t.useCache
    ensures var h, bare := Handle(hash, cache, t, kernelReply, referenceReply), Handle(hash, None, t, kernelReply, referenceReply);
      && h.outcome == bare.outcome && h.referenceAsked == bare.referenceAsked && h.cache == cache
  {
  }

  /** A cached runtime is used exactly for the uuid, the reference code and the validation state it was
      stored under. */
  lemma HitExactly(hash: string -> int, store: Store, t: Request, runtime: real)
    ensures Hit(hash, Some(store), t) == Some(runtime) <==>
            && t.useCache && t.uuid.Some? && t.uuid.value != ""
            && (t.uuid.value, hash(t.referenceCode), t.isValid) in store
            && store[(t.uuid.value, hash(t.referenceCode), t.isValid)] == runtime
  {
  }

  // ---- what an answered request says ----

  /** The kernel reply has all it takes for an evaluation. */
  predicate Complete(r: Reply) {
    && r.taskId.Some? && r.baseId.Some? && r.compiled.Some? && r.correctness.Some? && r.decoy.Some?
    && r.kernelRuntime.Some? && r.hasMetadata
  }

  function StatusIn(r: Reply): string { match r.status case Some(s) => s case None => "completed" }

  function MessageIn(r: Reply): Option<string> { match r.errorMessage case Some(m) => m case None => None }

  function CodeIn(r: Reply): Option<string> { match r.errorCode case Some(c) => c case None => None }

  /** An evaluation without a comparison repeats the kernel reply. */
  predicate Repeats(e: Evaluation, t: Request, r: Reply) {
    && e.taskId == t.id && e.referenceRuntime == -1.0 && e.speedup == 0.0
    && e.status == StatusIn(r) && e.errorMessage == MessageIn(r) && e.errorCode == CodeIn(r)
  }

  predicate SaysOfKernel(e: Evaluation, r: Reply) {
    && r.compiled == Some(e.compiled) && r.correctness == Some(e.correctness) && r.decoy == Some(e.decoy)
    && r.kernelRuntime == Some(e.kernelRuntime)
  }

  /** A request that fails before there is a kernel to speak of. */
  predicate Fails(e: Evaluation, t: Request, r: Option<Reply>) {
    && e.taskId == t.id && !e.compiled && !e.correctness && !e.decoy
    && e.referenceRuntime == -1.0 && e.kernelRuntime == -1.0 && e.speedup == 0.0 && e.status == "failed"
    && (if !ValidRequest(t) then e.errorMessage == Some(FirstError(t)) && e.errorCode == Some("VALIDATION_ERROR")
        else if r.None? then e.errorMessage == Some("kernel result missing") && e.errorCode == None
        else if r.value.errorMessage.Some? && r.value.compiled.None? then
          e.errorMessage == r.value.errorMessage.value && e.errorCode == None
        else e.errorMessage == Some("kernel result missing required fields") && e.errorCode == None)
  }

  /** Every answered request says of its kernel what the kernel reply says, if that is complete, and that it
      failed otherwise. Without a comparison nothing else is said; only a compiled and correct kernel is
      compared. */
  lemma AnswersSay(hash: string -> int, cache: Option<Store>, t: Request, kernelReply: Option<Reply>, referenceReply: Option<Reply>)
    requires Handle(hash, cache, t, kernelReply, referenceReply).outcome.Answered?
    ensures var h := Handle(hash, cache, t, kernelReply, referenceReply);
      var e := h.outcome.result;
      if ValidRequest(t) && kernelReply.Some? && Complete(kernelReply.value) then
        && SaysOfKernel(e, kernelReply.value)
        && (h.combined ==> kernelReply.value.baseId == Some(e.taskId) && e.compiled && e.correctness)
        && (!h.combined ==> Repeats(e, t, kernelReply.value))
      else Fails(e, t, kernelReply) && !h.combined
  {
  }

  /** The reference runtime a kernel is compared with: cached, or else timed for the request. */
  predicate ComparedWith(hash: string -> int, cache: Option<Store>, t: Request, referenceReply: Option<Reply>, runtime: real) {
    match Hit(hash, cache, t)
    case Some(x) => runtime == x
    case None => referenceReply.Some? && referenceReply.value.referenceRuntime == Some(runtime)
  }

  function Told(m: Option<string>): string { match m case Some(text) => text case None => "None" }

  /** A comparison reports the ratio of the two runtimes, 0 unless both are positive. It fails with the
      reference's message if that failed, else with the kernel's if that did, else completes. */
  lemma ComparisonsSay(hash: string -> int, cache: Option<Store>, t: Request, kernelReply: Option<Reply>, referenceReply: Option<Reply>)
    requires Handle(hash, cache, t, kernelReply, referenceReply).outcome.Answered?
    requires Handle(hash, cache, t, kernelReply, referenceReply).combined
    ensures var e := Handle(hash, cache, t, kernelReply, referenceReply).outcome.result;
      && kernelReply.Some? && ComparedWith(hash, cache, t, referenceReply, e.referenceRuntime)
      && e.speedup == (if e.kernelRuntime > 0.0 && e.referenceRuntime > 0.0 then e.referenceRuntime / e.kernelRuntime else 0.0)
      && (Hit(hash, cache, t).None? && StatusIn(referenceReply.value) != "completed" ==>
            && e.status == "failed" && e.errorCode == CodeIn(referenceReply.value)
            && e.errorMessage == Some("Reference timing failed: " + Told(MessageIn(referenceReply.value))))
      && (Hit(hash, cache, t).Some? || StatusIn(referenceReply.value) == "completed" ==>
            if StatusIn(kernelReply.value) == "completed"
            then e.status == "completed" && e.errorMessage == None && e.errorCode == None
            else e.status == "failed" && e.errorCode == CodeIn(kernelReply.value)
                 && e.errorMessage == Some("Kernel evaluation failed: " + Told(MessageIn(kernelReply.value))))
  {
    AnswersSay(hash, cache, t, kernelReply, referenceReply);
  }

  /** A request raises exactly when a compiled, correct kernel meets a reference reply that lacks a field, or
      a reference of another evaluation. */
  lemma RaisesExactly(hash: string -> int, cache: Option<Store>, t: Request, kernelReply: Option<Reply>, referenceReply: Option<Reply>)
    ensures var outcome := Handle(hash, cache, t, kernelReply, referenceReply).outcome;
      var compared := ValidRequest(t) && kernelReply.Some? && Complete(kernelReply.value)
                      && kernelReply.value.compiled.value && kernelReply.value.correctness.value;
      var hit := Hit(hash, cache, t).Some?;
      var timed := referenceReply.Some? && !(referenceReply.value.errorMessage.Some? && referenceReply.value.referenceRuntime.None?);
      var whole := timed && referenceReply.value.taskId.Some? && referenceReply.value.baseId.Some?
                   && referenceReply.value.referenceRuntime.Some? && referenceReply.value.hasMetadata;
      && (outcome == TypeError <==> compared && !hit && timed && !whole)
      && (outcome == ValueError <==>
            && compared && (hit || whole)
            && kernelReply.value.baseId != (if hit then Some(t.id) else referenceReply.value.baseId))
  {
  }

  // ---- kernels a worker has run ----

  /** The first text that says anything. */
  function FirstText(a: string, b: string, c: string): string { if a != "" then a else if b != "" then b else c }

  /** What a kernel that did not get as far as a comparison is blamed for. */
  predicate Blames(e: Evaluation, exec: Exec) {
    if !exec.compiled then
      var detail := FirstText(exec.compilationError, exec.error, exec.validationError);
      && e.status == "failed" && e.errorCode == Some("COMPILATION_ERROR")
      && e.errorMessage == Some(if detail == "" then "Kernel compilation failed" else "Kernel compilation failed: " + detail)
    else
      var detail := FirstText(exec.runtimeError, exec.error, "");
      && e.status == "completed"
      && e.errorCode == Some(if detail == "" then "CORRECTNESS_ERROR" else "RUNTIME_ERROR")
      && e.errorMessage == Some(if detail == "" then "Kernel produced incorrect results" else "Kernel execution failed: " + detail)
  }

  lemma RunReply(t: Request, exec: Exec, classify: string -> string)
    ensures var reply := KernelReply(t, ByWorker(true, true, Works(KernelRan(exec))), classify);
      && reply.Some? && Complete(reply.value) && reply.value.baseId == Some(t.id)
      && reply.value.compiled == Some(exec.compiled) && reply.value.correctness == Some(exec.correctness)
      && reply.value.decoy == Some(exec.decoy) && reply.value.kernelRuntime == Some(exec.runtime)
  {
  }

  /** From running a kernel to the evaluation: the flags and the runtime are those of the run, for this
      request, and a kernel that is not compared is blamed for the first thing that went wrong. */
  lemma RunIsReported(hash: string -> int, cache: Option<Store>, t: Request, exec: Exec, referenceReply: Option<Reply>, classify: string -> string)
    requires ValidRequest(t)
    ensures var reply := KernelReply(t, ByWorker(true, true, Works(KernelRan(exec))), classify);
      var h := Handle(hash, cache, t, reply, referenceReply);
      && (!(exec.compiled && exec.correctness) ==> h.outcome.Answered? && !h.referenceAsked && Blames(h.outcome.result, exec))
      && (h.outcome.Answered? ==>
            var e := h.outcome.result;
            && e.taskId == t.id && e.compiled == exec.compiled && e.correctness == exec.correctness
            && e.decoy == exec.decoy && e.kernelRuntime == exec.runtime)
  {
    RunReply(t, exec, classify);
    var reply := KernelReply(t, ByWorker(true, true, Works(KernelRan(exec))), classify);
    if Handle(hash, cache, t, reply, referenceReply).outcome.Answered? {
      AnswersSay(hash, cache, t, reply, referenceReply);
    }
  }

  /** Why a task is answered without its toolkit's result, if it is. */
  function Obstacle<Work>(run: Run<Work>): Option<string>
    requires run.ByWorker?
  {
    if !run.hasToolkit then Some("Task payload missing required 'toolkit'")
    else if !run.hasAdapter then Some("Task payload missing required 'backend_adapter'")
    else match run.pool
      case Raises(m) => Some(m)
      case Refuses(e, m) => Some(e + ": " + m)
      case Works(_) => None
  }

  /** The reply of a kernel task that did not come to a run of the kernel. */
  predicate FailedWith(r: Reply, t: Request, runtime: real, message: string, code: string) {
    && Complete(r) && r.baseId == Some(t.id) && r.compiled == Some(false) && r.correctness == Some(false)
    && r.decoy == Some(false) && r.kernelRuntime == Some(runtime)
    && r.status == Some("failed") && r.errorMessage == Some(Some(message)) && r.errorCode == Some(Some(code))
  }

  lemma ObstacleReply(t: Request, run: Run<KernelWork>, classify: string -> string)
    requires run.ByWorker? && Obstacle(run).Some?
    ensures var reply := KernelReply(t, run, classify);
      reply.Some? && FailedWith(reply.value, t, -1.0, "Task processing failed: " + Obstacle(run).value, classify(Obstacle(run).value))
  {
  }

  lemma RefusalReply(t: Request, run: Run<KernelWork>, classify: string -> string)
    requires run.ByWorker? && Obstacle(run).None? && !run.pool.work.KernelRan?
    ensures var reply := KernelReply(t, run, classify);
      && reply.Some?
      && match run.pool.work
         case RefusedKernel(m) => FailedWith(reply.value, t, 0.0, if m == "" then "Task failed" else m, "VALIDATION_ERROR")
         case KernelThrew(m) => FailedWith(reply.value, t, 0.0, "Kernel evaluation failed: " + m, classify(m))
         case KernelRan(_) => true
  {
  }

  lemma FailedIsRepeated(hash: string -> int, cache: Option<Store>, t: Request, reply: Reply, referenceReply: Option<Reply>)
    requires ValidRequest(t) && Complete(reply) && reply.compiled == Some(false)
    ensures var h := Handle(hash, cache, t, Some(reply), referenceReply);
      h.outcome.Answered? && !h.referenceAsked && SaysOfKernel(h.outcome.result, reply) && Repeats(h.outcome.result, t, reply)
  {
  }

  /** From a kernel task that did not come to a run of the kernel to the evaluation: it failed, in the words
      and with the code of what was in the way, and no reference is asked for. */
  lemma FailureIsReported(hash: string -> int, cache: Option<Store>, t: Request, run: Run<KernelWork>,
                          referenceReply: Option<Reply>, classify: string -> string)
    requires ValidRequest(t) && run.ByWorker? && (Obstacle(run).None? ==> !run.pool.work.KernelRan?)
    ensures var h := Handle(hash, cache, t, KernelReply(t, run, classify), referenceReply);
      && h.outcome.Answered? && !h.referenceAsked
      && var e := h.outcome.result;
         && e.taskId == t.id && !e.compiled && !e.correctness && !e.decoy && e.speedup == 0.0 && e.status == "failed"
         && e.referenceRuntime == -1.0 && e.kernelRuntime == (if Obstacle(run).Some? then -1.0 else 0.0)
         && (Obstacle(run).Some? ==> && e.errorMessage == Some("Task processing failed: " + Obstacle(run).value)
                                     && e.errorCode == Some(classify(Obstacle(run).value)))
         && (Obstacle(run).None? ==>
               match run.pool.work
               case RefusedKernel(m) => e.errorMessage == Some(if m == "" then "Task failed" else m)
                                        && e.errorCode == Some("VALIDATION_ERROR")
               case KernelThrew(m) => e.errorMessage == Some("Kernel evaluation failed: " + m) && e.errorCode == Some(classify(m))
               case KernelRan(_) => true)
  {
    if Obstacle(run).Some? { ObstacleReply(t, run, classify); } else { RefusalReply(t, run, classify); }
    FailedIsRepeated(hash, cache, t, KernelReply(t, run, classify).value, referenceReply);
  }

  /** x is the middle one: two of the three are no greater, and two no less. */
  predicate IsMiddle(x: real, a: real, b: real, c: real) {
    (a <= x == b <= c) || (a <= x == c <= b) || (b <= x == a <= c) || (b <= x == c <= a) || (c <= x == a <= b) || (c <= x == b <= a)
  }

  /** What a worker answers for a reference: the middle one of its three timings, or what went wrong. */
  lemma ReferenceAnswers(t: Request, run: Run<ReferenceWork>, classify: string -> string)
    requires run.ByWorker?
    ensures var reply := ReferenceReply(t, run, classify);
      && reply.Some? && reply.value.taskId == Some(t.id + "_ref") && reply.value.baseId == Some(t.id)
      && reply.value.referenceRuntime.Some?
      && var (runtime, message, code) := (reply.value.referenceRuntime.value, MessageIn(reply.value), CodeIn(reply.value));
         match Obstacle(run)
         case Some(text) => StatusIn(reply.value) == "failed" && runtime == -1.0
                            && message == Some("Task processing failed: " + text) && code == Some(classify(text))
         case None =>
           match run.pool.work
           case RefusedReference(m) => StatusIn(reply.value) == "failed" && runtime == 0.0
                                       && message == Some("Reference code validation failed: " + m) && code == Some("VALIDATION_ERROR")
           case ReferenceThrew(m) => StatusIn(reply.value) == "failed" && runtime == 0.0
                                     && message == Some("Reference timing failed: " + m) && code == Some(classify(m))
           case Timed(a, b, c) => StatusIn(reply.value) == "completed" && IsMiddle(runtime, a, b, c)
  {
  }
}
