/** What the evaluation workflow promises about speedups and about the reference denominator. */
module WorkflowResults {
  import opened Common
  import opened Replies
  import opened Workflow
  import opened GpuWorker

  // ---- failed is never slow ----

  /** How the kernel half of a request can end on the way back to the workflow: answered by a
      worker, failed outright (only an error is stored), or not at all. */
  datatype Run<Work> = ByWorker(hasToolkit: bool, hasAdapter: bool, pool: PoolCall<Work>) | OnlyError(message: string) | Silent

  datatype PoolCall<Work> = Raises(message: string) | Refuses(errorType: string, message: string) | Works(work: Work)

  function Half(t: Request, isReference: bool): HalfTask {
    HalfTask(t.id + if isReference then "_ref" else "_kernel", t.id, isReference)
  }

  function KernelReply(t: Request, run: Run<KernelWork>, classify: string -> string): Option<Reply> {
    match run
    case Silent => None
    case OnlyError(message) => Some(EMPTY_REPLY.(errorMessage := Some(Some(message)), errorCode := Some(Some("SYSTEM_ERROR"))))
    case ByWorker(hasToolkit, hasAdapter, pool) =>
      Some(Answer(TaskData(Half(t, false).id, Some(t.id), "kernel_evaluation", hasToolkit, hasAdapter),
                  match pool
                  case Raises(m) => PoolRaised(m)
                  case Refuses(e, m) => NotSuccessful(e, m)
                  case Works(w) => Ran(KernelToolkit(Half(t, false), w, classify)),
                  classify))
  }

  function ReferenceReply(t: Request, run: Run<ReferenceWork>, classify: string -> string): Option<Reply> {
    match run
    case Silent => None
    case OnlyError(message) => Some(EMPTY_REPLY.(errorMessage := Some(Some(message)), errorCode := Some(Some("SYSTEM_ERROR"))))
    case ByWorker(hasToolkit, hasAdapter, pool) =>
      Some(Answer(TaskData(Half(t, true).id, Some(t.id), "reference_timing", hasToolkit, hasAdapter),
                  match pool
                  case Raises(m) => PoolRaised(m)
                  case Refuses(e, m) => NotSuccessful(e, m)
                  case Works(w) => Ran(ReferenceToolkit(Half(t, true), w, classify)),
                  classify))
  }

  /** A worker's kernel reply has every field, belongs to the request, and completed iff it compiled. */
  lemma WorkerKernel(t: Request, run: Run<KernelWork>, classify: string -> string)
    requires run.ByWorker?
    ensures var r := KernelReply(t, run, classify);
      && r.Some? && HasKernelFields(r.value) && KernelOf(r.value).baseId == t.id
      && (KernelOf(r.value).status == COMPLETED <==> KernelOf(r.value).compiled)
  {
  }

  /** A worker's reference reply has every field, belongs to the request, and, unless completed,
      carries no positive runtime. */
  lemma WorkerReference(t: Request, run: Run<ReferenceWork>, classify: string -> string)
    requires run.ByWorker?
    ensures var r := ReferenceReply(t, run, classify);
      && r.Some? && HasReferenceFields(r.value) && ReferenceOf(r.value).baseId == t.id
      && (ReferenceOf(r.value).status == COMPLETED || ReferenceOf(r.value).runtime <= 0.0)
  {
  }

  predicate TrueSpeedup(e: Evaluation) {
    && e.status == COMPLETED && e.compiled && e.correctness
    && e.kernelRuntime > 0.0 && e.referenceRuntime > 0.0
    && e.speedup * e.kernelRuntime == e.referenceRuntime
  }

  lemma Ratio(x: real, y: real)
    requires y > 0.0
    ensures (x / y) * y == x
  {
  }

  /** Where the runtime the kernel is compared with comes from. */
  function ReferenceFor(hash: string -> int, cache: Option<Store>, t: Request, reply: Option<Reply>): Option<Reference> {
    match Hit(hash, cache, t)
    case Some(runtime) => Some(CachedReference(t, runtime))
    case None => if reply.Some? && HasReferenceFields(reply.value) then Some(ReferenceOf(reply.value)) else None
  }

  lemma CombinedFrom(hash: string -> int, cache: Option<Store>, t: Request, kernelReply: Option<Reply>, referenceReply: Option<Reply>)
    ensures var h := Handle(hash, cache, t, kernelReply, referenceReply);
      && (h.combined ==>
            && KernelStage(t, kernelReply).Ready? && ReferenceFor(hash, cache, t, referenceReply).Some?
            && h.outcome == CombineOrRaise(ReferenceFor(hash, cache, t, referenceReply).value, KernelStage(t, kernelReply).kernel))
      && (!h.combined && h.outcome.Answered? ==> h.outcome.result.speedup == 0.0)
  {
  }

  lemma CombineMeans(ref: Reference, k: Kernel)
    ensures var e := Combine(ref, k);
      && (e.speedup != 0.0 ==> k.correctness && k.runtime > 0.0 && ref.runtime > 0.0 && e.speedup * k.runtime == ref.runtime)
      && (k.correctness && k.runtime > 0.0 && ref.runtime > 0.0 ==> e.speedup != 0.0)
      && (e.status == COMPLETED <==> ref.status == COMPLETED && k.status == COMPLETED)
      && (e.status == FAILED <==> e.status != COMPLETED)
  {
    if k.runtime > 0.0 { Ratio(ref.runtime, k.runtime); }
  }

  /** For any replies at all: a non-zero speedup is the true ratio for a compiled and correct kernel
      with both runtimes positive, and it is reported as completed exactly when the kernel reply and
      the reference it was compared with both say so. */
  lemma SpeedupExactly(hash: string -> int, cache: Option<Store>, t: Request, kernelReply: Option<Reply>, referenceReply: Option<Reply>)
    requires var h := Handle(hash, cache, t, kernelReply, referenceReply);
      h.outcome.Answered? && h.outcome.result.speedup != 0.0
    ensures var e := Handle(hash, cache, t, kernelReply, referenceReply).outcome.result;
      && e.compiled && e.correctness && e.kernelRuntime > 0.0 && e.referenceRuntime > 0.0
      && e.speedup * e.kernelRuntime == e.referenceRuntime
      && KernelStage(t, kernelReply).Ready? && ReferenceFor(hash, cache, t, referenceReply).Some?
      && (e.status == COMPLETED <==>
            && KernelStage(t, kernelReply).kernel.status == COMPLETED
            && ReferenceFor(hash, cache, t, referenceReply).value.status == COMPLETED)
  {
    CombinedFrom(hash, cache, t, kernelReply, referenceReply);
    CombineMeans(ReferenceFor(hash, cache, t, referenceReply).value, KernelStage(t, kernelReply).kernel);
  }

  /** A reply no worker builds: a failed reference with a positive runtime makes a failed evaluation
      that reports a speedup. */
  lemma FailedWithSpeedup(hash: string -> int, t: Request, exec: Exec)
    requires ValidRequest(t) && exec.compiled && exec.correctness && exec.runtime > 0.0
    ensures var h := Handle(hash, None, t, Some(KernelDict(Half(t, false), exec)),
                            Some(FailedReferenceDict(Half(t, true), 1.0, "lost", "RUNTIME_ERROR")));
      h.outcome.Answered? && h.outcome.result.status == FAILED && h.outcome.result.speedup != 0.0
  {
    CombineMeans(ReferenceOf(FailedReferenceDict(Half(t, true), 1.0, "lost", "RUNTIME_ERROR")),
                 KernelOf(KernelDict(Half(t, false), exec)));
  }

  lemma WorkerKernelStage(t: Request, run: Run<KernelWork>, classify: string -> string)
    ensures var stage := KernelStage(t, KernelReply(t, run, classify));
      && (stage.Ready? ==> stage.kernel.baseId == t.id && stage.kernel.status == COMPLETED)
      && (stage.Final? ==> stage.result.status in {COMPLETED, FAILED} && stage.result.speedup == 0.0)
  {
    if run.ByWorker? { WorkerKernel(t, run, classify); }
  }

  /** Whatever happens to its two subtasks, a request answered by workers never raises, and reports a
      non-zero speedup only for a completed, compiled, correct kernel with both runtimes positive. */
  lemma FailedIsNeverSlow(hash: string -> int, cache: Option<Store>, t: Request,
                          kernelRun: Run<KernelWork>, referenceRun: Run<ReferenceWork>, classify: string -> string)
    ensures var h := Handle(hash, cache, t, KernelReply(t, kernelRun, classify), ReferenceReply(t, referenceRun, classify));
      && h.outcome.Answered?
      && (h.outcome.result.speedup != 0.0 ==> TrueSpeedup(h.outcome.result))
      && h.outcome.result.status in {COMPLETED, FAILED}
  {
    var kr, rr := KernelReply(t, kernelRun, classify), ReferenceReply(t, referenceRun, classify);
    WorkerKernelStage(t, kernelRun, classify);
    WorkerReferenceFor(hash, cache, t, referenceRun, classify);
    HandledByWorkers(hash, cache, t, kr, rr);
  }

  lemma WorkerReferenceFor(hash: string -> int, cache: Option<Store>, t: Request, run: Run<ReferenceWork>, classify: string -> string)
    ensures ReferenceUsable(hash, cache, t, ReferenceReply(t, run, classify))
  {
    if run.ByWorker? { WorkerReference(t, run, classify); }
  }

  /** The reference replies workers send: usable, or plainly an error, or none. */
  predicate ReferenceUsable(hash: string -> int, cache: Option<Store>, t: Request, reply: Option<Reply>) {
    && (reply.Some? && !(reply.value.errorMessage.Some? && reply.value.referenceRuntime.None?) ==> HasReferenceFields(reply.value))
    && var ref := ReferenceFor(hash, cache, t, reply);
       ref.Some? ==> ref.value.baseId == t.id && (ref.value.status == COMPLETED || ref.value.runtime <= 0.0)
  }

  lemma HandledByWorkers(hash: string -> int, cache: Option<Store>, t: Request, kr: Option<Reply>, rr: Option<Reply>)
    requires var stage := KernelStage(t, kr);
      && (stage.Ready? ==> stage.kernel.baseId == t.id && stage.kernel.status == COMPLETED)
      && (stage.Final? ==> stage.result.status in {COMPLETED, FAILED})
    requires ReferenceUsable(hash, cache, t, rr)
    ensures var h := Handle(hash, cache, t, kr, rr);
      && h.outcome.Answered?
      && (h.outcome.result.speedup != 0.0 ==> TrueSpeedup(h.outcome.result))
      && h.outcome.result.status in {COMPLETED, FAILED}
  {
    var h := Handle(hash, cache, t, kr, rr);
    CombinedFrom(hash, cache, t, kr, rr);
    if h.combined {
      CombineMeans(ReferenceFor(hash, cache, t, rr).value, KernelStage(t, kr).kernel);
    }
  }

  // ---- the fixed denominator ----

  datatype Visit = Visit(t: Request, kernelReply: Option<Reply>, referenceReply: Option<Reply>)

  predicate CacheEnabled(t: Request) { t.useCache && HasUuid(t.uuid) }

  predicate SameDenominator(t: Request, u: Request) {
    CacheEnabled(t) && CacheEnabled(u) && t.uuid == u.uuid && t.referenceCode == u.referenceCode && t.isValid == u.isValid
  }

  /** The runtime a cache-enabled request would time if it found none cached. */
  function WouldTime(v: Visit): Option<real> {
    if CacheEnabled(v.t) && KernelStage(v.t, v.kernelReply).Ready? && v.referenceReply.Some?
       && HasReferenceFields(v.referenceReply.value)
    then v.referenceReply.value.referenceRuntime
    else None
  }

  /** The first runtime timed for the request's problem, reference and validation state. */
  function FirstTimed(visits: seq<Visit>, t: Request): Option<real> {
    if visits == [] then None
    else if SameDenominator(visits[0].t, t) && WouldTime(visits[0]).Some? then WouldTime(visits[0])
    else FirstTimed(visits[1..], t)
  }

  /** One request after another against the same cache. */
  function Serve(hash: string -> int, cache: Option<Store>, visits: seq<Visit>): Option<Store>
    decreases |visits|
  {
    if visits == [] then cache
    else Serve(hash, Handle(hash, cache, visits[0].t, visits[0].kernelReply, visits[0].referenceReply).cache, visits[1..])
  }

  function HandledAt(hash: string -> int, cache: Option<Store>, visits: seq<Visit>, i: nat): Handled
    requires i < |visits|
  {
    Handle(hash, Serve(hash, cache, visits[..i]), visits[i].t, visits[i].kernelReply, visits[i].referenceReply)
  }

  ghost predicate Injective(hash: string -> int) { forall a, b :: hash(a) == hash(b) ==> a == b }

  /** One request changes what is cached for t only by filling it, with what it timed. */
  lemma HandleCaches(hash: string -> int, cache: Option<Store>, v: Visit, t: Request)
    requires Injective(hash) && cache.Some? && CacheEnabled(t)
    ensures var after := Handle(hash, cache, v.t, v.kernelReply, v.referenceReply).cache;
      && after.Some?
      && Hit(hash, after, t) ==
           if Hit(hash, cache, t).Some? then Hit(hash, cache, t)
           else if SameDenominator(v.t, t) then WouldTime(v) else None
  {
    var after := Handle(hash, cache, v.t, v.kernelReply, v.referenceReply).cache;
    if KernelStage(v.t, v.kernelReply).Ready? && Hit(hash, cache, v.t).None? {
      TimedCaches(hash, cache, v);
      if WouldTime(v).Some? {
        assert KeyOf(hash, v.t.uuid.value, v.t.referenceCode, v.t.isValid) == KeyOf(hash, t.uuid.value, t.referenceCode, t.isValid)
               <==> SameDenominator(v.t, t);
      }
    }
  }

  lemma TimedCaches(hash: string -> int, cache: Option<Store>, v: Visit)
    requires cache.Some? && KernelStage(v.t, v.kernelReply).Ready? && Hit(hash, cache, v.t).None?
    ensures Handle(hash, cache, v.t, v.kernelReply, v.referenceReply).cache ==
            if WouldTime(v).Some?
            then Put(hash, cache, v.t.uuid, v.t.referenceCode, v.t.isValid, WouldTime(v).value)
            else cache
  {
  }

  /** The cache is write-once per (uuid, reference, validation state): after any sequential run it holds
      the runtime of the first request that timed that reference, and nothing it was not given. */
  lemma {:induction false} CacheIsWriteOnce(hash: string -> int, cache: Option<Store>, visits: seq<Visit>, t: Request)
    requires Injective(hash) && cache.Some? && CacheEnabled(t)
    ensures Serve(hash, cache, visits).Some?
    ensures Hit(hash, Serve(hash, cache, visits), t) ==
            if Hit(hash, cache, t).Some? then Hit(hash, cache, t) else FirstTimed(visits, t)
    decreases |visits|
  {
    if visits != [] {
      HandleCaches(hash, cache, visits[0], t);
      CacheIsWriteOnce(hash, Handle(hash, cache, visits[0].t, visits[0].kernelReply, visits[0].referenceReply).cache, visits[1..], t);
    }
  }

  lemma {:induction false} FirstTimedPrefix(visits: seq<Visit>, n: nat, t: Request)
    requires n < |visits|
    ensures FirstTimed(visits[..n + 1], t) ==
            if FirstTimed(visits[..n], t).Some? then FirstTimed(visits[..n], t)
            else if SameDenominator(visits[n].t, t) then WouldTime(visits[n]) else None
    decreases n
  {
    if n == 0 {
      assert visits[..1] == [visits[0]] && visits[..1][1..] == [];
    } else {
      assert visits[..n + 1][1..] == visits[1..][..n] && visits[..n][1..] == visits[1..][..n - 1];
      assert visits[..n + 1][0] == visits[0] && visits[..n][0] == visits[0];
      FirstTimedPrefix(visits[1..], n - 1, t);
    }
  }

  /** Every cache-enabled request that reaches combination reports the runtime first timed for its
      problem, reference and validation state. */
  lemma ReportsFirstTimed(hash: string -> int, visits: seq<Visit>, i: nat)
    requires Injective(hash) && i < |visits| && CacheEnabled(visits[i].t)
    requires HandledAt(hash, Some(map[]), visits, i).combined && HandledAt(hash, Some(map[]), visits, i).outcome.Answered?
    ensures FirstTimed(visits[..i + 1], visits[i].t) ==
            Some(HandledAt(hash, Some(map[]), visits, i).outcome.result.referenceRuntime)
  {
    var cache := Serve(hash, Some(map[]), visits[..i]);
    CacheIsWriteOnce(hash, Some(map[]), visits[..i], visits[i].t);
    CombinedFrom(hash, cache, visits[i].t, visits[i].kernelReply, visits[i].referenceReply);
    FirstTimedPrefix(visits, i, visits[i].t);
  }

  lemma {:induction false} FirstTimedGrows(visits: seq<Visit>, i: nat, j: nat, t: Request)
    requires i <= j <= |visits| && FirstTimed(visits[..i], t).Some?
    ensures FirstTimed(visits[..j], t) == FirstTimed(visits[..i], t)
    decreases j - i
  {
    if i < j {
      FirstTimedPrefix(visits, j - 1, t);
      FirstTimedGrows(visits, i, j - 1, t);
    }
  }

  lemma {:induction false} SameFirstTimed(visits: seq<Visit>, t: Request, u: Request)
    requires SameDenominator(t, u)
    ensures FirstTimed(visits, t) == FirstTimed(visits, u)
  {
    if visits != [] { SameFirstTimed(visits[1..], t, u); }
  }

  /** The denominator is fixed: over any sequential run from an empty cache, all cache-enabled requests
      with the same uuid, reference and validation state that reach combination report the same
      reference runtime. */
  lemma DenominatorIsFixed(hash: string -> int, visits: seq<Visit>, i: nat, j: nat)
    requires Injective(hash) && i < j < |visits| && SameDenominator(visits[i].t, visits[j].t)
    requires HandledAt(hash, Some(map[]), visits, i).combined && HandledAt(hash, Some(map[]), visits, i).outcome.Answered?
    requires HandledAt(hash, Some(map[]), visits, j).combined && HandledAt(hash, Some(map[]), visits, j).outcome.Answered?
    ensures HandledAt(hash, Some(map[]), visits, i).outcome.result.referenceRuntime
            == HandledAt(hash, Some(map[]), visits, j).outcome.result.referenceRuntime
  {
    ReportsFirstTimed(hash, visits, i);
    ReportsFirstTimed(hash, visits, j);
    FirstTimedGrows(visits, i + 1, j + 1, visits[i].t);
    SameFirstTimed(visits[..j + 1], visits[i].t, visits[j].t);
  }

  // ---- which run the cached denominator comes from ----

  predicate Times(v: Visit, t: Request) { SameDenominator(v.t, t) && WouldTime(v).Some? }

  /** The reference reply of a visit that would time says it completed. */
  predicate TimesCompleted(v: Visit, t: Request) {
    Times(v, t) && ReferenceOf(v.referenceReply.value).status == COMPLETED
  }

  predicate TimesFirst(visits: seq<Visit>, t: Request, i: nat) {
    i < |visits| && Times(visits[i], t) && forall j :: 0 <= j < i ==> !Times(visits[j], t)
  }

  predicate CompletesFirst(visits: seq<Visit>, t: Request, i: nat) {
    i < |visits| && TimesCompleted(visits[i], t) && forall j :: 0 <= j < i ==> !TimesCompleted(visits[j], t)
  }

  /** Request i is the one that put something into an empty cache for t. */
  predicate Fills(hash: string -> int, visits: seq<Visit>, t: Request, i: nat) {
    && i < |visits|
    && Hit(hash, Serve(hash, Some(map[]), visits[..i]), t).None?
    && Hit(hash, Serve(hash, Some(map[]), visits[..i + 1]), t).Some?
  }

  lemma {:induction false} NobodyTimed(visits: seq<Visit>, t: Request)
    ensures FirstTimed(visits, t).None? <==> forall j :: 0 <= j < |visits| ==> !Times(visits[j], t)
    decreases |visits|
  {
    if visits != [] {
      NobodyTimed(visits[1..], t);
      assert forall j :: 0 < j < |visits| ==> visits[1..][j - 1] == visits[j];
    }
  }

  /** The cache is filled by the first request that times the reference, and by no other. */
  lemma FillsIsFirstTimer(hash: string -> int, visits: seq<Visit>, t: Request, i: nat)
    requires Injective(hash) && CacheEnabled(t)
    ensures Fills(hash, visits, t, i) <==> TimesFirst(visits, t, i)
  {
    if i < |visits| {
      CacheIsWriteOnce(hash, Some(map[]), visits[..i], t);
      CacheIsWriteOnce(hash, Some(map[]), visits[..i + 1], t);
      FirstTimedPrefix(visits, i, t);
      NobodyTimed(visits[..i], t);
      assert forall j :: 0 <= j < i ==> visits[..i][j] == visits[j];
    }
  }

  lemma {:induction false} SomebodyTimesFirst(visits: seq<Visit>, t: Request, i: nat) returns (j: nat)
    requires i < |visits| && Times(visits[i], t)
    ensures j <= i && TimesFirst(visits, t, j)
    decreases i
  {
    j := i;
    if !TimesFirst(visits, t, i) {
      var k :| 0 <= k < i && Times(visits[k], t);
      j := SomebodyTimesFirst(visits, t, k);
    }
  }

  /** The cached denominator of a problem comes from a completed run exactly when the first request
      that timed the reference got a completed reply. */
  lemma CachedFromCompletedExactly(hash: string -> int, visits: seq<Visit>, t: Request)
    requires Injective(hash) && CacheEnabled(t)
    ensures (exists i: nat :: Fills(hash, visits, t, i) && TimesCompleted(visits[i], t))
            <==> exists i: nat :: TimesFirst(visits, t, i) && TimesCompleted(visits[i], t)
  {
    forall i: nat ensures Fills(hash, visits, t, i) <==> TimesFirst(visits, t, i) {
      FillsIsFirstTimer(hash, visits, t, i);
    }
  }

  /** "The first completed run is written to the cache" holds of a run of requests exactly when no
      request that timed the reference first got a failed reply. */
  lemma WritesFirstCompletedExactly(hash: string -> int, visits: seq<Visit>, t: Request)
    requires Injective(hash) && CacheEnabled(t)
    ensures (forall i: nat :: Fills(hash, visits, t, i) <==> CompletesFirst(visits, t, i))
            <==> forall i: nat :: TimesFirst(visits, t, i) ==> TimesCompleted(visits[i], t)
  {
    forall i: nat ensures Fills(hash, visits, t, i) <==> TimesFirst(visits, t, i) {
      FillsIsFirstTimer(hash, visits, t, i);
    }
    if forall i: nat :: TimesFirst(visits, t, i) ==> TimesCompleted(visits[i], t) {
      forall i: nat ensures Fills(hash, visits, t, i) <==> CompletesFirst(visits, t, i) {
        if CompletesFirst(visits, t, i) {
          var j := SomebodyTimesFirst(visits, t, i);
          assert TimesFirst(visits, t, j) && TimesCompleted(visits[j], t);
          assert j == i;
        }
        if TimesFirst(visits, t, i) { assert TimesCompleted(visits[i], t); }
      }
    } else {
      var i: nat :| TimesFirst(visits, t, i) && !TimesCompleted(visits[i], t);
      assert Fills(hash, visits, t, i) && !CompletesFirst(visits, t, i);
    }
  }

  /** What the first run decides for good: a kernel compared under the cache gets a non-zero speedup
      exactly when it has a positive runtime and the runtime first timed is positive; a comparison with
      the cached runtime counts as completed whenever the kernel does, even if that first run failed. */
  lemma FirstRunDecides(hash: string -> int, visits: seq<Visit>, i: nat)
    requires Injective(hash) && i < |visits| && CacheEnabled(visits[i].t)
    requires HandledAt(hash, Some(map[]), visits, i).combined && HandledAt(hash, Some(map[]), visits, i).outcome.Answered?
    ensures var h := HandledAt(hash, Some(map[]), visits, i);
      var e := h.outcome.result;
      var first := FirstTimed(visits[..i + 1], visits[i].t);
      && first.Some? && e.compiled && e.correctness
      && (e.speedup != 0.0 <==> e.kernelRuntime > 0.0 && first.value > 0.0)
      && (!h.referenceAsked ==>
            (e.status == COMPLETED <==> KernelStage(visits[i].t, visits[i].kernelReply).kernel.status == COMPLETED))
  {
    ReportsFirstTimed(hash, visits, i);
    var v := visits[i];
    var cache := Serve(hash, Some(map[]), visits[..i]);
    CombinedFrom(hash, cache, v.t, v.kernelReply, v.referenceReply);
    CombineMeans(ReferenceFor(hash, cache, v.t, v.referenceReply).value, KernelStage(v.t, v.kernelReply).kernel);
  }

  /** A failed reference is cached like any other: the next good kernel for the same problem is not
      compared with a new timing but gets speedup 0, and its evaluation counts as completed. */
  lemma FailedReferenceIsReused(hash: string -> int, v: Visit, message: string, code: string, exec: Exec, other: Option<Reply>)
    requires v.referenceReply == Some(FailedReferenceDict(Half(v.t, true), 0.0, message, code))
    requires CacheEnabled(v.t) && KernelStage(v.t, v.kernelReply).Ready?
    requires exec.compiled && exec.correctness
    ensures var cache := Handle(hash, Some(map[]), v.t, v.kernelReply, v.referenceReply).cache;
      var h := Handle(hash, cache, v.t, Some(KernelDict(Half(v.t, false), exec)), other);
      && !h.referenceAsked && h.outcome.Answered?
      && h.outcome.result.status == COMPLETED && h.outcome.result.speedup == 0.0 && h.outcome.result.referenceRuntime == 0.0
  {
    TimedCaches(hash, Some(map[]), v);
    CombineMeans(CachedReference(v.t, 0.0), KernelOf(KernelDict(Half(v.t, false), exec)));
  }
}
