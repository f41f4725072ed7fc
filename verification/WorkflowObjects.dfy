/**
 The reference cache and the workflow controller as objects. What the scheduler answers for the two
 subtasks is a parameter; the request is handled without interruption.
 */
module WorkflowObjects {
  import opened Common
  import opened Replies
  import opened Workflow

  class InMemoryReferenceCache {
    const hash: string -> int
    var store: Store

    constructor (hash: string -> int)
      ensures store == map[] && this.hash == hash
    {
      this.hash, store := hash, map[];
    }

    method Get(uuid: Option<string>, code: string, isValid: bool) returns (runtime: Option<real>)
      ensures runtime == Cached(hash, Some(store), uuid, code, isValid)
    {
      if uuid.None? || uuid.value == "" { return None; }
      var key := (uuid.value, hash(code), isValid);
      if key in store { return Some(store[key]); }
      return None;
    }

    method Put(uuid: Option<string>, code: string, isValid: bool, runtime: real)
      modifies this
      ensures Some(store) == Workflow.Put(hash, Some(old(store)), uuid, code, isValid, runtime)
    {
      if uuid.None? || uuid.value == "" { return; }
      store := store[(uuid.value, hash(code), isValid) := runtime];
    }
  }

  class KernelBenchWorkflowController {
    const cache: InMemoryReferenceCache

    constructor (cache: InMemoryReferenceCache)
      ensures this.cache == cache
    {
      this.cache := cache;
    }

    /** `_validate_inputs`: the errors in the order they are found. */
    method ValidateInputs(t: Request) returns (errors: seq<string>)
      ensures errors == [] <==> ValidRequest(t)
      ensures errors != [] ==> errors[0] == FirstError(t)
    {
      errors := [];
      if t.gpus.Count? && t.gpus.n < 1 { errors := errors + ["resources.gpus must be >= 1"]; }
      if t.gpus.NotAnInteger? { errors := errors + ["resources.gpus must be an integer"]; }
      if t.useCache && !HasUuid(t.uuid) { errors := errors + ["UUID is required when use_reference_cache is True"]; }
      if !CodeOk(t.referenceCode, t.entryPoint) {
        errors := errors + ["Reference code validation failed: " + CodeError(t.referenceCode, t.entryPoint)];
      }
      if !CodeOk(t.kernelCode, t.entryPoint + "New") {
        errors := errors + ["Kernel code validation failed: " + CodeError(t.kernelCode, t.entryPoint + "New")];
      }
    }

    method HandleRequest(t: Request, kernelReply: Option<Reply>, referenceReply: Option<Reply>)
      returns (outcome: Outcome, kernelAsked: bool, referenceAsked: bool)
      modifies cache
      ensures var h := Handle(cache.hash, Some(old(cache.store)), t, kernelReply, referenceReply);
        && outcome == h.outcome && Some(cache.store) == h.cache
        && kernelAsked == h.kernelAsked && referenceAsked == h.referenceAsked
    {
      kernelAsked, referenceAsked := false, false;
      var errors := ValidateInputs(t);
      if errors != [] {
        return Answered(FailedResult(t.id, Some(errors[0]), Some("VALIDATION_ERROR"))), false, false;
      }
      var needsReference := true;
      if t.useCache && HasUuid(t.uuid) {
        var known := cache.Get(t.uuid, t.referenceCode, t.isValid);
        needsReference := known.None?;
      }
      kernelAsked := true;
      if kernelReply.None? {
        return Answered(FailedResult(t.id, Some("kernel result missing"), None)), true, false;
      }
      var r := kernelReply.value;
      if r.errorMessage.Some? && r.compiled.None? {
        return Answered(FailedResult(t.id, r.errorMessage.value, None)), true, false;
      }
      if !HasKernelFields(r) {
        return Answered(FailedResult(t.id, Some("kernel result missing required fields"), None)), true, false;
      }
      var k := KernelOf(r);
      if !(k.compiled && k.correctness) { return Answered(KernelOnly(t, k)), true, false; }
      var ref: Option<Reference> := None;
      if !needsReference {
        var runtime := cache.Get(t.uuid, t.referenceCode, t.isValid);
        if runtime.Some? { ref := Some(CachedReference(t, runtime.value)); } else { needsReference := true; }
      }
      if ref.None? && needsReference {
        referenceAsked := true;
        if referenceReply.Some? {
          var rr := referenceReply.value;
          if rr.errorMessage.Some? && rr.referenceRuntime.None? { return Answered(KernelOnly(t, k)), true, true; }
          if !HasReferenceFields(rr) { return TypeError, true, true; }
          ref := Some(ReferenceOf(rr));
          if t.useCache { cache.Put(t.uuid, t.referenceCode, t.isValid, ref.value.runtime); }
        }
      }
      if ref.None? { return Answered(KernelOnly(t, k)), true, referenceAsked; }
      outcome := CombineOrRaise(ref.value, k);
    }
  }
}
