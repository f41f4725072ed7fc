/**
 `compute_triton_kernel_coverage` of kernelgym/toolkit/kernelbench/profiling.py. Letter case is
 folded for ASCII only.
 */
module Coverage {
  import opened Common

  datatype ProfKernel = ProfKernel(name: string, cuda: real, cpu: real)

  datatype Report = Report(numCustom: nat, numTotal: nat, totalTime: real, customTime: real,
                           notInProfiling: seq<string>, inProfiling: seq<string>)

  function Lower(s: string): string {
    seq(|s|, i requires 0 <= i < |s| => if 'A' <= s[i] <= 'Z' then s[i] - 'A' + 'a' else s[i])
  }

  predicate Matches(captured: string, profiler: string) {
    Lower(captured) == Lower(profiler) || Contains(Lower(profiler), Lower(captured)) || Contains(Lower(captured), Lower(profiler))
  }

  /** Two names match when, letter case aside, one is within the other. */
  lemma MatchesExactly(a: string, b: string)
    ensures Matches(a, b) <==> (exists x, y :: Lower(b) == x + Lower(a) + y) || (exists x, y :: Lower(a) == x + Lower(b) + y)
    ensures Matches(a, b) <==> Matches(b, a)
  {
    ContainsExactly(Lower(a), Lower(b));
    ContainsExactly(Lower(b), Lower(a));
    if Lower(a) == Lower(b) { assert Lower(b) == [] + Lower(a) + []; }
  }

  /** Lowering changes exactly the 26 capitals, each to its small letter. */
  lemma LowerMeans(s: string, i: nat)
    requires i < |s|
    ensures |Lower(s)| == |s|
    ensures s[i] in "ABCDEFGHIJKLMNOPQRSTUVWXYZ" ==> Lower(s)[i] as int == s[i] as int + 32
    ensures s[i] !in "ABCDEFGHIJKLMNOPQRSTUVWXYZ" ==> Lower(s)[i] == s[i]
  {
  }

  /** The first word has no space, and it is the whole name or followed by a space. */
  lemma {:induction false} FirstWordMeans(s: string)
    ensures ' ' !in FirstWord(s)
    ensures FirstWord(s) == s || (FirstWord(s) < s && s[|FirstWord(s)|] == ' ')
  {
    if s != "" && s[0] != ' ' { FirstWordMeans(s[1..]); }
  }

  /** What stands before the first space. */
  function FirstWord(s: string): string {
    if s == "" || s[0] == ' ' then "" else [s[0]] + FirstWord(s[1..])
  }

  function Names(kernels: seq<string>): seq<string> {
    seq(|kernels|, i requires 0 <= i < |kernels| => FirstWord(kernels[i]))
  }

  predicate Captured(names: seq<string>, profiler: string) { exists n :: n in names && Matches(n, profiler) }

  predicate Profiled(name: string, profilers: seq<string>) { exists p :: p in profilers && Matches(name, p) }

  // ---- what the parts are, independently of the loop ----

  /** The profiler kernels that some captured name matches, in order. */
  function MatchedKernels(names: seq<string>, prof: seq<ProfKernel>): seq<ProfKernel> {
    if prof == [] then []
    else
      var k := prof[|prof| - 1];
      MatchedKernels(names, prof[..|prof| - 1]) + (if Captured(names, k.name) then [k] else [])
  }

  function KernelNames(prof: seq<ProfKernel>): seq<string> {
    seq(|prof|, i requires 0 <= i < |prof| => prof[i].name)
  }

  function CudaTime(prof: seq<ProfKernel>): real {
    if prof == [] then 0.0 else CudaTime(prof[..|prof| - 1]) + prof[|prof| - 1].cuda
  }

  function CpuTime(prof: seq<ProfKernel>): real {
    if prof == [] then 0.0 else CpuTime(prof[..|prof| - 1]) + prof[|prof| - 1].cpu
  }

  /** The names no profiler kernel in the list matches, in order. */
  function Unprofiled(names: seq<string>, profilers: seq<string>): seq<string> {
    if names == [] then []
    else
      var n := names[|names| - 1];
      Unprofiled(names[..|names| - 1], profilers) + (if Profiled(n, profilers) then [] else [n])
  }

  lemma CudaSnoc(l: seq<ProfKernel>, k: ProfKernel)
    ensures CudaTime(l + [k]) == CudaTime(l) + k.cuda
  {
    assert (l + [k])[..|l|] == l;
  }

  method ComputeTritonKernelCoverage(kernels: seq<string>, prof: seq<ProfKernel>) returns (r: Report)
    ensures r.inProfiling == KernelNames(MatchedKernels(Names(kernels), prof))
    ensures r.numCustom == |r.inProfiling| && r.numTotal == |prof|
    ensures r.totalTime == CudaTime(prof) + CpuTime(prof)
    ensures r.customTime == CudaTime(MatchedKernels(Names(kernels), prof))
    ensures r.notInProfiling == Unprofiled(Names(kernels), KernelNames(prof))
  {
    var names := Names(kernels);
    var numCustom, totalTime, customTime := 0, 0.0, 0.0;
    var matched: seq<string> := [];
    var i := 0;
    while i < |prof|
      invariant 0 <= i <= |prof|
      invariant matched == KernelNames(MatchedKernels(names, prof[..i])) && numCustom == |matched|
      invariant totalTime == CudaTime(prof[..i]) + CpuTime(prof[..i])
      invariant customTime == CudaTime(MatchedKernels(names, prof[..i]))
    {
      assert prof[..i + 1][..i] == prof[..i];
      ghost var before := MatchedKernels(names, prof[..i]);
      totalTime := totalTime + prof[i].cuda + prof[i].cpu;
      if Captured(names, prof[i].name) {
        CudaSnoc(before, prof[i]);
        assert KernelNames(before + [prof[i]]) == KernelNames(before) + [prof[i].name];
        matched := matched + [prof[i].name];
        numCustom := numCustom + 1;
        customTime := customTime + prof[i].cuda;
      } else {
        assert before + [] == before;
      }
      i := i + 1;
    }
    assert prof[..i] == prof;
    var missing: seq<string> := [];
    var j := 0;
    while j < |names|
      invariant 0 <= j <= |names|
      invariant missing == Unprofiled(names[..j], matched)
    {
      assert names[..j + 1][..j] == names[..j];
      if !Profiled(names[j], matched) { missing := missing + [names[j]]; }
      j := j + 1;
    }
    assert names[..j] == names;
    MatchedSuffice(names, prof, names);
    r := Report(numCustom, |prof|, totalTime, customTime, missing, matched);
  }

  // ---- coverage as a partition ----

  lemma {:induction false} MatchedMembers(names: seq<string>, prof: seq<ProfKernel>, k: ProfKernel)
    ensures k in MatchedKernels(names, prof) <==> k in prof && Captured(names, k.name)
    decreases |prof|
  {
    if prof != [] {
      MatchedMembers(names, prof[..|prof| - 1], k);
      assert prof == prof[..|prof| - 1] + [prof[|prof| - 1]];
    }
  }

  lemma NameOf(prof: seq<ProfKernel>, p: string)
    ensures p in KernelNames(prof) <==> exists k :: k in prof && k.name == p
  {
    if p in KernelNames(prof) {
      var i :| 0 <= i < |prof| && KernelNames(prof)[i] == p;
      assert prof[i] in prof;
    }
    if k :| k in prof && k.name == p {
      var i :| 0 <= i < |prof| && prof[i] == k;
      assert KernelNames(prof)[i] == p;
    }
  }

  /** A captured name that matches any profiler kernel matches one that was itself matched. */
  lemma ProfiledByMatched(names: seq<string>, prof: seq<ProfKernel>, name: string)
    requires name in names
    ensures Profiled(name, KernelNames(MatchedKernels(names, prof))) <==> Profiled(name, KernelNames(prof))
  {
    forall p ensures p in KernelNames(prof) && Matches(name, p) <==>
                     p in KernelNames(MatchedKernels(names, prof)) && Matches(name, p) {
      NameOf(prof, p);
      NameOf(MatchedKernels(names, prof), p);
      forall k ensures k in MatchedKernels(names, prof) <==> k in prof && Captured(names, k.name) {
        MatchedMembers(names, prof, k);
      }
      assert Matches(name, p) ==> Captured(names, p);
    }
  }

  /** Testing names against the matched kernels only gives the same list as testing against all. */
  lemma {:induction false} MatchedSuffice(names: seq<string>, prof: seq<ProfKernel>, some: seq<string>)
    requires forall n :: n in some ==> n in names
    ensures Unprofiled(some, KernelNames(MatchedKernels(names, prof))) == Unprofiled(some, KernelNames(prof))
    decreases |some|
  {
    if some != [] {
      assert some == some[..|some| - 1] + [some[|some| - 1]];
      MatchedSuffice(names, prof, some[..|some| - 1]);
      ProfiledByMatched(names, prof, some[|some| - 1]);
    }
  }

  lemma {:induction false} UnprofiledMembers(names: seq<string>, profilers: seq<string>, n: string)
    ensures n in Unprofiled(names, profilers) <==> n in names && !Profiled(n, profilers)
    decreases |names|
  {
    if names != [] {
      assert names == names[..|names| - 1] + [names[|names| - 1]];
      UnprofiledMembers(names[..|names| - 1], profilers, n);
    }
  }

  lemma {:induction false} MatchedTimes(names: seq<string>, prof: seq<ProfKernel>)
    ensures |MatchedKernels(names, prof)| <= |prof|
    ensures (forall k :: k in prof ==> k.cuda >= 0.0 && k.cpu >= 0.0) ==>
              0.0 <= CudaTime(MatchedKernels(names, prof)) <= CudaTime(prof) && 0.0 <= CpuTime(prof)
    decreases |prof|
  {
    if prof != [] {
      var n := |prof| - 1;
      assert prof == prof[..n] + [prof[n]];
      MatchedTimes(names, prof[..n]);
      var before := MatchedKernels(names, prof[..n]);
      CudaSnoc(before, prof[n]);
      assert before + [] == before;
    }
  }

  /** The report as a whole: a name is listed as missing exactly when no profiler kernel matches it,
      the custom kernels are at most all kernels, and, with non-negative times, their CUDA time is at
      most the total time. */
  method CoverageReport(kernels: seq<string>, prof: seq<ProfKernel>) returns (r: Report)
    ensures forall n :: n in r.notInProfiling <==> n in Names(kernels) && !Profiled(n, KernelNames(prof))
    ensures forall p :: p in r.inProfiling <==> p in KernelNames(prof) && Captured(Names(kernels), p)
    ensures r.numCustom == |r.inProfiling| <= r.numTotal == |prof|
    ensures (forall k :: k in prof ==> k.cuda >= 0.0 && k.cpu >= 0.0) ==> 0.0 <= r.customTime <= r.totalTime
  {
    r := ComputeTritonKernelCoverage(kernels, prof);
    var names := Names(kernels);
    MatchedTimes(names, prof);
    forall n ensures n in r.notInProfiling <==> n in names && !Profiled(n, KernelNames(prof)) {
      UnprofiledMembers(names, KernelNames(prof), n);
    }
    forall p ensures p in r.inProfiling <==> p in KernelNames(prof) && Captured(names, p) {
      NameOf(prof, p);
      NameOf(MatchedKernels(names, prof), p);
      forall k ensures k in MatchedKernels(names, prof) <==> k in prof && Captured(names, k.name) {
        MatchedMembers(names, prof, k);
      }
    }
  }
}
