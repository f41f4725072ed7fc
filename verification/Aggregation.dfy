/**
 The two aggregators of evaluation runs, evals/agg_eval.py and evals/compare_gs_eval.py, from
 parsed (problem, sample, turn) data to their counts.
 */
module Aggregation {
  import opened Common

  datatype Turn = Turn(number: nat, correct: bool, speedup: real)

  /** One sample directory with its parsed turn files, in file order. */
  datatype Sample = Sample(problem: int, sample: int, turns: seq<Turn>)

  const FAST := 1.2

  // ---- what is meant ----

  predicate Hits(t: Turn, x: real) { t.correct && t.speedup >= x }

  /** Some turn of the sample is correct. */
  predicate Solved(s: Sample) { exists t :: t in s.turns && t.correct }

  /** Some turn of the sample is correct at speedup x or more. */
  predicate Reaches(s: Sample, x: real) { exists t :: t in s.turns && Hits(t, x) }

  function Problems(samples: seq<Sample>): set<int> { set s | s in samples :: s.problem }

  function SolvedProblems(samples: seq<Sample>): set<int> { set s | s in samples && Solved(s) :: s.problem }

  function FastProblems(samples: seq<Sample>, x: real): set<int> { set s | s in samples && Reaches(s, x) :: s.problem }

  // ---- the fold over one sample ----

  function BestCorrect(turns: seq<Turn>): bool {
    if turns == [] then false else BestCorrect(turns[..|turns| - 1]) || turns[|turns| - 1].correct
  }

  function BestSpeedup(turns: seq<Turn>): real {
    if turns == [] then 0.0
    else
      var best := BestSpeedup(turns[..|turns| - 1]);
      var t := turns[|turns| - 1];
      if t.correct && t.speedup > best then t.speedup else best
  }

  method FoldTurns(turns: seq<Turn>) returns (correct: bool, speedup: real)
    ensures correct == BestCorrect(turns) && speedup == BestSpeedup(turns)
  {
    correct, speedup := false, 0.0;
    var i := 0;
    while i < |turns|
      invariant 0 <= i <= |turns|
      invariant correct == BestCorrect(turns[..i]) && speedup == BestSpeedup(turns[..i])
    {
      assert turns[..i + 1][..i] == turns[..i];
      if turns[i].correct { correct := true; }
      if turns[i].correct && turns[i].speedup > speedup { speedup := turns[i].speedup; }
      i := i + 1;
    }
    assert turns[..i] == turns;
  }

  lemma SomeTurnSnoc(turns: seq<Turn>, u: Turn, x: real)
    ensures (exists t :: t in turns + [u] && t.correct) <==> (exists t :: t in turns && t.correct) || u.correct
    ensures (exists t :: t in turns + [u] && Hits(t, x)) <==> (exists t :: t in turns && Hits(t, x)) || Hits(u, x)
  {
    assert forall t :: t in turns + [u] <==> t in turns || t == u;
    assert u in turns + [u];
  }

  /** Failed turns never raise the best speedup, and no correct turn is missed: for a positive
      threshold the fold decides exactly whether a correct turn reaches it. */
  lemma {:induction false} FoldDecides(turns: seq<Turn>, x: real)
    requires x > 0.0
    ensures BestCorrect(turns) <==> exists t :: t in turns && t.correct
    ensures BestCorrect(turns) && BestSpeedup(turns) >= x <==> exists t :: t in turns && Hits(t, x)
    ensures !BestCorrect(turns) ==> BestSpeedup(turns) == 0.0
    decreases |turns|
  {
    if turns != [] {
      var n := |turns| - 1;
      FoldDecides(turns[..n], x);
      assert turns == turns[..n] + [turns[n]];
      SomeTurnSnoc(turns[..n], turns[n], x);
    }
  }

  /** The fold decides that for every list of turns exactly when the threshold is positive: for any
      other one, a correct turn slower than the threshold passes the fold's test alone. */
  lemma FoldNeedsPositiveThreshold(x: real)
    ensures (forall turns :: BestCorrect(turns) && BestSpeedup(turns) >= x <==> exists t :: t in turns && Hits(t, x))
            <==> x > 0.0
  {
    if x > 0.0 {
      forall turns ensures BestCorrect(turns) && BestSpeedup(turns) >= x <==> exists t :: t in turns && Hits(t, x) {
        FoldDecides(turns, x);
      }
    } else {
      var slow := [Turn(0, true, x - 1.0)];
      assert slow[..0] == [];
      assert BestCorrect(slow) && BestSpeedup(slow) >= x;
    }
  }

  // ---- collecting per problem ----

  type Table = map<int, seq<(bool, real)>>

  function Entries(m: Table, p: int): seq<(bool, real)> { if p in m then m[p] else [] }

  function Entry(s: Sample): (bool, real) { (BestCorrect(s.turns), BestSpeedup(s.turns)) }

  function PerProblem(samples: seq<Sample>): Table {
    if samples == [] then map[]
    else
      var s := samples[|samples| - 1];
      var m := PerProblem(samples[..|samples| - 1]);
      m[s.problem := Entries(m, s.problem) + [Entry(s)]]
  }

  method CollectPerProblem(samples: seq<Sample>) returns (m: Table)
    ensures m == PerProblem(samples)
  {
    m := map[];
    var i := 0;
    while i < |samples|
      invariant 0 <= i <= |samples|
      invariant m == PerProblem(samples[..i])
    {
      assert samples[..i + 1][..i] == samples[..i];
      var correct, speedup := FoldTurns(samples[i].turns);
      var p := samples[i].problem;
      m := m[p := (if p in m then m[p] else []) + [(correct, speedup)]];
      i := i + 1;
    }
    assert samples[..i] == samples;
  }

  predicate AnyCorrect(l: seq<(bool, real)>) { exists i :: 0 <= i < |l| && l[i].0 }

  predicate AnyFast(l: seq<(bool, real)>, x: real) { exists i :: 0 <= i < |l| && l[i].0 && l[i].1 >= x }

  lemma AnySnoc(l: seq<(bool, real)>, e: (bool, real), x: real)
    ensures AnyCorrect(l + [e]) <==> AnyCorrect(l) || e.0
    ensures AnyFast(l + [e], x) <==> AnyFast(l, x) || (e.0 && e.1 >= x)
  {
    var r := l + [e];
    assert r[|l|] == e;
    assert forall i :: 0 <= i < |l| ==> r[i] == l[i];
  }

  /** A problem's list says whether some sample of it, in some turn, was correct or fast. */
  lemma {:induction false} PerProblemDecides(samples: seq<Sample>, p: int, x: real)
    requires x > 0.0
    ensures p in PerProblem(samples) <==> p in Problems(samples)
    ensures AnyCorrect(Entries(PerProblem(samples), p)) <==> p in SolvedProblems(samples)
    ensures AnyFast(Entries(PerProblem(samples), p), x) <==> p in FastProblems(samples, x)
    decreases |samples|
  {
    if samples != [] {
      var n := |samples| - 1;
      var s := samples[n];
      PerProblemDecides(samples[..n], p, x);
      assert samples == samples[..n] + [s];
      assert forall d :: d in samples <==> d in samples[..n] || d == s;
      FoldDecides(s.turns, x);
      if s.problem == p { AnySnoc(Entries(PerProblem(samples[..n]), p), Entry(s), x); }
    }
  }

  // ---- summarising ----

  function CorrectProblems(m: Table): set<int> { set p | p in m && AnyCorrect(m[p]) }

  function FastOnes(m: Table, x: real): set<int> { set p | p in m && AnyFast(m[p], x) }

  function ListCount(l: seq<(bool, real)>, onlyCorrect: bool): nat {
    if l == [] then 0
    else ListCount(l[..|l| - 1], onlyCorrect) + (if onlyCorrect ==> l[|l| - 1].0 then 1 else 0)
  }

  /** The entries in all the lists of a table, all of them or the correct ones. */
  ghost function TableCount(m: Table, onlyCorrect: bool): nat
    decreases |m|
  {
    var problems := m.Keys;
    if problems == {} then 0
    else
      assert exists p :: p in problems by { var _ := SomeElement(problems); }
      var p :| p in problems;
      ListCount(m[p], onlyCorrect) + TableCount(m - {p}, onlyCorrect)
  }

  datatype Summary = Summary(problems: nat, samples: nat, correctSamples: nat, problemsCorrect: nat, problemsFast: nat) {
    function SampleSolve(): real { Percent(correctSamples, samples) }
    function Pass1Best(): real { Percent(problemsCorrect, problems) }
    function Fast12(): real { Percent(problemsFast, problems) }
  }

  function Percent(a: nat, n: nat): real { a as real / (if n < 1 then 1 else n) as real * 100.0 }

  lemma {:induction false} AllCounted(l: seq<(bool, real)>)
    ensures ListCount(l, false) == |l|
    decreases |l|
  {
    if l != [] { AllCounted(l[..|l| - 1]); }
  }

  lemma {:induction false} CountWithout(m: Table, p: int, onlyCorrect: bool)
    requires p in m
    ensures TableCount(m, onlyCorrect) == ListCount(m[p], onlyCorrect) + TableCount(m - {p}, onlyCorrect)
    decreases |m|
  {
    var q :| q in m.Keys && TableCount(m, onlyCorrect) == ListCount(m[q], onlyCorrect) + TableCount(m - {q}, onlyCorrect);
    if p != q {
      CountWithout(m - {q}, p, onlyCorrect);
      CountWithout(m - {p}, q, onlyCorrect);
      assert m - {q} - {p} == m - {p} - {q};
    }
  }

  lemma CountAdded(m: Table, p: int, l: seq<(bool, real)>, onlyCorrect: bool)
    requires p !in m
    ensures TableCount(m[p := l], onlyCorrect) == TableCount(m, onlyCorrect) + ListCount(l, onlyCorrect)
  {
    CountWithout(m[p := l], p, onlyCorrect);
    assert m[p := l] - {p} == m;
  }

  method CountList(l: seq<(bool, real)>) returns (correct: nat, anyCorrect: bool, anyFast: bool)
    ensures correct == ListCount(l, true)
    ensures anyCorrect == AnyCorrect(l) && anyFast == AnyFast(l, FAST)
  {
    correct, anyCorrect, anyFast := 0, false, false;
    var i := 0;
    while i < |l|
      invariant 0 <= i <= |l|
      invariant correct == ListCount(l[..i], true)
      invariant anyCorrect <==> exists j :: 0 <= j < i && l[j].0
      invariant anyFast <==> exists j :: 0 <= j < i && l[j].0 && l[j].1 >= FAST
    {
      assert l[..i + 1][..i] == l[..i];
      if l[i].0 {
        correct, anyCorrect := correct + 1, true;
        if l[i].1 >= FAST { anyFast := true; }
      }
      i := i + 1;
    }
    assert l[..i] == l;
  }

  ghost function SummaryOf(m: Table): Summary {
    Summary(|m|, TableCount(m, false), TableCount(m, true), |CorrectProblems(m)|, |FastOnes(m, FAST)|)
  }

  function WithList(s: Summary, samples: nat, correct: nat, anyCorrect: bool, anyFast: bool): Summary {
    Summary(s.problems + 1, s.samples + samples, s.correctSamples + correct,
            s.problemsCorrect + (if anyCorrect then 1 else 0), s.problemsFast + (if anyFast then 1 else 0))
  }

  lemma SummaryAdded(m: Table, p: int, l: seq<(bool, real)>)
    requires p !in m
    ensures SummaryOf(m[p := l]) == WithList(SummaryOf(m), |l|, ListCount(l, true), AnyCorrect(l), AnyFast(l, FAST))
  {
    CountAdded(m, p, l, false);
    CountAdded(m, p, l, true);
    AllCounted(l);
    ProblemsAdded(m, p, l);
  }

  /** The part of the table with these problems. */
  function Part(m: Table, problems: set<int>): Table { map p | p in m && p in problems :: m[p] }

  lemma PartAdded(m: Table, problems: set<int>, p: int)
    requires p in m && p !in problems
    ensures SummaryOf(Part(m, problems + {p}))
            == WithList(SummaryOf(Part(m, problems)), |m[p]|, ListCount(m[p], true), AnyCorrect(m[p]), AnyFast(m[p], FAST))
  {
    assert Part(m, problems + {p}) == Part(m, problems)[p := m[p]];
    SummaryAdded(Part(m, problems), p, m[p]);
  }

  method SummarizeRun(m: Table) returns (s: Summary)
    ensures s == SummaryOf(m)
  {
    s := Summary(0, 0, 0, 0, 0);
    var rest := m.Keys;
    EmptyPart(m);
    while rest != {}
      invariant rest <= m.Keys
      invariant s == SummaryOf(Part(m, m.Keys - rest))
      decreases rest
    {
      ghost var _ := SomeElement(rest);
      var p :| p in rest;
      var correct, anyCorrect, anyFast := CountList(m[p]);
      PartAdded(m, m.Keys - rest, p);
      assert m.Keys - rest + {p} == m.Keys - (rest - {p});
      s := Summary(s.problems + 1, s.samples + |m[p]|, s.correctSamples + correct,
                   s.problemsCorrect + (if anyCorrect then 1 else 0), s.problemsFast + (if anyFast then 1 else 0));
      rest := rest - {p};
    }
    assert Part(m, m.Keys - rest) == m;
  }

  lemma EmptyPart(m: Table)
    ensures SummaryOf(Part(m, m.Keys - m.Keys)) == Summary(0, 0, 0, 0, 0)
  {
    var empty := Part(m, m.Keys - m.Keys);
    assert empty == map[];
    assert CorrectProblems(empty) == {} && FastOnes(empty, FAST) == {};
  }

  lemma ProblemsAdded(m: Table, p: int, l: seq<(bool, real)>)
    requires p !in m
    ensures |CorrectProblems(m[p := l])| == |CorrectProblems(m)| + (if AnyCorrect(l) then 1 else 0)
    ensures |FastOnes(m[p := l], FAST)| == |FastOnes(m, FAST)| + (if AnyFast(l, FAST) then 1 else 0)
  {
    assert CorrectProblems(m[p := l]) == if AnyCorrect(l) then CorrectProblems(m) + {p} else CorrectProblems(m);
    assert FastOnes(m[p := l], FAST) == if AnyFast(l, FAST) then FastOnes(m, FAST) + {p} else FastOnes(m, FAST);
  }

  // ---- what the summary says about the data ----

  function SampleCount(samples: seq<Sample>, onlyCorrect: bool): nat {
    if samples == [] then 0
    else SampleCount(samples[..|samples| - 1], onlyCorrect) + One(samples[|samples| - 1], onlyCorrect)
  }

  function One(s: Sample, onlyCorrect: bool): nat { if onlyCorrect ==> Solved(s) then 1 else 0 }

  lemma EntryCounts(m: Table, s: Sample, onlyCorrect: bool)
    ensures TableCount(m[s.problem := Entries(m, s.problem) + [Entry(s)]], onlyCorrect)
            == TableCount(m, onlyCorrect) + One(s, onlyCorrect)
  {
    FoldDecides(s.turns, 1.0);
    var before := Entries(m, s.problem);
    var l := before + [Entry(s)];
    assert l[..|l| - 1] == before;
    assert ListCount(l, onlyCorrect) == ListCount(before, onlyCorrect) + One(s, onlyCorrect);
    var others := m - {s.problem};
    assert m[s.problem := l] == others[s.problem := l];
    CountAdded(others, s.problem, l, onlyCorrect);
    if s.problem in m { CountWithout(m, s.problem, onlyCorrect); } else { assert others == m; }
  }

  lemma {:induction false} TableCounts(samples: seq<Sample>, onlyCorrect: bool)
    ensures TableCount(PerProblem(samples), onlyCorrect) == SampleCount(samples, onlyCorrect)
    decreases |samples|
  {
    if samples != [] {
      var n := |samples| - 1;
      TableCounts(samples[..n], onlyCorrect);
      EntryCounts(PerProblem(samples[..n]), samples[n], onlyCorrect);
    }
  }

  /** What is reported for a run: its problems, its samples and the solved ones, and the problems for
      which some sample, in some turn, was correct, or correct at 1.2 times the reference or better. */
  function Meaning(samples: seq<Sample>): Summary {
    Summary(|Problems(samples)|, |samples|, SampleCount(samples, true),
            |SolvedProblems(samples)|, |FastProblems(samples, FAST)|)
  }

  lemma {:induction false} AllSamplesCount(samples: seq<Sample>)
    ensures SampleCount(samples, false) == |samples|
    decreases |samples|
  {
    if samples != [] { AllSamplesCount(samples[..|samples| - 1]); }
  }

  lemma TableMeans(samples: seq<Sample>)
    ensures SummaryOf(PerProblem(samples)) == Meaning(samples)
  {
    var m := PerProblem(samples);
    forall p ensures (p in m <==> p in Problems(samples))
             ensures (p in CorrectProblems(m) <==> p in SolvedProblems(samples))
             ensures (p in FastOnes(m, FAST) <==> p in FastProblems(samples, FAST)) {
      PerProblemDecides(samples, p, FAST);
    }
    assert m.Keys == Problems(samples) && |m| == |m.Keys|;
    assert CorrectProblems(m) == SolvedProblems(samples);
    assert FastOnes(m, FAST) == FastProblems(samples, FAST);
    TableCounts(samples, false);
    TableCounts(samples, true);
    AllSamplesCount(samples);
  }

  lemma FastMeans(samples: seq<Sample>)
    ensures FastProblems(samples, FAST)
            == set x | x in samples && (exists t :: t in x.turns && t.correct && t.speedup >= 1.2) :: x.problem
    ensures SolvedProblems(samples) == set x | x in samples && (exists t :: t in x.turns && t.correct) :: x.problem
  {
    forall x | x in samples ensures Reaches(x, FAST) <==> exists t :: t in x.turns && t.correct && t.speedup >= 1.2 {
      if Reaches(x, FAST) {
        var t :| t in x.turns && Hits(t, FAST);
        assert t.correct && t.speedup >= 1.2;
      }
      if t :| t in x.turns && t.correct && t.speedup >= 1.2 { assert Hits(t, FAST); }
    }
  }

  /** The first aggregator, from the sample directories to its summary. */
  method AggregateRun(samples: seq<Sample>) returns (s: Summary)
    ensures s == Meaning(samples)
    ensures s.problems == |set x | x in samples :: x.problem| && s.samples == |samples|
    ensures s.problemsCorrect == |set x | x in samples && (exists t :: t in x.turns && t.correct) :: x.problem|
    ensures s.problemsFast == |set x | x in samples && (exists t :: t in x.turns && t.correct && t.speedup >= 1.2) :: x.problem|
  {
    FastMeans(samples);
    var m := CollectPerProblem(samples);
    s := SummarizeRun(m);
    TableMeans(samples);
  }

  // ---- order independence and bounds ----

  /** The same directories in another order, each with its turns in any order. */
  ghost predicate Reordered(a: seq<Sample>, b: seq<Sample>) {
    |a| == |b| && forall i :: 0 <= i < |a| ==> SameSample(a[i], b[i])
  }

  ghost predicate SameSample(s: Sample, t: Sample) {
    s.problem == t.problem && s.sample == t.sample && multiset(s.turns) == multiset(t.turns)
  }

  lemma SameTurns(s: Sample, t: Sample, x: real)
    requires SameSample(s, t)
    ensures Solved(s) <==> Solved(t)
    ensures Reaches(s, x) <==> Reaches(t, x)
  {
    assert forall u :: u in s.turns <==> u in multiset(s.turns);
    assert forall u :: u in t.turns <==> u in multiset(t.turns);
  }

  lemma {:induction false} CountConcat(a: seq<Sample>, b: seq<Sample>, onlyCorrect: bool)
    ensures SampleCount(a + b, onlyCorrect) == SampleCount(a, onlyCorrect) + SampleCount(b, onlyCorrect)
    decreases |b|
  {
    if b == [] {
      assert a + b == a;
    } else {
      assert (a + b)[..|a + b| - 1] == a + b[..|b| - 1];
      CountConcat(a, b[..|b| - 1], onlyCorrect);
    }
  }

  lemma SameLess<T>(x: multiset<T>, y: multiset<T>, e: T)
    requires x + multiset{e} == y + multiset{e}
    ensures x == y
  {
    assert x == x + multiset{e} - multiset{e} && y == y + multiset{e} - multiset{e};
  }

  lemma {:induction false} CountShuffled(a: seq<Sample>, b: seq<Sample>, onlyCorrect: bool)
    requires multiset(a) == multiset(b)
    ensures SampleCount(a, onlyCorrect) == SampleCount(b, onlyCorrect)
    decreases |a|
  {
    assert |a| == |multiset(a)| == |multiset(b)| == |b|;
    if a != [] {
      var n := |a| - 1;
      assert a == a[..n] + [a[n]];
      assert a[n] in multiset(b);
      var j :| 0 <= j < |b| && b[j] == a[n];
      assert b == b[..j] + [b[j]] + b[j + 1..];
      var rest := b[..j] + b[j + 1..];
      assert multiset(a) == multiset(a[..n]) + multiset{a[n]};
      assert multiset(b) == multiset(b[..j]) + multiset{b[j]} + multiset(b[j + 1..]);
      assert multiset(rest) == multiset(b[..j]) + multiset(b[j + 1..]);
      assert multiset(rest) + multiset{a[n]} == multiset(a[..n]) + multiset{a[n]};
      SameLess(multiset(rest), multiset(a[..n]), a[n]);
      CountShuffled(a[..n], rest, onlyCorrect);
      CountConcat(b[..j], b[j + 1..], onlyCorrect);
      CountConcat(b[..j] + [b[j]], b[j + 1..], onlyCorrect);
      assert (b[..j] + [b[j]])[..j] == b[..j];
    }
  }

  lemma {:induction false} CountReordered(a: seq<Sample>, b: seq<Sample>, onlyCorrect: bool)
    requires Reordered(a, b)
    ensures SampleCount(a, onlyCorrect) == SampleCount(b, onlyCorrect)
    decreases |a|
  {
    if a != [] {
      SameTurns(a[|a| - 1], b[|b| - 1], FAST);
      CountReordered(a[..|a| - 1], b[..|b| - 1], onlyCorrect);
    }
  }

  /** The summary does not depend on the order of the directories... */
  lemma DirectoryOrderIrrelevant(a: seq<Sample>, b: seq<Sample>)
    requires multiset(a) == multiset(b)
    ensures Meaning(a) == Meaning(b)
  {
    assert forall s :: (s in a <==> s in multiset(a)) && (s in b <==> s in multiset(b));
    assert Problems(a) == Problems(b);
    assert SolvedProblems(a) == SolvedProblems(b) && FastProblems(a, FAST) == FastProblems(b, FAST);
    assert |a| == |multiset(a)| == |multiset(b)| == |b|;
    CountShuffled(a, b, true);
  }

  /** ...nor on the order of the turns in each. */
  lemma TurnOrderIrrelevant(a: seq<Sample>, b: seq<Sample>)
    requires Reordered(a, b)
    ensures Meaning(a) == Meaning(b)
  {
    forall i | 0 <= i < |a|
      ensures a[i].problem == b[i].problem && (Solved(a[i]) <==> Solved(b[i])) && (Reaches(a[i], FAST) <==> Reaches(b[i], FAST))
    {
      SameTurns(a[i], b[i], FAST);
    }
    forall p ensures (p in Problems(a) <==> p in Problems(b))
             ensures (p in SolvedProblems(a) <==> p in SolvedProblems(b))
             ensures (p in FastProblems(a, FAST) <==> p in FastProblems(b, FAST)) {
      AtSomePlace(a, b, p);
      AtSomePlace(b, a, p);
    }
    assert Problems(a) == Problems(b);
    assert SolvedProblems(a) == SolvedProblems(b) && FastProblems(a, FAST) == FastProblems(b, FAST);
    CountReordered(a, b, true);
  }

  lemma AtSomePlace(a: seq<Sample>, b: seq<Sample>, p: int)
    requires |a| == |b|
    requires forall i :: 0 <= i < |a| ==>
               a[i].problem == b[i].problem && (Solved(a[i]) <==> Solved(b[i])) && (Reaches(a[i], FAST) <==> Reaches(b[i], FAST))
    ensures p in Problems(a) ==> p in Problems(b)
    ensures p in SolvedProblems(a) ==> p in SolvedProblems(b)
    ensures p in FastProblems(a, FAST) ==> p in FastProblems(b, FAST)
  {
    if p in Problems(a) {
      var i :| 0 <= i < |a| && a[i].problem == p;
      assert b[i] in b;
    }
    if p in SolvedProblems(a) {
      var i :| 0 <= i < |a| && a[i].problem == p && Solved(a[i]);
      assert b[i] in b;
    }
    if p in FastProblems(a, FAST) {
      var i :| 0 <= i < |a| && a[i].problem == p && Reaches(a[i], FAST);
      assert b[i] in b;
    }
  }

  lemma Subset(a: set<int>, b: set<int>)
    requires a <= b
    ensures |a| <= |b|
  {
    assert b == a + (b - a);
  }

  lemma FastAreSolved(samples: seq<Sample>, x: real)
    ensures FastProblems(samples, x) <= SolvedProblems(samples)
    ensures |FastProblems(samples, x)| <= |SolvedProblems(samples)|
  {
    forall p | p in FastProblems(samples, x) ensures p in SolvedProblems(samples) {
      var s :| s in samples && Reaches(s, x) && s.problem == p;
      assert Solved(s);
    }
    Subset(FastProblems(samples, x), SolvedProblems(samples));
  }

  lemma PercentGrows(a: nat, b: nat, n: nat)
    requires a <= b <= n
    ensures 0.0 <= Percent(a, n) <= Percent(b, n) <= 100.0
  {
    var d := (if n < 1 then 1 else n) as real;
    assert 0.0 <= a as real / d <= b as real / d <= 1.0;
  }

  lemma {:induction false} SolvedAreSamples(samples: seq<Sample>)
    ensures SampleCount(samples, true) <= |samples|
    decreases |samples|
  {
    if samples != [] { SolvedAreSamples(samples[..|samples| - 1]); }
  }

  /** fast@1.2 is at most pass1_best, and that and sample_solve are at most 100. */
  lemma RatesAreOrdered(samples: seq<Sample>)
    ensures var s := Meaning(samples);
      0.0 <= s.Fast12() <= s.Pass1Best() <= 100.0 && 0.0 <= s.SampleSolve() <= 100.0
  {
    SolvedAreSamples(samples);
    PercentGrows(SampleCount(samples, true), |samples|, |samples|);
    FastAreSolved(samples, FAST);
    Subset(SolvedProblems(samples), Problems(samples));
    var s := Meaning(samples);
    PercentGrows(s.problemsFast, s.problemsCorrect, s.problems);
  }
}
