/** The second aggregator, evals/compare_gs_eval.py, and where it agrees with the first. */
module AggregationCheck {
  import opened Common
  import opened Aggregation

  /** One parsed turn file with the directory it was found in. */
  datatype File = File(problem: int, sample: int, turn: Turn)

  type Turns = map<nat, (bool, real)>

  type Nested = map<int, map<int, Turns>>

  function TurnsAt(n: Nested, p: int, s: int): Turns { if p in n && s in n[p] then n[p][s] else map[] }

  /** One parsed file goes into its problem's dictionary of samples, made on first use. */
  function Insert(n: Nested, f: File): Nested {
    var inner := if f.problem in n then n[f.problem] else map[];
    n[f.problem := inner[f.sample := TurnsAt(n, f.problem, f.sample)[f.turn.number := (f.turn.correct, f.turn.speedup)]]]
  }

  function Nest(files: seq<File>): Nested {
    if files == [] then map[] else Insert(Nest(files[..|files| - 1]), files[|files| - 1])
  }

  method BuildProblems(files: seq<File>) returns (problems: Nested)
    ensures problems == Nest(files)
  {
    problems := map[];
    var i := 0;
    while i < |files|
      invariant 0 <= i <= |files|
      invariant problems == Nest(files[..i])
    {
      assert files[..i + 1][..i] == files[..i];
      var f := files[i];
      var samples := if f.problem in problems then problems[f.problem] else map[];
      var turns := if f.sample in samples then samples[f.sample] else map[];
      turns := turns[f.turn.number := (f.turn.correct, f.turn.speedup)];
      problems := problems[f.problem := samples[f.sample := turns]];
      i := i + 1;
    }
    assert files[..i] == files;
  }

  /** One file per turn of a sample. */
  ghost predicate DistinctFiles(files: seq<File>) {
    forall i, j :: 0 <= i < j < |files| ==> !SameKey(files[i], files[j])
  }

  predicate Holds(n: Nested, f: File) {
    f.turn.number in TurnsAt(n, f.problem, f.sample)
    && TurnsAt(n, f.problem, f.sample)[f.turn.number] == (f.turn.correct, f.turn.speedup)
  }

  lemma InsertHolds(n: Nested, f: File, g: File)
    ensures Holds(Insert(n, f), g) <==> if SameKey(g, f) then g == f else Holds(n, g)
  {
  }

  predicate SameKey(f: File, g: File) {
    f.problem == g.problem && f.sample == g.sample && f.turn.number == g.turn.number
  }

  lemma LastKeyIsNew(files: seq<File>, g: File)
    requires DistinctFiles(files) && files != [] && g in files[..|files| - 1]
    ensures !SameKey(g, files[|files| - 1])
  {
    var j :| 0 <= j < |files| - 1 && files[j] == g;
  }

  lemma {:induction false} NestKeys(files: seq<File>, p: int)
    ensures p in Nest(files) <==> exists f :: f in files && f.problem == p
    decreases |files|
  {
    if files != [] {
      var k := |files| - 1;
      NestKeys(files[..k], p);
      assert files == files[..k] + [files[k]];
      assert forall f :: f in files <==> f in files[..k] || f == files[k];
    }
  }

  /** The nested dictionary holds exactly the files. */
  lemma {:induction false} NestHolds(files: seq<File>, g: File)
    requires DistinctFiles(files)
    ensures Holds(Nest(files), g) <==> g in files
    decreases |files|
  {
    if files != [] {
      var k := |files| - 1;
      NestHolds(files[..k], g);
      InsertHolds(Nest(files[..k]), files[k], g);
      if g in files[..k] { LastKeyIsNew(files, g); }
      assert files == files[..k] + [files[k]];
      assert g in files <==> g in files[..k] || g == files[k];
    }
  }

  /** The problems with some sample holding some correct turn at x or better. */
  ghost function BestOf(n: Nested, x: real): set<int> {
    set p | p in n && exists s, k {:trigger TurnsAt(n, p, s), k in TurnsAt(n, p, s)} ::
                        s in n[p] && k in TurnsAt(n, p, s) && TurnsAt(n, p, s)[k].0 && TurnsAt(n, p, s)[k].1 >= x
  }

  /** Both aggregators look at the same parsed turns. */
  ghost predicate SameRun(samples: seq<Sample>, files: seq<File>) {
    && DistinctFiles(files)
    && (forall f {:trigger f in files} :: f in files ==>
          exists s :: s in samples && s.problem == f.problem && s.sample == f.sample && f.turn in s.turns)
    && (forall s, t {:trigger t in s.turns, s in samples} :: s in samples && t in s.turns ==> File(s.problem, s.sample, t) in files)
  }

  lemma BestOfIsFast(samples: seq<Sample>, files: seq<File>, x: real)
    requires SameRun(samples, files)
    ensures BestOf(Nest(files), x) == FastProblems(samples, x)
  {
    var n := Nest(files);
    forall p | p in BestOf(n, x) ensures p in FastProblems(samples, x) {
      var s, k :| s in n[p] && k in TurnsAt(n, p, s) && TurnsAt(n, p, s)[k].0 && TurnsAt(n, p, s)[k].1 >= x;
      var f := File(p, s, Turn(k, true, TurnsAt(n, p, s)[k].1));
      NestHolds(files, f);
      assert f in files;
      var d :| d in samples && d.problem == f.problem && d.sample == f.sample && f.turn in d.turns;
      assert Hits(f.turn, x) && Reaches(d, x);
    }
    forall p | p in FastProblems(samples, x) ensures p in BestOf(n, x) {
      var d :| d in samples && Reaches(d, x) && d.problem == p;
      var t :| t in d.turns && Hits(t, x);
      NestHolds(files, File(d.problem, d.sample, t));
      assert t.number in TurnsAt(n, p, d.sample);
    }
  }

  /** Problems the second aggregator sees: those with at least one turn. */
  lemma ProblemsSeen(samples: seq<Sample>, files: seq<File>)
    requires SameRun(samples, files)
    ensures Nest(files).Keys == set s | s in samples && s.turns != [] :: s.problem
  {
    var seen := set s | s in samples && s.turns != [] :: s.problem;
    forall p ensures p in Nest(files) <==> p in seen {
      NestKeys(files, p);
      if p in Nest(files) {
        var f :| f in files && f.problem == p;
        var d :| d in samples && d.problem == f.problem && d.sample == f.sample && f.turn in d.turns;
      }
      if p in seen {
        var d :| d in samples && d.turns != [] && d.problem == p;
        assert d.turns[0] in d.turns;
        assert File(d.problem, d.sample, d.turns[0]) in files;
      }
    }
  }

  /** A share of all problems, 0 when there are none. */
  function Fraction(a: nat, n: nat): real { if n == 0 then 0.0 else a as real / n as real }

  ghost predicate EveryProblemHasTurns(samples: seq<Sample>) {
    forall p :: p in Problems(samples) ==> exists s :: s in samples && s.problem == p && s.turns != []
  }

  lemma CountSeen(samples: seq<Sample>, files: seq<File>)
    requires SameRun(samples, files)
    ensures |Nest(files)| <= |Problems(samples)|
    ensures EveryProblemHasTurns(samples) ==> |Nest(files)| == |Problems(samples)|
  {
    ProblemsSeen(samples, files);
    var seen := set s | s in samples && s.turns != [] :: s.problem;
    Subset(seen, Problems(samples));
    assert |Nest(files)| == |Nest(files).Keys| == |seen|;
    if EveryProblemHasTurns(samples) { assert seen == Problems(samples); }
  }

  /** On the same turns the two fast@1.2 counts are equal, always; and where every problem has a turn
      the two rates are. The second pass1_best counts problems with a correct turn at 1.0 or better. */
  lemma AggregatorsAgree(samples: seq<Sample>, files: seq<File>)
    requires SameRun(samples, files)
    ensures |BestOf(Nest(files), FAST)| == Meaning(samples).problemsFast
    ensures |Nest(files)| <= Meaning(samples).problems
    ensures EveryProblemHasTurns(samples) ==>
              Fraction(|BestOf(Nest(files), FAST)|, |Nest(files)|) * 100.0 == Meaning(samples).Fast12()
    ensures |BestOf(Nest(files), 1.0)| <= Meaning(samples).problemsCorrect
  {
    BestOfIsFast(samples, files, FAST);
    BestOfIsFast(samples, files, 1.0);
    FastAreSolved(samples, 1.0);
    CountSeen(samples, files);
    EmptyRun(samples);
  }

  lemma EmptyRun(samples: seq<Sample>)
    ensures |Problems(samples)| == 0 ==> |FastProblems(samples, FAST)| == 0
  {
    assert FastProblems(samples, FAST) <= Problems(samples);
    Subset(FastProblems(samples, FAST), Problems(samples));
  }

  /** The two pass1_best counts are equal exactly when no solved problem is solved only below 1.0. */
  lemma Pass1AgreesExactly(samples: seq<Sample>, files: seq<File>)
    requires SameRun(samples, files)
    ensures |BestOf(Nest(files), 1.0)| == Meaning(samples).problemsCorrect <==>
            forall s :: s in samples && Solved(s) ==> SomeReaches(samples, s.problem, 1.0)
  {
    BestOfIsFast(samples, files, 1.0);
    FastAreSolved(samples, 1.0);
    SolvedAreFastExactly(samples, 1.0);
    SameSizeExactly(FastProblems(samples, 1.0), SolvedProblems(samples));
  }

  ghost predicate SomeReaches(samples: seq<Sample>, p: int, x: real) {
    exists d :: d in samples && d.problem == p && Reaches(d, x)
  }

  lemma SolvedAreFastExactly(samples: seq<Sample>, x: real)
    ensures SolvedProblems(samples) <= FastProblems(samples, x)
            <==> forall s :: s in samples && Solved(s) ==> SomeReaches(samples, s.problem, x)
  {
    forall p ensures p in FastProblems(samples, x) <==> SomeReaches(samples, p, x) {
    }
    if SolvedProblems(samples) <= FastProblems(samples, x) {
      forall s | s in samples && Solved(s) ensures SomeReaches(samples, s.problem, x) {
        assert s.problem in SolvedProblems(samples);
      }
    }
  }

  lemma SameSizeExactly<T>(a: set<T>, b: set<T>)
    requires a <= b
    ensures |a| <= |b|
    ensures |a| == |b| <==> b <= a
  {
    assert b == a + (b - a);
    if b <= a {
      assert a == b;
    } else {
      var x := SomeElement(b - a);
    }
  }

  // ---- the single-pass count ----

  /** The test on the last turn of one sample; a last turn numbered 0 fails it like a missing one. */
  ghost predicate SingleCounts(t: Turns) {
    exists k :: k in t && (forall j :: j in t ==> j <= k) && k != 0 && t[k].0 && t[k].1 >= FAST
  }

  /** The samples the single-pass metric counts, each with its problem. */
  ghost function SinglePass(n: Nested): set<(int, int)> {
    set p, s | p in n && s in n[p] && SingleCounts(n[p][s]) :: (p, s)
  }

  /** No turn of the same sample comes later. */
  ghost predicate IsLast(files: seq<File>, f: File) {
    forall g :: g in files && g.problem == f.problem && g.sample == f.sample ==> g.turn.number <= f.turn.number
  }

  /** The samples whose last turn is correct at 1.2 or better. */
  ghost function LastTurnFast(files: seq<File>): set<(int, int)> {
    set f | f in files && IsLast(files, f) && Hits(f.turn, FAST) :: (f.problem, f.sample)
  }

  lemma TurnIsFile(files: seq<File>, p: int, s: int, k: nat)
    requires DistinctFiles(files) && k in TurnsAt(Nest(files), p, s)
    ensures var (c, v) := TurnsAt(Nest(files), p, s)[k]; File(p, s, Turn(k, c, v)) in files
  {
    var (c, v) := TurnsAt(Nest(files), p, s)[k];
    NestHolds(files, File(p, s, Turn(k, c, v)));
  }

  lemma CountedIsLast(files: seq<File>, p: int, s: int)
    requires DistinctFiles(files) && SingleCounts(TurnsAt(Nest(files), p, s))
    ensures exists f :: f in files && f.problem == p && f.sample == s && f.turn.number > 0 && IsLast(files, f) && Hits(f.turn, FAST)
  {
    var t := TurnsAt(Nest(files), p, s);
    var k :| k in t && (forall j :: j in t ==> j <= k) && k != 0 && t[k].0 && t[k].1 >= FAST;
    TurnIsFile(files, p, s, k);
    var f := File(p, s, Turn(k, t[k].0, t[k].1));
    forall g | g in files && g.problem == p && g.sample == s ensures g.turn.number <= k {
      NestHolds(files, g);
    }
    assert IsLast(files, f) && Hits(f.turn, FAST);
  }

  lemma LastIsCounted(files: seq<File>, f: File)
    requires DistinctFiles(files) && f in files && f.turn.number > 0 && IsLast(files, f) && Hits(f.turn, FAST)
    ensures (f.problem, f.sample) in SinglePass(Nest(files))
  {
    var t := TurnsAt(Nest(files), f.problem, f.sample);
    NestHolds(files, f);
    forall j | j in t ensures j <= f.turn.number {
      TurnIsFile(files, f.problem, f.sample, j);
    }
  }

  /** A sample is counted exactly when its last turn is fast and not numbered 0. */
  lemma SinglePassMeans(files: seq<File>, p: int, s: int)
    requires DistinctFiles(files)
    ensures (p, s) in SinglePass(Nest(files)) <==>
            exists f :: f in files && f.problem == p && f.sample == s && f.turn.number > 0 && IsLast(files, f) && Hits(f.turn, FAST)
  {
    var n := Nest(files);
    if (p, s) in SinglePass(n) {
      assert TurnsAt(n, p, s) == n[p][s];
      CountedIsLast(files, p, s);
    }
    if f :| f in files && f.problem == p && f.sample == s && f.turn.number > 0 && IsLast(files, f) && Hits(f.turn, FAST) {
      LastIsCounted(files, f);
    }
  }

  /** Every fast turn numbered 0 is followed by another turn of its sample. */
  ghost predicate FirstTurnsContinue(files: seq<File>) {
    forall f :: f in files && f.turn.number == 0 && Hits(f.turn, FAST) ==>
      exists g :: g in files && g.problem == f.problem && g.sample == f.sample && g.turn.number > 0
  }

  /** The single-pass count is never above the number of samples whose last turn is fast, and it is
      that number exactly when no sample has a fast turn 0 and no other turn. */
  lemma SingleCountsExactly(files: seq<File>)
    requires DistinctFiles(files)
    ensures |SinglePass(Nest(files))| <= |LastTurnFast(files)|
    ensures |SinglePass(Nest(files))| == |LastTurnFast(files)| <==> FirstTurnsContinue(files)
  {
    var counted, fast := SinglePass(Nest(files)), LastTurnFast(files);
    forall p, s | (p, s) in counted ensures (p, s) in fast { SinglePassMeans(files, p, s); }
    SameSizeExactly(counted, fast);
    if fast <= counted { ContinueIfAllCounted(files); }
    if FirstTurnsContinue(files) {
      forall p, s | (p, s) in fast ensures (p, s) in counted { CountedIfContinued(files, p, s); }
    }
  }

  lemma ContinueIfAllCounted(files: seq<File>)
    requires DistinctFiles(files) && LastTurnFast(files) <= SinglePass(Nest(files))
    ensures FirstTurnsContinue(files)
  {
    forall f | f in files && f.turn.number == 0 && Hits(f.turn, FAST)
      ensures exists g :: g in files && g.problem == f.problem && g.sample == f.sample && g.turn.number > 0
    {
      if IsLast(files, f) {
        assert (f.problem, f.sample) in LastTurnFast(files);
        SinglePassMeans(files, f.problem, f.sample);
      }
    }
  }

  lemma CountedIfContinued(files: seq<File>, p: int, s: int)
    requires DistinctFiles(files) && FirstTurnsContinue(files) && (p, s) in LastTurnFast(files)
    ensures (p, s) in SinglePass(Nest(files))
  {
    var f :| f in files && IsLast(files, f) && Hits(f.turn, FAST) && f.problem == p && f.sample == s;
    assert f.turn.number > 0;
    SinglePassMeans(files, p, s);
  }
}
