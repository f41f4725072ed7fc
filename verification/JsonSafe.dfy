/**
 JSON normalisation and error codes: kernelgym/schema/serialization.py and the `to_dict` and
 `from_dict` of kernelgym/schema/result.py. `show` is Python's `str`.
 */
module JsonSafe {
  import opened Common

  /** A string may be a member of an enumeration that derives from str, as ErrorCode does. */
  datatype StrKind = Plain | CodeMember | OtherMember

  /** `Enum` is a member of an enumeration that is neither a str nor a number. */
  datatype Py =
    | Nothing
    | Text(s: string, of: StrKind)
    | Scalar(n: int, member: bool)
    | Enum(value: Py)
    | Ast(text: string)
    | Dict(entries: seq<(Py, Py)>)
    | List(items: seq<Py>)
    | Tuple(items: seq<Py>)
    | Set(items: seq<Py>)
    | Other(text: string)

  const MAX_DEPTH := 10

  ghost predicate Shows(show: Py -> string) { forall s {:trigger show(Text(s, Plain))} :: show(Text(s, Plain)) == s }

  // ---- dictionaries built key by key ----

  /** The dictionary with these keys and values: of equal keys the last one's value stays. Where among
      the keys it then stands is not modelled. */
  function Gather(ks: seq<string>, vs: seq<Py>): (d: seq<(string, Py)>)
    requires |ks| == |vs|
    ensures forall i :: 0 <= i < |d| ==> d[i].0 in ks
  {
    if ks == [] then []
    else if ks[0] in ks[1..] then Gather(ks[1..], vs[1..])
    else [(ks[0], vs[0])] + Gather(ks[1..], vs[1..])
  }

  function AsDict(d: seq<(string, Py)>): Py {
    Dict(seq(|d|, i requires 0 <= i < |d| => (Text(d[i].0, Plain), d[i].1)))
  }

  // ---- make_json_safe ----

  function MakeSafe(show: Py -> string, x: Py, depth: nat): Py
    decreases x
  {
    if depth > MAX_DEPTH then Text(show(x), Plain)
    else
      match x
      case Nothing => x
      case Text(_, _) => x
      case Scalar(_, _) => x
      case Enum(v) => v
      case Ast(t) => Text(t, Plain)
      case Dict(es) =>
        AsDict(Gather(seq(|es|, i requires 0 <= i < |es| => show(es[i].0)),
                      seq(|es|, i requires 0 <= i < |es| => MakeSafe(show, es[i].1, depth + 1))))
      case List(xs) => List(seq(|xs|, i requires 0 <= i < |xs| => MakeSafe(show, xs[i], depth + 1)))
      case Tuple(xs) => List(seq(|xs|, i requires 0 <= i < |xs| => MakeSafe(show, xs[i], depth + 1)))
      case Set(xs) => List(seq(|xs|, i requires 0 <= i < |xs| => MakeSafe(show, xs[i], depth + 1)))
      case Other(_) => Text(show(x), Plain)
  }

  /** JSON data whose containers end by the depth limit. */
  predicate SafeWithin(x: Py, depth: nat)
    decreases x
  {
    if depth > MAX_DEPTH then x.Text? && x.of.Plain?
    else
      match x
      case Nothing => true
      case Text(_, _) => true
      case Scalar(_, _) => true
      case Dict(es) =>
        && (forall i :: 0 <= i < |es| ==> es[i].0.Text? && es[i].0.of.Plain?)
        && (forall i, j :: 0 <= i < j < |es| ==> es[i].0 != es[j].0)
        && (forall i :: 0 <= i < |es| ==> SafeWithin(es[i].1, depth + 1))
      case List(xs) => forall i :: 0 <= i < |xs| ==> SafeWithin(xs[i], depth + 1)
      case _ => false
  }

  predicate LastOfKey(ks: seq<string>, i: nat)
    requires i < |ks|
  {
    forall j :: i < j < |ks| ==> ks[j] != ks[i]
  }

  function KeyTexts(show: Py -> string, es: seq<(Py, Py)>): seq<string> {
    seq(|es|, i requires 0 <= i < |es| => show(es[i].0))
  }

  /** Every enumeration member that normalisation reaches, above the depth limit and not overwritten by
      a later equal key, holds a value that is itself safe there. */
  predicate EnumsSafe(show: Py -> string, x: Py, depth: nat)
    decreases x
  {
    if depth > MAX_DEPTH then true
    else
      match x
      case Enum(v) => SafeWithin(v, depth)
      case Dict(es) =>
        forall i :: 0 <= i < |es| && LastOfKey(KeyTexts(show, es), i) ==> EnumsSafe(show, es[i].1, depth + 1)
      case List(xs) => forall i :: 0 <= i < |xs| ==> EnumsSafe(show, xs[i], depth + 1)
      case Tuple(xs) => forall i :: 0 <= i < |xs| ==> EnumsSafe(show, xs[i], depth + 1)
      case Set(xs) => forall i :: 0 <= i < |xs| ==> EnumsSafe(show, xs[i], depth + 1)
      case _ => true
  }

  // ---- facts about dictionaries ----

  lemma {:induction false} GatherDistinctKeys(ks: seq<string>, vs: seq<Py>)
    requires |ks| == |vs|
    ensures forall i, j :: 0 <= i < j < |Gather(ks, vs)| ==> Gather(ks, vs)[i].0 != Gather(ks, vs)[j].0
    decreases |ks|
  {
    if ks != [] { GatherDistinctKeys(ks[1..], vs[1..]); }
  }

  lemma LastShifts(ks: seq<string>, i: nat)
    requires i + 1 < |ks|
    ensures LastOfKey(ks, i + 1) == LastOfKey(ks[1..], i)
  {
    assert forall j :: i < j < |ks[1..]| ==> ks[1..][j] == ks[j + 1];
    assert forall j :: i + 1 < j < |ks| ==> ks[1..][j - 1] == ks[j];
  }

  lemma LastFirst(ks: seq<string>)
    requires ks != []
    ensures LastOfKey(ks, 0) == (ks[0] !in ks[1..])
  {
    assert forall j :: 0 < j < |ks| ==> ks[1..][j - 1] == ks[j];
  }

  predicate AllHold(d: seq<(string, Py)>, p: Py -> bool) { forall i :: 0 <= i < |d| ==> p(d[i].1) }

  predicate LastHold(ks: seq<string>, vs: seq<Py>, p: Py -> bool)
    requires |ks| == |vs|
  {
    forall i :: 0 <= i < |ks| && LastOfKey(ks, i) ==> p(vs[i])
  }

  lemma LastHoldStep(ks: seq<string>, vs: seq<Py>, p: Py -> bool)
    requires |ks| == |vs| > 0
    ensures LastHold(ks, vs, p) <==> (ks[0] !in ks[1..] ==> p(vs[0])) && LastHold(ks[1..], vs[1..], p)
  {
    LastFirst(ks);
    forall i | 0 < i < |ks| ensures vs[i] == vs[1..][i - 1] && LastOfKey(ks, i) == LastOfKey(ks[1..], i - 1) {
      LastShifts(ks, i - 1);
    }
    if LastHold(ks, vs, p) {
      forall i | 0 <= i < |ks[1..]| && LastOfKey(ks[1..], i) ensures p(vs[1..][i]) {
        assert LastOfKey(ks, i + 1) && vs[1..][i] == vs[i + 1];
      }
    }
  }

  /** The gathered values are the last ones of their keys. */
  lemma {:induction false} GatherKeepsLast(ks: seq<string>, vs: seq<Py>, p: Py -> bool)
    requires |ks| == |vs|
    ensures AllHold(Gather(ks, vs), p) <==> LastHold(ks, vs, p)
    decreases |ks|
  {
    if ks != [] {
      var d, g := Gather(ks[1..], vs[1..]), Gather(ks, vs);
      GatherKeepsLast(ks[1..], vs[1..], p);
      LastHoldStep(ks, vs, p);
      if ks[0] !in ks[1..] {
        assert g[0].1 == vs[0] && forall i :: 0 <= i < |d| ==> g[i + 1] == d[i];
        assert AllHold(g, p) <==> p(vs[0]) && AllHold(d, p);
      }
    }
  }

  /** Distinct keys are gathered as they come. */
  lemma {:induction false} GatherDistinct(ks: seq<string>, vs: seq<Py>)
    requires |ks| == |vs| && Distinct(ks)
    ensures |Gather(ks, vs)| == |ks|
    ensures forall i :: 0 <= i < |ks| ==> Gather(ks, vs)[i] == (ks[i], vs[i])
    decreases |ks|
  {
    if ks != [] { GatherDistinct(ks[1..], vs[1..]); }
  }

  // ---- normalisation, dictionary by dictionary ----

  function SafeValues(show: Py -> string, es: seq<(Py, Py)>, depth: nat): seq<Py> {
    seq(|es|, i requires 0 <= i < |es| => MakeSafe(show, es[i].1, depth))
  }

  lemma DictForm(show: Py -> string, es: seq<(Py, Py)>, depth: nat)
    requires depth <= MAX_DEPTH
    ensures MakeSafe(show, Dict(es), depth) == AsDict(Gather(KeyTexts(show, es), SafeValues(show, es, depth + 1)))
  {
    assert KeyTexts(show, es) == seq(|es|, i requires 0 <= i < |es| => show(es[i].0));
    assert SafeValues(show, es, depth + 1) == seq(|es|, i requires 0 <= i < |es| => MakeSafe(show, es[i].1, depth + 1));
  }

  /** A normalised dictionary is safe when its surviving values are. */
  lemma DictSafe(show: Py -> string, es: seq<(Py, Py)>, depth: nat)
    requires depth <= MAX_DEPTH
    ensures SafeWithin(MakeSafe(show, Dict(es), depth), depth)
            <==> LastHold(KeyTexts(show, es), SafeValues(show, es, depth + 1), v => SafeWithin(v, depth + 1))
  {
    var ks, vs := KeyTexts(show, es), SafeValues(show, es, depth + 1);
    var d := Gather(ks, vs);
    DictForm(show, es, depth);
    GatherDistinctKeys(ks, vs);
    GatherKeepsLast(ks, vs, v => SafeWithin(v, depth + 1));
    var r := AsDict(d);
    assert forall i :: 0 <= i < |d| ==> r.entries[i] == (Text(d[i].0, Plain), d[i].1);
    assert SafeWithin(r, depth) <==> AllHold(d, v => SafeWithin(v, depth + 1));
  }

  // ---- the fixed points ----

  /** Normalisation leaves a value alone exactly when it is JSON data within the depth limit. */
  lemma {:induction false} FixedExactly(show: Py -> string, x: Py, depth: nat)
    requires Shows(show)
    ensures MakeSafe(show, x, depth) == x <==> SafeWithin(x, depth)
    decreases x
  {
    if depth <= MAX_DEPTH {
      match x
      case Dict(es) => FixedDict(show, es, depth);
      case List(xs) =>
        forall i | 0 <= i < |xs| ensures MakeSafe(show, xs[i], depth + 1) == xs[i] <==> SafeWithin(xs[i], depth + 1) {
          FixedExactly(show, xs[i], depth + 1);
        }
        var r := seq(|xs|, i requires 0 <= i < |xs| => MakeSafe(show, xs[i], depth + 1));
        assert r == xs <==> forall i :: 0 <= i < |xs| ==> r[i] == xs[i];
      case Enum(v) => assert v < x;
      case _ =>
    } else {
      assert x.Text? && x.of.Plain? ==> show(Text(x.s, Plain)) == x.s;
    }
  }

  predicate PlainKeys(es: seq<(Py, Py)>) {
    && (forall i :: 0 <= i < |es| ==> es[i].0.Text? && es[i].0.of.Plain?)
    && (forall i, j :: 0 <= i < j < |es| ==> es[i].0 != es[j].0)
  }

  lemma FixedKeys(show: Py -> string, es: seq<(Py, Py)>, depth: nat)
    requires depth <= MAX_DEPTH && MakeSafe(show, Dict(es), depth) == Dict(es)
    ensures PlainKeys(es)
  {
    var ks, vs := KeyTexts(show, es), SafeValues(show, es, depth + 1);
    DictForm(show, es, depth);
    GatherDistinctKeys(ks, vs);
    var d := Gather(ks, vs);
    assert AsDict(d).entries == es;
    assert forall i :: 0 <= i < |d| ==> es[i].0 == Text(d[i].0, Plain);
  }

  lemma PlainDict(show: Py -> string, es: seq<(Py, Py)>, depth: nat)
    requires Shows(show) && depth <= MAX_DEPTH && PlainKeys(es)
    ensures MakeSafe(show, Dict(es), depth).Dict? && |MakeSafe(show, Dict(es), depth).entries| == |es|
    ensures forall i :: 0 <= i < |es| ==>
              MakeSafe(show, Dict(es), depth).entries[i] == (es[i].0, MakeSafe(show, es[i].1, depth + 1))
  {
    var ks, vs := KeyTexts(show, es), SafeValues(show, es, depth + 1);
    forall i | 0 <= i < |es| ensures ks[i] == es[i].0.s {
      assert es[i].0 == Text(es[i].0.s, Plain);
    }
    assert Distinct(ks);
    DictForm(show, es, depth);
    GatherDistinct(ks, vs);
  }

  lemma {:induction false} FixedDict(show: Py -> string, es: seq<(Py, Py)>, depth: nat)
    requires Shows(show) && depth <= MAX_DEPTH
    ensures MakeSafe(show, Dict(es), depth) == Dict(es) <==> SafeWithin(Dict(es), depth)
    decreases Dict(es), 0
  {
    forall i | 0 <= i < |es| ensures MakeSafe(show, es[i].1, depth + 1) == es[i].1 <==> SafeWithin(es[i].1, depth + 1) {
      FixedExactly(show, es[i].1, depth + 1);
    }
    if PlainKeys(es) {
      FixedPlainDict(show, es, depth);
    } else if MakeSafe(show, Dict(es), depth) == Dict(es) {
      FixedKeys(show, es, depth);
    }
  }

  lemma FixedPlainDict(show: Py -> string, es: seq<(Py, Py)>, depth: nat)
    requires Shows(show) && depth <= MAX_DEPTH && PlainKeys(es)
    ensures MakeSafe(show, Dict(es), depth) == Dict(es)
            <==> forall i :: 0 <= i < |es| ==> MakeSafe(show, es[i].1, depth + 1) == es[i].1
  {
    PlainDict(show, es, depth);
    var r := MakeSafe(show, Dict(es), depth);
    assert r == Dict(es) <==> r.entries == es;
    SamePairs(r.entries, es);
  }

  lemma SamePairs(a: seq<(Py, Py)>, b: seq<(Py, Py)>)
    requires |a| == |b| && forall i :: 0 <= i < |a| ==> a[i].0 == b[i].0
    ensures a == b <==> forall i :: 0 <= i < |a| ==> a[i].1 == b[i].1
  {
    if forall i :: 0 <= i < |a| ==> a[i].1 == b[i].1 {
      assert forall i :: 0 <= i < |a| ==> a[i] == (a[i].0, a[i].1) == b[i];
    }
  }

  // ---- idempotence ----

  /** The output is safe exactly when the enumeration members it was made from hold safe values. */
  lemma {:induction false} SafeExactly(show: Py -> string, x: Py, depth: nat)
    ensures SafeWithin(MakeSafe(show, x, depth), depth) <==> EnumsSafe(show, x, depth)
    decreases x
  {
    if depth <= MAX_DEPTH {
      match x
      case Dict(es) =>
        forall i | 0 <= i < |es|
          ensures SafeWithin(MakeSafe(show, es[i].1, depth + 1), depth + 1) <==> EnumsSafe(show, es[i].1, depth + 1)
        {
          SafeExactly(show, es[i].1, depth + 1);
        }
        DictSafe(show, es, depth);
      case List(xs) => SafeItems(show, xs, depth);
      case Tuple(xs) => SafeItems(show, xs, depth);
      case Set(xs) => SafeItems(show, xs, depth);
      case _ =>
    }
  }

  lemma {:induction false} SafeItems(show: Py -> string, xs: seq<Py>, depth: nat)
    requires depth <= MAX_DEPTH
    ensures SafeWithin(List(seq(|xs|, i requires 0 <= i < |xs| => MakeSafe(show, xs[i], depth + 1))), depth)
            <==> forall i :: 0 <= i < |xs| ==> EnumsSafe(show, xs[i], depth + 1)
    decreases xs
  {
    var r := seq(|xs|, i requires 0 <= i < |xs| => MakeSafe(show, xs[i], depth + 1));
    forall i | 0 <= i < |xs| ensures SafeWithin(r[i], depth + 1) <==> EnumsSafe(show, xs[i], depth + 1) {
      SafeExactly(show, xs[i], depth + 1);
    }
  }

  /** Normalising twice is normalising once, at any depth, exactly when no enumeration member reached
      holds a value that itself needs normalising: a member's value is returned as it is. */
  lemma IdempotentExactly(show: Py -> string, x: Py, depth: nat)
    requires Shows(show)
    ensures MakeSafe(show, MakeSafe(show, x, depth), depth) == MakeSafe(show, x, depth) <==> EnumsSafe(show, x, depth)
  {
    FixedExactly(show, MakeSafe(show, x, depth), depth);
    SafeExactly(show, x, depth);
  }

  /** An enumeration member holding a tuple is not made safe. */
  lemma EnumKeepsItsTuple(show: Py -> string)
    ensures MakeSafe(show, Enum(Tuple([Scalar(1, false)])), 0) == Tuple([Scalar(1, false)])
    ensures MakeSafe(show, Tuple([Scalar(1, false)]), 0) == List([Scalar(1, false)])
  {
  }

  // ---- bounded nesting ----

  /** Containers are nested at most n deep. */
  predicate NestsWithin(x: Py, n: nat)
    decreases x
  {
    match x
    case Enum(v) => NestsWithin(v, n)
    case Dict(es) => n > 0 && forall i :: 0 <= i < |es| ==> NestsWithin(es[i].0, n - 1) && NestsWithin(es[i].1, n - 1)
    case List(xs) => n > 0 && forall i :: 0 <= i < |xs| ==> NestsWithin(xs[i], n - 1)
    case Tuple(xs) => n > 0 && forall i :: 0 <= i < |xs| ==> NestsWithin(xs[i], n - 1)
    case Set(xs) => n > 0 && forall i :: 0 <= i < |xs| ==> NestsWithin(xs[i], n - 1)
    case _ => true
  }

  /** Every enumeration member that normalisation reaches, above the depth limit and not overwritten by
      a later equal key, holds a value nested no deeper than the limit leaves room for. */
  predicate EnumsNest(show: Py -> string, x: Py, depth: nat)
    decreases x
  {
    if depth > MAX_DEPTH then true
    else
      match x
      case Enum(v) => NestsWithin(v, MAX_DEPTH + 1 - depth)
      case Dict(es) =>
        forall i :: 0 <= i < |es| && LastOfKey(KeyTexts(show, es), i) ==> EnumsNest(show, es[i].1, depth + 1)
      case List(xs) => forall i :: 0 <= i < |xs| ==> EnumsNest(show, xs[i], depth + 1)
      case Tuple(xs) => forall i :: 0 <= i < |xs| ==> EnumsNest(show, xs[i], depth + 1)
      case Set(xs) => forall i :: 0 <= i < |xs| ==> EnumsNest(show, xs[i], depth + 1)
      case _ => true
  }

  lemma DictNests(show: Py -> string, es: seq<(Py, Py)>, depth: nat)
    requires depth <= MAX_DEPTH
    ensures NestsWithin(MakeSafe(show, Dict(es), depth), MAX_DEPTH + 1 - depth)
            <==> LastHold(KeyTexts(show, es), SafeValues(show, es, depth + 1), v => NestsWithin(v, MAX_DEPTH - depth))
  {
    var ks, vs := KeyTexts(show, es), SafeValues(show, es, depth + 1);
    var d := Gather(ks, vs);
    DictForm(show, es, depth);
    GatherKeepsLast(ks, vs, v => NestsWithin(v, MAX_DEPTH - depth));
    var r := AsDict(d);
    assert forall i :: 0 <= i < |d| ==> r.entries[i] == (Text(d[i].0, Plain), d[i].1);
    assert NestsWithin(r, MAX_DEPTH + 1 - depth) <==> AllHold(d, v => NestsWithin(v, MAX_DEPTH - depth));
  }

  lemma {:induction false} ItemsNest(show: Py -> string, xs: seq<Py>, depth: nat)
    requires depth <= MAX_DEPTH
    ensures NestsWithin(List(seq(|xs|, i requires 0 <= i < |xs| => MakeSafe(show, xs[i], depth + 1))), MAX_DEPTH + 1 - depth)
            <==> forall i :: 0 <= i < |xs| ==> EnumsNest(show, xs[i], depth + 1)
    decreases xs
  {
    var r := seq(|xs|, i requires 0 <= i < |xs| => MakeSafe(show, xs[i], depth + 1));
    forall i | 0 <= i < |xs| ensures NestsWithin(r[i], MAX_DEPTH - depth) <==> EnumsNest(show, xs[i], depth + 1) {
      NestingIsBoundedExactly(show, xs[i], depth + 1);
    }
  }

  /** Output is nested no deeper than the limit allows, at any depth, exactly when the values that
      reached enumeration members hold are not: whatever else the input nests is cut off. */
  lemma {:induction false} NestingIsBoundedExactly(show: Py -> string, x: Py, depth: nat)
    requires depth <= MAX_DEPTH + 1
    ensures NestsWithin(MakeSafe(show, x, depth), MAX_DEPTH + 1 - depth) <==> EnumsNest(show, x, depth)
    decreases x
  {
    if depth <= MAX_DEPTH {
      match x
      case Dict(es) =>
        forall i | 0 <= i < |es|
          ensures NestsWithin(MakeSafe(show, es[i].1, depth + 1), MAX_DEPTH - depth) <==> EnumsNest(show, es[i].1, depth + 1)
        {
          NestingIsBoundedExactly(show, es[i].1, depth + 1);
        }
        DictNests(show, es, depth);
      case List(xs) => ItemsNest(show, xs, depth);
      case Tuple(xs) => ItemsNest(show, xs, depth);
      case Set(xs) => ItemsNest(show, xs, depth);
      case _ =>
    }
  }

  /** A tuple in a tuple, n deep. */
  function Deep(n: nat): Py { Tuple(if n <= 1 then [] else [Deep(n - 1)]) }

  lemma {:induction false} DeepNests(n: nat, m: nat)
    requires n > 0
    ensures NestsWithin(Deep(n), m) <==> n <= m
    decreases n
  {
    if n > 1 && m > 0 {
      DeepNests(n - 1, m - 1);
      assert Deep(n).items == [Deep(n - 1)] && Deep(n).items[0] == Deep(n - 1);
    }
  }

  /** The bound is not kept by an enumeration member: its value comes out as deep as it is. */
  lemma EnumNestsDeeper(show: Py -> string, n: nat)
    requires n > MAX_DEPTH + 1
    ensures MakeSafe(show, Enum(Deep(n)), 0) == Deep(n)
    ensures !NestsWithin(MakeSafe(show, Enum(Deep(n)), 0), MAX_DEPTH + 1)
  {
    DeepNests(n, MAX_DEPTH + 1);
  }

  // ---- error codes ----

  const CODES: set<string> := {
    "VALIDATION_ERROR", "COMPILATION_ERROR", "RUNTIME_ERROR", "CORRECTNESS_ERROR", "TIMEOUT_ERROR", "SYSTEM_ERROR",
    "RESOURCE_ERROR", "UNKNOWN_ERROR", "SYNTAX_ERROR", "IMPORT_ERROR", "INSTANTIATION_ERROR"}

  predicate IsMember(x: Py) { x.Enum? || (x.Text? && !x.of.Plain?) || (x.Scalar? && x.member) }

  function ValueOf(x: Py): Py
    requires IsMember(x)
  {
    match x
    case Enum(v) => v
    case Text(s, _) => Text(s, Plain)
    case Scalar(n, _) => Scalar(n, false)
  }

  /** The enumeration member for v, or v itself when there is none. */
  function Lookup(v: Py): Py { if v.Text? && v.s in CODES then Text(v.s, CodeMember) else v }

  function CoerceErrorCode(x: Py): Py {
    if x.Text? && x.of.CodeMember? then x
    else if IsMember(x) then Lookup(ValueOf(x))
    else if x.Text? then Lookup(x)
    else x
  }

  function SerializeErrorCode(x: Py): Py { if IsMember(x) then ValueOf(x) else x }

  /** Reading back recognises a code by its text, whatever the text is a member of, and looks into a member of
      another enumeration; serialising takes a member to its value. */
  lemma CodesMean(x: Py)
    ensures x.Text? && x.s in {"VALIDATION_ERROR", "COMPILATION_ERROR", "RUNTIME_ERROR", "CORRECTNESS_ERROR",
                               "TIMEOUT_ERROR", "SYSTEM_ERROR", "RESOURCE_ERROR", "UNKNOWN_ERROR", "SYNTAX_ERROR",
                               "IMPORT_ERROR", "INSTANTIATION_ERROR"} ==>
              CoerceErrorCode(x) == Text(x.s, CodeMember) && SerializeErrorCode(CoerceErrorCode(x)) == Text(x.s, Plain)
    ensures x.Text? && x.s !in CODES && !x.of.CodeMember? ==> CoerceErrorCode(x) == Text(x.s, Plain)
    ensures x.Enum? && x.value.Text? && x.value.s in CODES ==> CoerceErrorCode(x) == Text(x.value.s, CodeMember)
    ensures x.Enum? && !(x.value.Text? && x.value.s in CODES) ==> CoerceErrorCode(x) == x.value
    ensures x.Enum? ==> SerializeErrorCode(x) == x.value
    ensures x.Text? ==> SerializeErrorCode(x) == Text(x.s, Plain)
    ensures x.Nothing? || x.Dict? || x.List? ==> CoerceErrorCode(x) == SerializeErrorCode(x) == x
  {
  }

  /** A serialised code survives being read back and serialised again exactly when it was not a member
      whose value is itself a member. */
  lemma CodeStableExactly(c: Py)
    ensures SerializeErrorCode(CoerceErrorCode(SerializeErrorCode(c))) == SerializeErrorCode(c)
            <==> !(c.Enum? && IsMember(c.value))
  {
    var s := SerializeErrorCode(c);
    if s.Enum? { assert s.value < s; }
  }

  // ---- the wire form of a result ----

  /** A result as far as its wire form is not the identity: metadata is a dictionary or None. */
  datatype Result = Result(metadata: Py, errorCode: Py, rest: int)

  predicate HasMetadata(r: Result) { r.metadata.Dict? || r.metadata.Nothing? }

  function ToDict(show: Py -> string, r: Result): Result {
    Result(if r.metadata.Dict? && r.metadata.entries != [] then MakeSafe(show, r.metadata, 0) else r.metadata,
           SerializeErrorCode(r.errorCode), r.rest)
  }

  function FromDict(d: Result): Result { d.(errorCode := CoerceErrorCode(d.errorCode)) }

  /** The wire form is stable exactly when the metadata's enumeration members hold safe values and the
      error code is not a member whose value is a member. */
  lemma WireFormStableExactly(show: Py -> string, r: Result)
    requires Shows(show) && HasMetadata(r)
    ensures ToDict(show, FromDict(ToDict(show, r))) == ToDict(show, r) <==>
            EnumsSafe(show, r.metadata, 0) && !(r.errorCode.Enum? && IsMember(r.errorCode.value))
  {
    CodeStableExactly(r.errorCode);
    IdempotentExactly(show, r.metadata, 0);
    if r.metadata.Dict? { StaysNonEmpty(show, r.metadata.entries); }
  }

  lemma StaysNonEmpty(show: Py -> string, es: seq<(Py, Py)>)
    ensures MakeSafe(show, Dict(es), 0).Dict?
    ensures es == [] ==> MakeSafe(show, Dict(es), 0) == Dict([])
    ensures es != [] ==> MakeSafe(show, Dict(es), 0).entries != []
  {
    DictForm(show, es, 0);
    if es != [] { GatherNonEmpty(KeyTexts(show, es), SafeValues(show, es, 1)); }
  }

  lemma {:induction false} GatherNonEmpty(ks: seq<string>, vs: seq<Py>)
    requires |ks| == |vs| > 0
    ensures Gather(ks, vs) != []
    decreases |ks|
  {
    if ks[0] in ks[1..] { GatherNonEmpty(ks[1..], vs[1..]); }
  }

  /** In particular for what the schema declares: an error code that is None, a string or an ErrorCode,
      and metadata whose enumeration members hold scalars or strings. */
  lemma DeclaredCodesAreStable(c: Py)
    requires c.Nothing? || c.Text?
    ensures SerializeErrorCode(CoerceErrorCode(SerializeErrorCode(c))) == SerializeErrorCode(c)
    ensures c.Text? && c.of.CodeMember? && c.s in CODES ==> CoerceErrorCode(SerializeErrorCode(c)) == c
  {
  }
}
