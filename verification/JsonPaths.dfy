/**
 What normalisation does to the contents of a value: whatever is found at a path of keys and positions is
 found, normalised, at the same path of the output, and nothing else is.
 */
module JsonPaths {
  import opened Common
  import opened JsonSafe

  datatype Hop = At(i: nat) | Key(k: string)

  /** The last value under a key, as its text reads. */
  function LastOf(show: Py -> string, es: seq<(Py, Py)>, k: string): Option<Py> {
    if es == [] then None
    else
      var later := LastOf(show, es[1..], k);
      if later.Some? then later else if show(es[0].0) == k then Some(es[0].1) else None
  }

  function Child(show: Py -> string, x: Py, hop: Hop): Option<Py> {
    match hop
    case Key(k) => if x.Dict? then LastOf(show, x.entries, k) else None
    case At(i) =>
      match x
      case List(xs) => if i < |xs| then Some(xs[i]) else None
      case Tuple(xs) => if i < |xs| then Some(xs[i]) else None
      case Set(xs) => if i < |xs| then Some(xs[i]) else None
      case _ => None
  }

  function Follow(show: Py -> string, x: Py, path: seq<Hop>): Option<Py>
    decreases |path|
  {
    if path == [] then Some(x)
    else
      match Child(show, x, path[0])
      case None => None
      case Some(v) => Follow(show, v, path[1..])
  }

  /** No enumeration member is met before the end of the path; a member's value is not looked into. */
  predicate Clear(show: Py -> string, x: Py, path: seq<Hop>)
    decreases |path|
  {
    path != [] ==> !x.Enum? && (Child(show, x, path[0]).Some? ==> Clear(show, Child(show, x, path[0]).value, path[1..]))
  }

  function LastUnder(ks: seq<string>, vs: seq<Py>, k: string): Option<Py>
    requires |ks| == |vs|
  {
    if ks == [] then None
    else
      var later := LastUnder(ks[1..], vs[1..], k);
      if later.Some? then later else if ks[0] == k then Some(vs[0]) else None
  }

  lemma {:induction false} UnderSome(ks: seq<string>, vs: seq<Py>, k: string)
    requires |ks| == |vs|
    ensures LastUnder(ks, vs, k).Some? <==> k in ks
  {
    if ks != [] {
      UnderSome(ks[1..], vs[1..], k);
      assert ks == [ks[0]] + ks[1..];
    }
  }

  lemma {:induction false} GatherFinds(show: Py -> string, ks: seq<string>, vs: seq<Py>, k: string)
    requires Shows(show) && |ks| == |vs|
    ensures LastOf(show, AsDict(Gather(ks, vs)).entries, k) == LastUnder(ks, vs, k)
  {
    if ks != [] {
      GatherFinds(show, ks[1..], vs[1..], k);
      UnderSome(ks[1..], vs[1..], k);
      if ks[0] !in ks[1..] {
        var all, rest := AsDict(Gather(ks, vs)).entries, AsDict(Gather(ks[1..], vs[1..])).entries;
        assert all[0] == (Text(ks[0], Plain), vs[0]) && all[1..] == rest;
      }
    }
  }

  /** What normalisation makes of something that may be absent. */
  function SafeOption(show: Py -> string, x: Option<Py>, depth: nat): Option<Py> {
    if x.None? then None else Some(MakeSafe(show, x.value, depth))
  }

  lemma {:induction false} EntriesUnder(show: Py -> string, es: seq<(Py, Py)>, k: string, depth: nat)
    ensures LastUnder(KeyTexts(show, es), SafeValues(show, es, depth), k) == SafeOption(show, LastOf(show, es, k), depth)
  {
    if es != [] {
      EntriesUnder(show, es[1..], k, depth);
      assert KeyTexts(show, es)[1..] == KeyTexts(show, es[1..]);
      assert SafeValues(show, es, depth)[1..] == SafeValues(show, es[1..], depth);
    }
  }

  lemma ChildSurvives(show: Py -> string, x: Py, hop: Hop, depth: nat)
    requires Shows(show) && depth <= 10 && !x.Enum?
    ensures Child(show, MakeSafe(show, x, depth), hop) == SafeOption(show, Child(show, x, hop), depth + 1)
  {
    if x.Dict? && hop.Key? {
      DictForm(show, x.entries, depth);
      GatherFinds(show, KeyTexts(show, x.entries), SafeValues(show, x.entries, depth + 1), hop.k);
      EntriesUnder(show, x.entries, hop.k, depth + 1);
    }
  }

  /** Down to the depth limit, normalisation neither loses nor moves nor adds anything: at every path that
      meets no enumeration member, the output has what the input has there, normalised, and nothing where
      the input has nothing. Of equal keys the last one counts. */
  lemma {:induction false} PathsSurvive(show: Py -> string, x: Py, path: seq<Hop>, depth: nat)
    requires Shows(show) && depth + |path| <= 11 && Clear(show, x, path)
    ensures Follow(show, MakeSafe(show, x, depth), path) == SafeOption(show, Follow(show, x, path), depth + |path|)
    decreases |path|
  {
    if path != [] {
      ChildSurvives(show, x, path[0], depth);
      var v := Child(show, x, path[0]);
      if v.Some? { PathsSurvive(show, v.value, path[1..], depth + 1); }
    }
  }

  /** What there is at the end of a path: JSON scalars stay, an expression becomes its text, a container a
      list or a dictionary, anything else and everything below ten levels its text, and a member its value. */
  lemma EndOfPath(show: Py -> string, x: Py, depth: nat)
    ensures var y := MakeSafe(show, x, depth);
      if depth > 10 then y == Text(show(x), Plain)
      else
        match x
        case Nothing => y == Nothing
        case Text(s, of) => y == Text(s, of)
        case Scalar(n, member) => y == Scalar(n, member)
        case Enum(v) => y == v
        case Ast(t) => y == Text(t, Plain)
        case Dict(_) => y.Dict?
        case List(xs) => y.List? && |y.items| == |xs|
        case Tuple(xs) => y.List? && |y.items| == |xs|
        case Set(xs) => y.List? && |y.items| == |xs|
        case Other(_) => y == Text(show(x), Plain)
  {
  }
}
