/**
 The launch hook of kernelgym/toolkit/kernelbench/triton_detect.py: it patches (class, method)
 pairs through inheritance-aware lookup, stacks the originals, and puts them back with setattr.
 Attributes are plain functions; a class is its index, and `mro` lists where lookup goes.
 */
module MethodPatch {
  import opened Common

  type ClassId = nat
  type Method = string

  /** `marked` is an original that carries `_kb_patched`; a wrapper always does. */
  datatype Attr = Func(id: int, marked: bool) | NoneValue | Wrapped(orig: Attr)

  type Own = map<(ClassId, Method), Attr>

  datatype Classes = Classes(mro: seq<seq<ClassId>>, writable: set<ClassId>)

  datatype Entry = Entry(c: ClassId, m: Method, orig: Attr)

  datatype Hooked = Hooked(own: Own, stack: seq<Entry>)

  predicate Valid(k: Classes) {
    forall c :: 0 <= c < |k.mro| ==> k.mro[c] != [] && k.mro[c][0] == c && forall e :: e in k.mro[c] ==> e < |k.mro|
  }

  /** Single inheritance: what comes after a class in any lookup order is its own lookup order. */
  ghost predicate Single(k: Classes) {
    forall c, i :: 0 <= c < |k.mro| && 0 <= i < |k.mro[c]| && k.mro[c][i] < |k.mro| ==>
                     k.mro[k.mro[c][i]] == k.mro[c][i..]
  }

  /** The first class in the order that defines the method. */
  function Owner(order: seq<ClassId>, own: Own, m: Method): (r: Option<ClassId>)
    ensures r.Some? ==> r.value in order && (r.value, m) in own
    ensures r.None? ==> forall e :: e in order ==> (e, m) !in own
  {
    if order == [] then None
    else if (order[0], m) in own then Some(order[0])
    else Owner(order[1..], own, m)
  }

  /** What an attribute lookup on a class finds, None for a missing attribute. */
  function Lookup(k: Classes, own: Own, c: ClassId, m: Method): Option<Attr>
    requires c < |k.mro|
  {
    match Owner(k.mro[c], own, m)
    case None => None
    case Some(e) => Some(own[(e, m)])
  }

  predicate Marked(a: Attr) { a.Wrapped? || (a.Func? && a.marked) }

  predicate Patchable(k: Classes, own: Own, c: ClassId, m: Method)
    requires c < |k.mro|
  {
    var orig := Lookup(k, own, c, m);
    orig.Some? && !orig.value.NoneValue? && !Marked(orig.value) && c in k.writable
  }

  function PatchOne(k: Classes, s: Hooked, c: ClassId, m: Method): Hooked
    requires c < |k.mro|
  {
    if Patchable(k, s.own, c, m) then
      var orig := Lookup(k, s.own, c, m).value;
      Hooked(s.own[(c, m) := Wrapped(orig)], s.stack + [Entry(c, m, orig)])
    else s
  }

  predicate CallsOk(k: Classes, calls: seq<(ClassId, Method)>) {
    forall i :: 0 <= i < |calls| ==> calls[i].0 < |k.mro|
  }

  function PatchAll(k: Classes, s: Hooked, calls: seq<(ClassId, Method)>): Hooked
    requires CallsOk(k, calls)
    decreases |calls|
  {
    if calls == [] then s else PatchAll(k, PatchOne(k, s, calls[0].0, calls[0].1), calls[1..])
  }

  /** `setattr`, with the exception for a class that cannot be written swallowed. */
  function Written(k: Classes, own: Own, c: ClassId, m: Method, a: Attr): Own {
    if c in k.writable then own[(c, m) := a] else own
  }

  function Undo(k: Classes, own: Own, stack: seq<Entry>): Own
    decreases |stack|
  {
    if stack == [] then own
    else
      var top := stack[|stack| - 1];
      Undo(k, Written(k, own, top.c, top.m, top.orig), stack[..|stack| - 1])
  }

  // ---- what patching keeps ----

  ghost predicate Stacked(stack: seq<Entry>, c: ClassId, m: Method) {
    exists i :: 0 <= i < |stack| && stack[i].c == c && stack[i].m == m
  }

  /** No pair is stacked twice, what is stacked is the patchable lookup from before the hook, and the
      class attributes are those from before except for the wrappers. */
  ghost predicate Inv(k: Classes, before: Own, s: Hooked) {
    && (forall i, j :: 0 <= i < j < |s.stack| ==> s.stack[i].c != s.stack[j].c || s.stack[i].m != s.stack[j].m)
    && (forall i :: 0 <= i < |s.stack| ==>
          && s.stack[i].c < |k.mro| && Patchable(k, before, s.stack[i].c, s.stack[i].m)
          && Lookup(k, before, s.stack[i].c, s.stack[i].m) == Some(s.stack[i].orig)
          && (s.stack[i].c, s.stack[i].m) in s.own
          && s.own[(s.stack[i].c, s.stack[i].m)] == Wrapped(s.stack[i].orig))
    && (forall c: ClassId, m :: !Stacked(s.stack, c, m) ==>
          ((c, m) in s.own <==> (c, m) in before) && ((c, m) in before ==> s.own[(c, m)] == before[(c, m)]))
  }

  lemma {:induction false} OwnerAgrees(order: seq<ClassId>, before: Own, own: Own, m: Method)
    requires forall e :: e in order && (e, m) in before ==> (e, m) in own
    requires Owner(order, own, m).Some? ==> (Owner(order, own, m).value, m) in before
    ensures Owner(order, own, m) == Owner(order, before, m)
  {
    if order != [] {
      assert order == [order[0]] + order[1..];
      if (order[0], m) !in own { OwnerAgrees(order[1..], before, own, m); }
    }
  }

  /** Every lookup is either marked or what it was before the hook. */
  lemma LookupIsMarkedOrOriginal(k: Classes, before: Own, s: Hooked, c: ClassId, m: Method)
    requires Inv(k, before, s) && c < |k.mro|
    ensures var now := Lookup(k, s.own, c, m);
      now == Lookup(k, before, c, m) || (now.Some? && Marked(now.value))
  {
    var e := Owner(k.mro[c], s.own, m);
    if e.None? || !Stacked(s.stack, e.value, m) {
      forall x | (x, m) in before ensures (x, m) in s.own {
        if Stacked(s.stack, x, m) {
          var i :| 0 <= i < |s.stack| && s.stack[i].c == x && s.stack[i].m == m;
          assert (s.stack[i].c, s.stack[i].m) in s.own;
        }
      }
      OwnerAgrees(k.mro[c], before, s.own, m);
    }
  }

  lemma StackedSnoc(stack: seq<Entry>, x: Entry)
    ensures forall c, m :: Stacked(stack + [x], c, m) <==> Stacked(stack, c, m) || (c == x.c && m == x.m)
  {
    forall c, m ensures Stacked(stack + [x], c, m) <==> Stacked(stack, c, m) || (c == x.c && m == x.m) {
      if Stacked(stack, c, m) {
        var i :| 0 <= i < |stack| && stack[i].c == c && stack[i].m == m;
        assert (stack + [x])[i] == stack[i];
      }
      if c == x.c && m == x.m { assert (stack + [x])[|stack|] == x; }
    }
  }

  lemma PatchOneInv(k: Classes, before: Own, s: Hooked, c: ClassId, m: Method)
    requires Valid(k) && Inv(k, before, s) && c < |k.mro|
    ensures Inv(k, before, PatchOne(k, s, c, m))
  {
    if Patchable(k, s.own, c, m) {
      var orig := Lookup(k, s.own, c, m).value;
      LookupIsMarkedOrOriginal(k, before, s, c, m);
      StackedSnoc(s.stack, Entry(c, m, orig));
      if Stacked(s.stack, c, m) { StackedIsMarked(k, before, s, c, m); }
    }
  }

  lemma StackedIsMarked(k: Classes, before: Own, s: Hooked, c: ClassId, m: Method)
    requires Valid(k) && Inv(k, before, s) && Stacked(s.stack, c, m) && c < |k.mro|
    ensures !Patchable(k, s.own, c, m)
  {
    var i :| 0 <= i < |s.stack| && s.stack[i].c == c && s.stack[i].m == m;
    assert Owner(k.mro[c], s.own, m) == Some(c);
  }

  lemma {:induction false} PatchAllInv(k: Classes, before: Own, s: Hooked, calls: seq<(ClassId, Method)>)
    requires Valid(k) && Inv(k, before, s) && CallsOk(k, calls)
    ensures Inv(k, before, PatchAll(k, s, calls))
    decreases |calls|
  {
    if calls != [] {
      PatchOneInv(k, before, s, calls[0].0, calls[0].1);
      PatchAllInv(k, before, PatchOne(k, s, calls[0].0, calls[0].1), calls[1..]);
    }
  }

  // ---- what undoing restores ----

  /** Pair by pair: a stacked pair gets its original as its own attribute, the rest keep theirs. */
  lemma {:induction false} UndoAt(k: Classes, own: Own, stack: seq<Entry>, c: ClassId, m: Method)
    requires forall i :: 0 <= i < |stack| ==> stack[i].c in k.writable
    requires forall i, j :: 0 <= i < j < |stack| ==> stack[i].c != stack[j].c || stack[i].m != stack[j].m
    ensures (c, m) in Undo(k, own, stack) <==> Stacked(stack, c, m) || (c, m) in own
    ensures forall i :: 0 <= i < |stack| && stack[i].c == c && stack[i].m == m ==> Undo(k, own, stack)[(c, m)] == stack[i].orig
    ensures !Stacked(stack, c, m) && (c, m) in own ==> Undo(k, own, stack)[(c, m)] == own[(c, m)]
    decreases |stack|
  {
    if stack != [] {
      var n := |stack| - 1;
      var top := stack[n];
      assert stack == stack[..n] + [top];
      StackedSnoc(stack[..n], top);
      UndoAt(k, own[(top.c, top.m) := top.orig], stack[..n], c, m);
      assert !Stacked(stack[..n], top.c, top.m);
    }
  }

  /** The attributes after `__enter__`-style patching and `__exit__`. */
  function Restored(k: Classes, before: Own, calls: seq<(ClassId, Method)>): Own
    requires CallsOk(k, calls)
  {
    var s := PatchAll(k, Hooked(before, []), calls);
    Undo(k, s.own, s.stack)
  }

  /** Each class attribute afterwards: unchanged, or, for a stacked pair, its old lookup. */
  lemma RestoredAt(k: Classes, before: Own, calls: seq<(ClassId, Method)>, c: ClassId, m: Method)
    requires Valid(k) && CallsOk(k, calls)
    ensures var stack := PatchAll(k, Hooked(before, []), calls).stack;
      && Inv(k, before, PatchAll(k, Hooked(before, []), calls))
      && (Stacked(stack, c, m) ==>
            c < |k.mro| && (c, m) in Restored(k, before, calls)
            && Some(Restored(k, before, calls)[(c, m)]) == Lookup(k, before, c, m))
      && (!Stacked(stack, c, m) ==>
            ((c, m) in Restored(k, before, calls) <==> (c, m) in before)
            && ((c, m) in before ==> Restored(k, before, calls)[(c, m)] == before[(c, m)]))
  {
    PatchAllInv(k, before, Hooked(before, []), calls);
    var s := PatchAll(k, Hooked(before, []), calls);
    UndoAt(k, s.own, s.stack, c, m);
  }

  /** Where a class that defines a method before the hook looks it up. */
  lemma OwnLookup(k: Classes, own: Own, c: ClassId, m: Method)
    requires Valid(k) && c < |k.mro| && (c, m) in own
    ensures Lookup(k, own, c, m) == Some(own[(c, m)])
  {
  }

  /** In any hierarchy, a lookup afterwards is the old lookup of the first class in the order that
      defined the method or had it patched. */
  lemma RestoredLookup(k: Classes, before: Own, calls: seq<(ClassId, Method)>, c: ClassId, m: Method)
    requires Valid(k) && CallsOk(k, calls) && c < |k.mro|
    ensures var after := Restored(k, before, calls);
      match Owner(k.mro[c], after, m)
      case None => Lookup(k, after, c, m) == None == Lookup(k, before, c, m)
      case Some(e) => e < |k.mro| && Lookup(k, after, c, m) == Lookup(k, before, e, m)
  {
    var after := Restored(k, before, calls);
    var stack := PatchAll(k, Hooked(before, []), calls).stack;
    match Owner(k.mro[c], after, m)
    case None =>
      forall e | e in k.mro[c] ensures (e, m) !in before {
        RestoredAt(k, before, calls, e, m);
      }
    case Some(e) =>
      RestoredAt(k, before, calls, e, m);
      if !Stacked(stack, e, m) { OwnLookup(k, before, e, m); }
  }

  lemma {:induction false} OwnerSuffix(order: seq<ClassId>, before: Own, after: Own, m: Method) returns (i: nat)
    requires Owner(order, after, m).Some? && forall e :: (e, m) in before ==> (e, m) in after
    ensures i < |order| && order[i] == Owner(order, after, m).value
    ensures Owner(order, before, m) == Owner(order[i..], before, m)
  {
    if (order[0], m) in after {
      i := 0;
      assert order[0..] == order;
    } else {
      i := OwnerSuffix(order[1..], before, after, m);
      i := i + 1;
      assert order[i..] == order[1..][i - 1..];
    }
  }

  /** With single inheritance, exit makes every lookup on every class, patched or not, what it was
      before enter, whatever pairs were patched in whatever order. */
  lemma ExitRestoresLookup(k: Classes, before: Own, calls: seq<(ClassId, Method)>, c: ClassId, m: Method)
    requires Valid(k) && Single(k) && CallsOk(k, calls) && c < |k.mro|
    ensures Lookup(k, Restored(k, before, calls), c, m) == Lookup(k, before, c, m)
  {
    var after := Restored(k, before, calls);
    RestoredLookup(k, before, calls, c, m);
    if Owner(k.mro[c], after, m).Some? {
      forall e | (e, m) in before ensures (e, m) in after {
        RestoredAt(k, before, calls, e, m);
      }
      var i := OwnerSuffix(k.mro[c], before, after, m);
      assert k.mro[k.mro[c][i]] == k.mro[c][i..];
    }
  }

  /** The class at place i of the order would be patched although no class up to it defines m. */
  predicate InheritedPatch(k: Classes, own: Own, order: seq<ClassId>, i: nat, m: Method)
    requires i < |order|
  {
    && (forall j :: 0 <= j <= i ==> (order[j], m) !in own)
    && order[i] < |k.mro| && Patchable(k, own, order[i], m)
  }

  /** Every such class resolves m as class c does. */
  predicate InheritsAlike(k: Classes, own: Own, c: ClassId, m: Method)
    requires Valid(k) && c < |k.mro|
  {
    forall i :: 0 <= i < |k.mro[c]| && InheritedPatch(k, own, k.mro[c], i, m) ==>
      Lookup(k, own, k.mro[c][i], m) == Lookup(k, own, c, m)
  }

  /** The first class with m, by its place in the order. */
  lemma {:induction false} OwnerPlace(order: seq<ClassId>, own: Own, m: Method) returns (i: nat)
    requires Owner(order, own, m).Some?
    ensures i < |order| && order[i] == Owner(order, own, m).value
    ensures forall j :: 0 <= j < i ==> (order[j], m) !in own
  {
    if (order[0], m) in own {
      i := 0;
    } else {
      i := OwnerPlace(order[1..], own, m);
      i := i + 1;
      assert forall j :: 0 < j < i ==> order[j] == order[1..][j - 1];
    }
  }

  /** Patching one inherited method and undoing it leaves the class that inherited it as its owner. */
  lemma OnePatchRestored(k: Classes, before: Own, e: ClassId, m: Method)
    requires Valid(k) && e < |k.mro| && Patchable(k, before, e, m)
    ensures CallsOk(k, [(e, m)])
    ensures Restored(k, before, [(e, m)]) == before[(e, m) := Lookup(k, before, e, m).value]
  {
    var orig := Lookup(k, before, e, m).value;
    OneCall(k, Hooked(before, []), e, m);
    assert [] + [Entry(e, m, orig)] == [Entry(e, m, orig)];
    OneUndone(k, before[(e, m) := Wrapped(orig)], Entry(e, m, orig));
    assert before[(e, m) := Wrapped(orig)][(e, m) := orig] == before[(e, m) := orig];
  }

  lemma OneCall(k: Classes, s: Hooked, e: ClassId, m: Method)
    requires e < |k.mro|
    ensures CallsOk(k, [(e, m)]) && PatchAll(k, s, [(e, m)]) == PatchOne(k, s, e, m)
  {
    assert [(e, m)][1..] == [];
    assert PatchAll(k, s, [(e, m)]) == PatchAll(k, PatchOne(k, s, e, m), []);
  }

  lemma OneUndone(k: Classes, own: Own, top: Entry)
    requires top.c in k.writable
    ensures Undo(k, own, [top]) == own[(top.c, top.m) := top.orig]
  {
    assert [top][..0] == [];
    assert Undo(k, own, [top]) == Undo(k, own[(top.c, top.m) := top.orig], []);
  }

  lemma {:induction false} FirstOwnerAt(order: seq<ClassId>, own: Own, m: Method, i: nat)
    requires i < |order| && (order[i], m) in own && forall j :: 0 <= j < i ==> (order[j], m) !in own || order[j] == order[i]
    ensures Owner(order, own, m) == Some(order[i])
  {
    if i > 0 && order[0] != order[i] {
      assert forall j :: 0 < j < |order| ==> order[1..][j - 1] == order[j];
      FirstOwnerAt(order[1..], own, m, i - 1);
    }
  }

  /** A class that would be patched ahead of where c finds m makes one call after which c sees it. */
  lemma InheritedPatchShows(k: Classes, before: Own, c: ClassId, m: Method, i: nat)
    requires Valid(k) && c < |k.mro| && i < |k.mro[c]| && InheritedPatch(k, before, k.mro[c], i, m)
    ensures CallsOk(k, [(k.mro[c][i], m)])
    ensures Lookup(k, Restored(k, before, [(k.mro[c][i], m)]), c, m) == Lookup(k, before, k.mro[c][i], m)
  {
    var e := k.mro[c][i];
    OnePatchRestored(k, before, e, m);
    FirstOwnerAt(k.mro[c], Restored(k, before, [(e, m)]), m, i);
  }

  /** Where the classes inherit alike, no calls whatever change the lookup. */
  lemma AlikeIsRestored(k: Classes, before: Own, calls: seq<(ClassId, Method)>, c: ClassId, m: Method)
    requires Valid(k) && CallsOk(k, calls) && c < |k.mro| && InheritsAlike(k, before, c, m)
    ensures Lookup(k, Restored(k, before, calls), c, m) == Lookup(k, before, c, m)
  {
    var after := Restored(k, before, calls);
    RestoredLookup(k, before, calls, c, m);
    if Owner(k.mro[c], after, m).Some? {
      var i := OwnerPlace(k.mro[c], after, m);
      var e := k.mro[c][i];
      forall j | 0 <= j < i ensures (k.mro[c][j], m) !in before {
        RestoredAt(k, before, calls, k.mro[c][j], m);
      }
      RestoredAt(k, before, calls, e, m);
      if (e, m) in before {
        FirstOwnerAt(k.mro[c], before, m, i);
        OwnLookup(k, before, e, m);
      } else {
        assert InheritedPatch(k, before, k.mro[c], i, m);
      }
    }
  }

  /** In any hierarchy, decided before the hook: exit restores what class c sees as m, whatever was
      patched, exactly when no class of its order that could be patched before any class up to it
      defines m resolves m differently. */
  lemma ExitRestoresExactly(k: Classes, before: Own, c: ClassId, m: Method)
    requires Valid(k) && c < |k.mro|
    ensures (forall calls :: CallsOk(k, calls) ==> Lookup(k, Restored(k, before, calls), c, m) == Lookup(k, before, c, m))
            <==> InheritsAlike(k, before, c, m)
  {
    if InheritsAlike(k, before, c, m) {
      forall calls | CallsOk(k, calls)
        ensures Lookup(k, Restored(k, before, calls), c, m) == Lookup(k, before, c, m)
      {
        AlikeIsRestored(k, before, calls, c, m);
      }
    } else {
      var i :| 0 <= i < |k.mro[c]| && InheritedPatch(k, before, k.mro[c], i, m)
               && Lookup(k, before, k.mro[c][i], m) != Lookup(k, before, c, m);
      InheritedPatchShows(k, before, c, m, i);
    }
  }

  /** Two runs in a row: besides, no class of the order that could be written before any class up to it
      defines m can come, through an inherited patch in its own order, to resolve m differently. */
  ghost predicate StaysAlike(k: Classes, own: Own, c: ClassId, m: Method)
    requires Valid(k) && c < |k.mro|
  {
    && InheritsAlike(k, own, c, m)
    && forall i, j {:trigger StrayPatch(k, own, k.mro[c], i, j, m)} :: StrayPatch(k, own, k.mro[c], i, j, m) ==>
         Lookup(k, own, k.mro[k.mro[c][i]][j], m) == Lookup(k, own, c, m)
  }

  /** A class of the order of order[i], but not of the order so far, that would be patched by inheritance. */
  predicate StrayPatch(k: Classes, own: Own, order: seq<ClassId>, i: int, j: int, m: Method) {
    && 0 <= i < |order| && order[i] < |k.mro| && order[i] in k.writable
    && (forall x :: 0 <= x <= i ==> (order[x], m) !in own)
    && 0 <= j < |k.mro[order[i]]| && InheritedPatch(k, own, k.mro[order[i]], j, m)
    && k.mro[order[i]][j] !in order[..i + 1]
  }

  /** A stray patch is left behind by one run, makes a class of c's order patchable, and so shows in c
      after the next. */
  lemma StrayPatchShows(k: Classes, before: Own, c: ClassId, m: Method, i: nat, j: nat)
    requires Valid(k) && c < |k.mro| && StrayPatch(k, before, k.mro[c], i, j, m)
    ensures var e, f := k.mro[c][i], k.mro[k.mro[c][i]][j];
      && CallsOk(k, [(f, m)]) && CallsOk(k, [(e, m)])
      && Lookup(k, Restored(k, Restored(k, before, [(f, m)]), [(e, m)]), c, m) == Lookup(k, before, f, m)
  {
    var e := k.mro[c][i];
    var f := k.mro[e][j];
    OnePatchRestored(k, before, f, m);
    var between := Restored(k, before, [(f, m)]);
    assert between == before[(f, m) := Lookup(k, before, f, m).value];
    FirstOwnerAt(k.mro[e], between, m, j);
    forall x | 0 <= x <= i ensures (k.mro[c][x], m) !in between {
      assert k.mro[c][x] in k.mro[c][..i + 1];
    }
    InheritedPatchShows(k, between, c, m, i);
  }

  /** What an inherited patch of the second run finds is what c sees. */
  lemma StillAlike(k: Classes, before: Own, calls: seq<(ClassId, Method)>, c: ClassId, m: Method)
    requires Valid(k) && CallsOk(k, calls) && c < |k.mro| && StaysAlike(k, before, c, m)
    ensures InheritsAlike(k, Restored(k, before, calls), c, m)
  {
    var after := Restored(k, before, calls);
    AlikeIsRestored(k, before, calls, c, m);
    forall i | 0 <= i < |k.mro[c]| && InheritedPatch(k, after, k.mro[c], i, m)
      ensures Lookup(k, after, k.mro[c][i], m) == Lookup(k, after, c, m)
    {
      forall x | 0 <= x <= i ensures (k.mro[c][x], m) !in before {
        RestoredAt(k, before, calls, k.mro[c][x], m);
      }
      StillAlikeAt(k, before, calls, c, m, i);
    }
  }

  lemma StillAlikeAt(k: Classes, before: Own, calls: seq<(ClassId, Method)>, c: ClassId, m: Method, i: nat)
    requires Valid(k) && CallsOk(k, calls) && c < |k.mro| && StaysAlike(k, before, c, m)
    requires i < |k.mro[c]| && InheritedPatch(k, Restored(k, before, calls), k.mro[c], i, m)
    requires forall x :: 0 <= x <= i ==> (k.mro[c][x], m) !in before
    ensures Lookup(k, Restored(k, before, calls), k.mro[c][i], m) == Lookup(k, before, c, m)
  {
    var after, e := Restored(k, before, calls), k.mro[c][i];
    RestoredLookup(k, before, calls, e, m);
    var j := OwnerPlace(k.mro[e], after, m);
    var f := k.mro[e][j];
    forall x | 0 <= x < j ensures (k.mro[e][x], m) !in before {
      RestoredAt(k, before, calls, k.mro[e][x], m);
    }
    RestoredAt(k, before, calls, f, m);
    if (f, m) in before {
      FirstOwnerAt(k.mro[e], before, m, j);
      OwnLookup(k, before, f, m);
      assert InheritedPatch(k, before, k.mro[c], i, m);
    } else {
      assert StrayPatch(k, before, k.mro[c], i, j, m);
    }
  }

  /** In any hierarchy, decided before the hook: two runs in a row, whatever each patches, leave what
      class c sees as m as it was, exactly when this holds. */
  lemma TwoExitsRestoreExactly(k: Classes, before: Own, c: ClassId, m: Method)
    requires Valid(k) && c < |k.mro|
    ensures (forall first, second :: CallsOk(k, first) && CallsOk(k, second) ==>
               Lookup(k, Restored(k, Restored(k, before, first), second), c, m) == Lookup(k, before, c, m))
            <==> StaysAlike(k, before, c, m)
  {
    if StaysAlike(k, before, c, m) {
      forall first, second | CallsOk(k, first) && CallsOk(k, second)
        ensures Lookup(k, Restored(k, Restored(k, before, first), second), c, m) == Lookup(k, before, c, m)
      {
        AlikeIsRestored(k, before, first, c, m);
        StillAlike(k, before, first, c, m);
        AlikeIsRestored(k, Restored(k, before, first), second, c, m);
      }
    } else if InheritsAlike(k, before, c, m) {
      var i, j :| StrayPatch(k, before, k.mro[c], i, j, m)
                  && Lookup(k, before, k.mro[k.mro[c][i]][j], m) != Lookup(k, before, c, m);
      StrayPatchShows(k, before, c, m, i, j);
    } else {
      var i :| 0 <= i < |k.mro[c]| && InheritedPatch(k, before, k.mro[c], i, m)
               && Lookup(k, before, k.mro[c][i], m) != Lookup(k, before, c, m);
      InheritedPatchShows(k, before, c, m, i);
      NothingPatched(k, Restored(k, before, [(k.mro[c][i], m)]));
    }
  }

  lemma NothingPatched(k: Classes, before: Own)
    ensures CallsOk(k, []) && Restored(k, before, []) == before
  {
  }

  /** The class attributes themselves are restored exactly when no inherited method was patched:
      an inherited one is left behind as the class's own. */
  lemma ExitRestoresAttributesExactly(k: Classes, before: Own, calls: seq<(ClassId, Method)>)
    requires Valid(k) && CallsOk(k, calls)
    ensures Restored(k, before, calls) == before <==>
            forall c: ClassId, m :: Stacked(PatchAll(k, Hooked(before, []), calls).stack, c, m) ==> (c, m) in before
  {
    var after := Restored(k, before, calls);
    var stack := PatchAll(k, Hooked(before, []), calls).stack;
    forall c: ClassId, m | Stacked(stack, c, m) ensures (c, m) in after {
      RestoredAt(k, before, calls, c, m);
    }
    if forall c: ClassId, m :: Stacked(stack, c, m) ==> (c, m) in before {
      forall key | key in before || key in after
        ensures key in before && key in after && after[key] == before[key]
      {
        RestoredAt(k, before, calls, key.0, key.1);
        if Stacked(stack, key.0, key.1) { OwnLookup(k, before, key.0, key.1); }
      }
      assert after == before;
    }
  }

  /** Decided before the hook: the attributes survive every detection exactly when no class could have
      an inherited method patched. */
  lemma AttributesSurviveExactly(k: Classes, before: Own)
    requires Valid(k)
    ensures (forall calls :: CallsOk(k, calls) ==> Restored(k, before, calls) == before)
            <==> forall c: ClassId, m :: c < |k.mro| && Patchable(k, before, c, m) ==> (c, m) in before
  {
    if forall c: ClassId, m :: c < |k.mro| && Patchable(k, before, c, m) ==> (c, m) in before {
      forall calls | CallsOk(k, calls) ensures Restored(k, before, calls) == before {
        PatchAllInv(k, before, Hooked(before, []), calls);
        ExitRestoresAttributesExactly(k, before, calls);
      }
    } else {
      var c: ClassId, m :| c < |k.mro| && Patchable(k, before, c, m) && (c, m) !in before;
      OnePatchRestored(k, before, c, m);
      assert (c, m) in Restored(k, before, [(c, m)]);
    }
  }

  /** D(B, C) over A: classes 3, 1, 2 and 0. */
  ghost predicate Diamond(k: Classes) {
    && Valid(k) && |k.mro| == 4 && k.writable == {0, 1, 2, 3}
    && k.mro[0] == [0] && k.mro[1] == [1, 0] && k.mro[2] == [2, 0] && k.mro[3] == [3, 1, 2, 0]
  }

  /** A and C define the method. */
  ghost predicate DiamondMethods(own: Own, m: Method) {
    && (0, m) in own && own[(0, m)] == Func(1, false) && (2, m) in own && own[(2, m)] == Func(2, false)
    && (1, m) !in own && (3, m) !in own
  }

  lemma SomeDiamond(m: Method) returns (k: Classes, own: Own)
    ensures Diamond(k) && DiamondMethods(own, m)
  {
    k := Classes([[0], [1, 0], [2, 0], [3, 1, 2, 0]], {0, 1, 2, 3});
    own := map[(0, m) := Func(1, false), (2, m) := Func(2, false)];
  }

  lemma DiamondIsNotSingle(k: Classes)
    requires Diamond(k)
    ensures !Single(k)
  {
    var order := k.mro[3];
    assert order[1] == 1 && |order[1..]| == 3 && |k.mro[order[1]]| == 2;
  }

  /** Patching the method B inherits from A and undoing it hides the definition D used to get from C. */
  lemma DiamondLosesLookup(m: Method) returns (k: Classes, own: Own)
    ensures Diamond(k) && DiamondMethods(own, m) && !Single(k)
    ensures CallsOk(k, [(1, m)])
    ensures Lookup(k, own, 3, m) == Some(Func(2, false))
    ensures Lookup(k, Restored(k, own, [(1, m)]), 3, m) == Some(Func(1, false))
  {
    k, own := SomeDiamond(m);
    DiamondIsNotSingle(k);
    DiamondLookups(k, own, m);
    assert k.mro[3][1] == 1;
    InheritedPatchShows(k, own, 3, m, 1);
  }

  lemma DiamondLookups(k: Classes, own: Own, m: Method)
    requires Diamond(k) && DiamondMethods(own, m)
    ensures Lookup(k, own, 3, m) == Some(Func(2, false)) && Lookup(k, own, 1, m) == Some(Func(1, false))
    ensures InheritedPatch(k, own, k.mro[3], 1, m)
  {
    FirstOwnerAt(k.mro[3], own, m, 2);
    FirstOwnerAt(k.mro[1], own, m, 1);
  }

  /** Class 3 is a D(B, C) over A with the orders of a diamond, class 6 inherits from it and from class
      5, which puts a class of its own before those of the diamond. */
  ghost predicate Lattice(k: Classes) {
    && Valid(k) && |k.mro| == 7 && k.writable == {2, 3}
    && k.mro[6] == [6, 3, 5, 4, 2, 1, 0] && k.mro[3] == [3, 2, 1, 0] && k.mro[2] == [2, 0]
  }

  /** A, the class before the diamond, and C, which sets it to None, define the method. */
  ghost predicate LatticeMethods(own: Own, m: Method) {
    && (0, m) in own && own[(0, m)] == Func(3, false)
    && (1, m) in own && own[(1, m)].NoneValue?
    && (4, m) in own && own[(4, m)] == Func(1, false)
    && (2, m) !in own && (3, m) !in own && (5, m) !in own && (6, m) !in own
  }

  lemma SomeLattice(m: Method) returns (k: Classes, own: Own)
    ensures Lattice(k) && LatticeMethods(own, m)
  {
    k := Classes([[0], [1, 0], [2, 0], [3, 2, 1, 0], [4], [5, 4, 2, 0], [6, 3, 5, 4, 2, 1, 0]], {2, 3});
    own := map[(0, m) := Func(3, false), (1, m) := NoneValue, (4, m) := Func(1, false)];
  }

  lemma LatticeLookups(k: Classes, own: Own, m: Method)
    requires Lattice(k) && LatticeMethods(own, m)
    ensures Lookup(k, own, 6, m) == Some(Func(1, false)) && Lookup(k, own, 2, m) == Some(Func(3, false))
    ensures Lookup(k, own, 3, m) == Some(NoneValue)
  {
    FirstOwnerAt(k.mro[6], own, m, 3);
    FirstOwnerAt(k.mro[3], own, m, 2);
    FirstOwnerAt(k.mro[2], own, m, 1);
  }

  /** One run restores every lookup of class 6, whatever it patches; two runs need not: class 3, which
      saw the method set to None, comes to see the one that the first run left on class 2. */
  lemma SecondRunLosesLookup(m: Method) returns (k: Classes, own: Own)
    ensures Valid(k) && |k.mro| == 7 && InheritsAlike(k, own, 6, m)
    ensures CallsOk(k, [(2, m)]) && CallsOk(k, [(3, m)])
    ensures Lookup(k, own, 6, m) == Some(Func(1, false))
    ensures Lookup(k, Restored(k, Restored(k, own, [(2, m)]), [(3, m)]), 6, m) == Some(Func(3, false))
  {
    k, own := SomeLattice(m);
    LatticeLookups(k, own, m);
    LatticeAlike(k, own, m);
    assert k.mro[6][1] == 3 && k.mro[3][1] == 2;
    LatticeStray(k, own, m);
    StrayPatchShows(k, own, 6, m, 1, 1);
  }

  lemma LatticeAlike(k: Classes, own: Own, m: Method)
    requires Lattice(k) && LatticeMethods(own, m)
    ensures InheritsAlike(k, own, 6, m)
  {
    LatticeLookups(k, own, m);
    var order := k.mro[6];
    forall i | 0 <= i < |order| ensures !InheritedPatch(k, own, order, i, m) {
      assert order[i] in k.writable ==> i == 1 || i == 4;
      assert i == 4 ==> (order[3], m) in own;
    }
  }

  lemma LatticeStray(k: Classes, own: Own, m: Method)
    requires Lattice(k) && LatticeMethods(own, m)
    ensures StrayPatch(k, own, k.mro[6], 1, 1, m)
  {
    LatticeLookups(k, own, m);
    assert k.mro[6][..2] == [6, 3];
  }

  // ---- the objects ----

  /** The classes Triton has loaded, shared by everything that patches them. */
  class ClassSpace {
    const k: Classes
    var own: Own

    constructor (k: Classes, own: Own)
      ensures this.k == k && this.own == own
    {
      this.k, this.own := k, own;
    }

    /** `setattr`, which raises on a class that cannot be written. */
    method SetAttr(c: ClassId, m: Method, a: Attr) returns (ok: bool)
      modifies this
      ensures ok == (c in k.writable)
      ensures own == Written(k, old(own), c, m, a)
    {
      ok := c in k.writable;
      if ok { own := own[(c, m) := a]; }
    }
  }

  /** The classes the resolvers found. */
  datatype Resolved = Resolved(
    jitFunction: Option<ClassId>, autotunedKernel: Option<ClassId>, autotuner: Option<ClassId>,
    cudaKernel: Option<ClassId>, cudaKernels: seq<ClassId>, hipKernels: seq<ClassId>,
    kernelInterfaces: seq<ClassId>, launchers: seq<ClassId>)

  const JIT_METHODS := ["launch", "run", "__call__", "__getitem__"]
  const TUNED_METHODS := ["__call__", "run", "launch", "__getitem__"]
  const KERNEL_METHODS := ["__call__", "run", "launch"]
  const LAUNCHER_METHODS := ["__call__", "launch"]

  function OnClass(c: ClassId, methods: seq<Method>): seq<(ClassId, Method)> {
    seq(|methods|, i requires 0 <= i < |methods| => (c, methods[i]))
  }

  function OnOptional(c: Option<ClassId>, methods: seq<Method>): seq<(ClassId, Method)> {
    if c.None? then [] else OnClass(c.value, methods)
  }

  function OnEach(cs: seq<ClassId>, methods: seq<Method>): seq<(ClassId, Method)> {
    if cs == [] then [] else OnEach(cs[..|cs| - 1], methods) + OnClass(cs[|cs| - 1], methods)
  }

  lemma EachSnoc(calls: seq<(ClassId, Method)>, cs: seq<ClassId>, i: nat, methods: seq<Method>)
    requires i < |cs|
    ensures calls + OnEach(cs[..i + 1], methods) == calls + OnEach(cs[..i], methods) + OnClass(cs[i], methods)
  {
    assert cs[..i + 1][..i] == cs[..i];
    assert OnEach(cs[..i + 1], methods) == OnEach(cs[..i], methods) + OnClass(cs[i], methods);
  }

  /** Every (class, method) pair `__enter__` tries, in order. */
  function Plan(r: Resolved): seq<(ClassId, Method)> {
    OnOptional(r.jitFunction, JIT_METHODS) + OnOptional(r.autotunedKernel, TUNED_METHODS)
    + OnOptional(r.autotuner, TUNED_METHODS) + OnOptional(r.cudaKernel, KERNEL_METHODS)
    + OnEach(r.cudaKernels, KERNEL_METHODS) + OnEach(r.hipKernels, KERNEL_METHODS)
    + OnEach(r.kernelInterfaces, TUNED_METHODS) + OnEach(r.launchers, LAUNCHER_METHODS)
  }

  class TritonKernelLaunchHook {
    const space: ClassSpace
    var origMethods: seq<Entry>
    var enabled: bool

    function View(): Hooked
      reads this, space
    {
      Hooked(space.own, origMethods)
    }

    constructor (space: ClassSpace)
      ensures this.space == space && origMethods == [] && !enabled
    {
      this.space, origMethods, enabled := space, [], false;
    }

    method PatchMethod(c: ClassId, m: Method)
      requires c < |space.k.mro|
      modifies this`origMethods, space
      ensures View() == PatchOne(space.k, old(View()), c, m)
      ensures match Lookup(space.k, old(space.own), c, m)
              case Some(Func(id, false)) =>
                if c in space.k.writable
                then space.own == old(space.own)[(c, m) := Wrapped(Func(id, false))]
                     && origMethods == old(origMethods) + [Entry(c, m, Func(id, false))]
                else View() == old(View())
              case _ => View() == old(View())
    {
      var orig := Lookup(space.k, space.own, c, m);
      if orig.None? || orig.value.NoneValue? { return; }
      if Marked(orig.value) { return; }
      var ok := space.SetAttr(c, m, Wrapped(orig.value));
      if !ok { return; }
      origMethods := origMethods + [Entry(c, m, orig.value)];
    }

    method PatchClass(c: ClassId, methods: seq<Method>, ghost calls: seq<(ClassId, Method)>, ghost start: Hooked)
      requires c < |space.k.mro| && CallsOk(space.k, calls) && View() == PatchAll(space.k, start, calls)
      modifies this`origMethods, space
      ensures CallsOk(space.k, calls + OnClass(c, methods))
      ensures View() == PatchAll(space.k, start, calls + OnClass(c, methods))
    {
      var i := 0;
      assert calls + OnClass(c, methods[..0]) == calls;
      while i < |methods|
        invariant 0 <= i <= |methods|
        invariant CallsOk(space.k, calls + OnClass(c, methods[..i]))
        invariant View() == PatchAll(space.k, start, calls + OnClass(c, methods[..i]))
      {
        PatchMethod(c, methods[i]);
        PatchSnoc(space.k, start, calls + OnClass(c, methods[..i]), c, methods[i]);
        assert calls + OnClass(c, methods[..i + 1]) == calls + OnClass(c, methods[..i]) + [(c, methods[i])];
        i := i + 1;
      }
      assert methods[..i] == methods;
    }

    method PatchEach(cs: seq<ClassId>, methods: seq<Method>, ghost calls: seq<(ClassId, Method)>, ghost start: Hooked)
      requires KnownEach(space.k, cs)
      requires CallsOk(space.k, calls) && View() == PatchAll(space.k, start, calls)
      modifies this`origMethods, space
      ensures CallsOk(space.k, calls + OnEach(cs, methods))
      ensures View() == PatchAll(space.k, start, calls + OnEach(cs, methods))
    {
      var i := 0;
      assert calls + OnEach(cs[..0], methods) == calls;
      while i < |cs|
        invariant 0 <= i <= |cs|
        invariant CallsOk(space.k, calls + OnEach(cs[..i], methods))
        invariant View() == PatchAll(space.k, start, calls + OnEach(cs[..i], methods))
      {
        PatchClass(cs[i], methods, calls + OnEach(cs[..i], methods), start);
        EachSnoc(calls, cs, i, methods);
        i := i + 1;
      }
      assert cs[..i] == cs;
    }

    method PatchOptional(c: Option<ClassId>, methods: seq<Method>, ghost calls: seq<(ClassId, Method)>, ghost start: Hooked)
      requires c.Some? ==> c.value < |space.k.mro|
      requires CallsOk(space.k, calls) && View() == PatchAll(space.k, start, calls)
      modifies this`origMethods, space
      ensures CallsOk(space.k, calls + OnOptional(c, methods))
      ensures View() == PatchAll(space.k, start, calls + OnOptional(c, methods))
    {
      if c.Some? {
        PatchClass(c.value, methods, calls, start);
      } else {
        assert calls + [] == calls;
      }
    }

    method Enter(r: Resolved)
      requires Known(space.k, r)
      modifies this, space
      ensures CallsOk(space.k, Plan(r)) && enabled
      ensures View() == PatchAll(space.k, old(View()), Plan(r))
      ensures Valid(space.k) ==> EntryPointsCovered(space.k, space.own, r)
    {
      ghost var start := View();
      PatchOptional(r.jitFunction, JIT_METHODS, [], start);
      ghost var c1 := [] + OnOptional(r.jitFunction, JIT_METHODS);
      PatchOptional(r.autotunedKernel, TUNED_METHODS, c1, start);
      ghost var c2 := c1 + OnOptional(r.autotunedKernel, TUNED_METHODS);
      PatchOptional(r.autotuner, TUNED_METHODS, c2, start);
      ghost var c3 := c2 + OnOptional(r.autotuner, TUNED_METHODS);
      PatchOptional(r.cudaKernel, KERNEL_METHODS, c3, start);
      ghost var c4 := c3 + OnOptional(r.cudaKernel, KERNEL_METHODS);
      PatchEach(r.cudaKernels, KERNEL_METHODS, c4, start);
      ghost var c5 := c4 + OnEach(r.cudaKernels, KERNEL_METHODS);
      PatchEach(r.hipKernels, KERNEL_METHODS, c5, start);
      ghost var c6 := c5 + OnEach(r.hipKernels, KERNEL_METHODS);
      PatchEach(r.kernelInterfaces, TUNED_METHODS, c6, start);
      ghost var c7 := c6 + OnEach(r.kernelInterfaces, TUNED_METHODS);
      PatchEach(r.launchers, LAUNCHER_METHODS, c7, start);
      assert [] + OnOptional(r.jitFunction, JIT_METHODS) == OnOptional(r.jitFunction, JIT_METHODS);
      assert c7 + OnEach(r.launchers, LAUNCHER_METHODS) == Plan(r);
      if Valid(space.k) { PlanCovers(space.k, start, r); }
      enabled := true;
    }

    method Exit()
      modifies this, space
      ensures !enabled
      ensures !old(enabled) ==> View() == old(View())
      ensures old(enabled) ==> origMethods == [] && space.own == Undo(space.k, old(space.own), old(origMethods))
    {
      if !enabled { return; }
      var n := |origMethods|;
      assert origMethods[..n] == origMethods;
      while n > 0
        invariant 0 <= n <= |origMethods|
        invariant Undo(space.k, space.own, origMethods[..n]) == Undo(space.k, old(space.own), origMethods)
        modifies space
      {
        n := n - 1;
        assert origMethods[..n + 1][..n] == origMethods[..n];
        var ok := space.SetAttr(origMethods[n].c, origMethods[n].m, origMethods[n].orig);
      }
      assert origMethods[..0] == [];
      origMethods := [];
      enabled := false;
    }
  }

  ghost predicate SameLookups(k: Classes, a: Own, b: Own) {
    forall c: ClassId, m {:trigger Lookup(k, a, c, m)} :: c < |k.mro| ==> Lookup(k, a, c, m) == Lookup(k, b, c, m)
  }

  /** One detection run: enter, let the kernel run, exit. */
  method RunDetection(space: ClassSpace, r: Resolved)
    requires Valid(space.k) && Known(space.k, r)
    modifies space
    ensures CallsOk(space.k, Plan(r)) && space.own == Restored(space.k, old(space.own), Plan(r))
    ensures Single(space.k) ==> SameLookups(space.k, space.own, old(space.own))
    ensures forall c: ClassId, m :: c < |space.k.mro| && InheritsAlike(space.k, old(space.own), c, m) ==>
              Lookup(space.k, space.own, c, m) == Lookup(space.k, old(space.own), c, m)
  {
    ghost var before := space.own;
    var hook := new TritonKernelLaunchHook(space);
    hook.Enter(r);
    hook.Exit();
    if Single(space.k) { SingleRestores(space.k, before, Plan(r)); }
    forall c: ClassId, m | c < |space.k.mro| && InheritsAlike(space.k, before, c, m)
      ensures Lookup(space.k, space.own, c, m) == Lookup(space.k, before, c, m)
    {
      AlikeIsRestored(space.k, before, Plan(r), c, m);
    }
  }

  lemma SingleRestores(k: Classes, before: Own, calls: seq<(ClassId, Method)>)
    requires Valid(k) && Single(k) && CallsOk(k, calls)
    ensures SameLookups(k, Restored(k, before, calls), before)
  {
    forall c: ClassId, m | c < |k.mro| ensures Lookup(k, Restored(k, before, calls), c, m) == Lookup(k, before, c, m) {
      ExitRestoresLookup(k, before, calls, c, m);
    }
  }

  lemma SameTwice(k: Classes, a: Own, b: Own, d: Own)
    requires SameLookups(k, a, b) && SameLookups(k, b, d)
    ensures SameLookups(k, a, d)
  {
    forall c: ClassId, m | c < |k.mro| ensures Lookup(k, a, c, m) == Lookup(k, d, c, m) {
      assert Lookup(k, a, c, m) == Lookup(k, b, c, m);
    }
  }

  /** The two runs of a detection, without and with gradients, each resolving the classes anew. Whatever
      the resolvers find, every lookup on every class is as before under single inheritance, and so is,
      in any hierarchy, each one that stays alike. */
  method DetectTritonUsage(space: ClassSpace, first: Resolved, second: Resolved)
    requires Valid(space.k) && Known(space.k, first) && Known(space.k, second)
    modifies space
    ensures Single(space.k) ==> SameLookups(space.k, space.own, old(space.own))
    ensures forall c: ClassId, m :: c < |space.k.mro| && StaysAlike(space.k, old(space.own), c, m) ==>
              Lookup(space.k, space.own, c, m) == Lookup(space.k, old(space.own), c, m)
  {
    ghost var before := space.own;
    RunDetection(space, first);
    ghost var between := space.own;
    RunDetection(space, second);
    if Single(space.k) { SameTwice(space.k, space.own, between, before); }
    forall c: ClassId, m | c < |space.k.mro| && StaysAlike(space.k, before, c, m)
      ensures Lookup(space.k, space.own, c, m) == Lookup(space.k, before, c, m)
    {
      TwoExitsRestoreExactly(space.k, before, c, m);
    }
  }

  predicate Known(k: Classes, r: Resolved) {
    && (forall c :: c in {r.jitFunction, r.autotunedKernel, r.autotuner, r.cudaKernel} && c.Some? ==> c.value < |k.mro|)
    && KnownEach(k, r.cudaKernels) && KnownEach(k, r.hipKernels)
    && KnownEach(k, r.kernelInterfaces) && KnownEach(k, r.launchers)
  }

  predicate KnownEach(k: Classes, cs: seq<ClassId>) { forall i :: 0 <= i < |cs| ==> cs[i] < |k.mro| }

  lemma {:induction false} PatchSnoc(k: Classes, s: Hooked, calls: seq<(ClassId, Method)>, c: ClassId, m: Method)
    requires CallsOk(k, calls) && c < |k.mro|
    ensures CallsOk(k, calls + [(c, m)])
    ensures PatchAll(k, s, calls + [(c, m)]) == PatchOne(k, PatchAll(k, s, calls), c, m)
    decreases |calls|
  {
    if calls == [] {
      assert [] + [(c, m)] == [(c, m)] && [(c, m)][1..] == [];
    } else {
      assert (calls + [(c, m)])[1..] == calls[1..] + [(c, m)];
      PatchSnoc(k, PatchOne(k, s, calls[0].0, calls[0].1), calls[1..], c, m);
    }
  }

  // ---- every entry point is covered while the hook is on ----

  /** The method is missing, cannot be patched, or is patched as seen from this class. */
  predicate Settled(k: Classes, own: Own, c: ClassId, m: Method)
    requires c < |k.mro|
  {
    !Patchable(k, own, c, m)
  }

  lemma {:induction false} OwnerAdds(order: seq<ClassId>, own: Own, e: ClassId, m: Method, n: Method, a: Attr)
    ensures var r := Owner(order, own[(e, n) := a], m);
      (r.Some? && m == n && r.value == e) || (r == Owner(order, own, m) && (r.Some? && m == n ==> r.value != e))
  {
    if order != [] { OwnerAdds(order[1..], own, e, m, n, a); }
  }

  lemma SettledStays(k: Classes, s: Hooked, c: ClassId, m: Method, e: ClassId, n: Method)
    requires c < |k.mro| && e < |k.mro| && Settled(k, s.own, c, m)
    ensures Settled(k, PatchOne(k, s, e, n).own, c, m)
  {
    if Patchable(k, s.own, e, n) {
      OwnerAdds(k.mro[c], s.own, e, m, n, Wrapped(Lookup(k, s.own, e, n).value));
    }
  }

  lemma PatchSettles(k: Classes, s: Hooked, c: ClassId, m: Method)
    requires Valid(k) && c < |k.mro|
    ensures Settled(k, PatchOne(k, s, c, m).own, c, m)
  {
    if Patchable(k, s.own, c, m) { OwnLookup(k, PatchOne(k, s, c, m).own, c, m); }
  }

  lemma {:induction false} SettledByPlan(k: Classes, s: Hooked, calls: seq<(ClassId, Method)>, c: ClassId, m: Method)
    requires Valid(k) && CallsOk(k, calls) && c < |k.mro|
    requires Settled(k, s.own, c, m) || (c, m) in calls
    ensures Settled(k, PatchAll(k, s, calls).own, c, m)
    decreases |calls|
  {
    if calls != [] {
      var (e, n) := calls[0];
      assert calls == [calls[0]] + calls[1..];
      if (e, n) == (c, m) {
        PatchSettles(k, s, c, m);
      } else if Settled(k, s.own, c, m) {
        SettledStays(k, s, c, m, e, n);
      }
      SettledByPlan(k, PatchOne(k, s, e, n), calls[1..], c, m);
    }
  }

  /** Calling the method on an instance of c does not get past the hook unnoticed: it is missing, or None,
      or carries the hook's mark, or belongs to a class that cannot be written. */
  predicate Covered(k: Classes, own: Own, c: ClassId, m: Method)
    requires c < |k.mro|
  {
    match Lookup(k, own, c, m)
    case None => true
    case Some(NoneValue) => true
    case Some(Wrapped(_)) => true
    case Some(Func(_, marked)) => marked || c !in k.writable
  }

  predicate CoveredOn(k: Classes, own: Own, c: ClassId, methods: set<Method>)
    requires c < |k.mro|
  {
    forall m :: m in methods ==> Covered(k, own, c, m)
  }

  predicate CoveredOnEach(k: Classes, own: Own, cs: seq<ClassId>, methods: set<Method>)
    requires KnownEach(k, cs)
  {
    forall i :: 0 <= i < |cs| ==> CoveredOn(k, own, cs[i], methods)
  }

  /** The ways to launch a kernel, class by class. */
  predicate EntryPointsCovered(k: Classes, own: Own, r: Resolved)
    requires Known(k, r)
  {
    && (r.jitFunction.Some? ==> CoveredOn(k, own, r.jitFunction.value, {"launch", "run", "__call__", "__getitem__"}))
    && (r.autotunedKernel.Some? ==> CoveredOn(k, own, r.autotunedKernel.value, {"launch", "run", "__call__", "__getitem__"}))
    && (r.autotuner.Some? ==> CoveredOn(k, own, r.autotuner.value, {"launch", "run", "__call__", "__getitem__"}))
    && (r.cudaKernel.Some? ==> CoveredOn(k, own, r.cudaKernel.value, {"launch", "run", "__call__"}))
    && CoveredOnEach(k, own, r.cudaKernels, {"launch", "run", "__call__"})
    && CoveredOnEach(k, own, r.hipKernels, {"launch", "run", "__call__"})
    && CoveredOnEach(k, own, r.kernelInterfaces, {"launch", "run", "__call__", "__getitem__"})
    && CoveredOnEach(k, own, r.launchers, {"launch", "__call__"})
  }

  /** The calls try all of these methods on the class. */
  predicate TriesOn(calls: seq<(ClassId, Method)>, c: ClassId, methods: set<Method>) {
    forall m :: m in methods ==> (c, m) in calls
  }

  lemma TriedIsCovered(k: Classes, s: Hooked, calls: seq<(ClassId, Method)>, c: ClassId, methods: set<Method>)
    requires Valid(k) && CallsOk(k, calls) && c < |k.mro| && TriesOn(calls, c, methods)
    ensures CoveredOn(k, PatchAll(k, s, calls).own, c, methods)
  {
    forall m | m in methods ensures Covered(k, PatchAll(k, s, calls).own, c, m) {
      SettledByPlan(k, s, calls, c, m);
    }
  }

  lemma OnClassHas(c: ClassId, methods: seq<Method>)
    ensures TriesOn(OnClass(c, methods), c, set m | m in methods)
  {
    forall m | m in methods ensures (c, m) in OnClass(c, methods) {
      var i :| 0 <= i < |methods| && methods[i] == m;
      assert OnClass(c, methods)[i] == (c, m);
    }
  }

  lemma {:induction false} OnEachHas(cs: seq<ClassId>, methods: seq<Method>, c: ClassId)
    requires c in cs
    ensures TriesOn(OnEach(cs, methods), c, set m | m in methods)
    decreases |cs|
  {
    var n := |cs| - 1;
    assert cs == cs[..n] + [cs[n]];
    if c == cs[n] { OnClassHas(c, methods); } else { OnEachHas(cs[..n], methods, c); }
  }

  lemma MethodSets()
    ensures (set m | m in JIT_METHODS) == {"launch", "run", "__call__", "__getitem__"}
    ensures (set m | m in TUNED_METHODS) == {"launch", "run", "__call__", "__getitem__"}
    ensures (set m | m in KERNEL_METHODS) == {"launch", "run", "__call__"}
    ensures (set m | m in LAUNCHER_METHODS) == {"launch", "__call__"}
  {
  }

  lemma OptionalCovered(k: Classes, s: Hooked, calls: seq<(ClassId, Method)>, c: Option<ClassId>, methods: seq<Method>)
    requires Valid(k) && CallsOk(k, calls) && (c.Some? ==> c.value < |k.mro|)
    requires forall call :: call in OnOptional(c, methods) ==> call in calls
    ensures c.Some? ==> CoveredOn(k, PatchAll(k, s, calls).own, c.value, set m | m in methods)
  {
    if c.Some? {
      OnClassHas(c.value, methods);
      TriedIsCovered(k, s, calls, c.value, set m | m in methods);
    }
  }

  lemma EachCovered(k: Classes, s: Hooked, calls: seq<(ClassId, Method)>, cs: seq<ClassId>, methods: seq<Method>)
    requires Valid(k) && CallsOk(k, calls) && KnownEach(k, cs)
    requires forall call :: call in OnEach(cs, methods) ==> call in calls
    ensures CoveredOnEach(k, PatchAll(k, s, calls).own, cs, set m | m in methods)
  {
    forall i | 0 <= i < |cs| ensures CoveredOn(k, PatchAll(k, s, calls).own, cs[i], set m | m in methods) {
      OnEachHas(cs, methods, cs[i]);
      TriedIsCovered(k, s, calls, cs[i], set m | m in methods);
    }
  }

  /** After entering, every launch method of every class the resolvers found is covered. */
  lemma PlanCovers(k: Classes, s: Hooked, r: Resolved)
    requires Valid(k) && Known(k, r) && CallsOk(k, Plan(r))
    ensures EntryPointsCovered(k, PatchAll(k, s, Plan(r)).own, r)
  {
    MethodSets();
    OptionalCovered(k, s, Plan(r), r.jitFunction, JIT_METHODS);
    OptionalCovered(k, s, Plan(r), r.autotunedKernel, TUNED_METHODS);
    OptionalCovered(k, s, Plan(r), r.autotuner, TUNED_METHODS);
    OptionalCovered(k, s, Plan(r), r.cudaKernel, KERNEL_METHODS);
    EachCovered(k, s, Plan(r), r.cudaKernels, KERNEL_METHODS);
    EachCovered(k, s, Plan(r), r.hipKernels, KERNEL_METHODS);
    EachCovered(k, s, Plan(r), r.kernelInterfaces, TUNED_METHODS);
    EachCovered(k, s, Plan(r), r.launchers, LAUNCHER_METHODS);
  }
}
