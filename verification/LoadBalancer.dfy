/** Round-robin selection: `WorkerLoadBalancer` of kernelgym/server/task_manager.py. */
module LoadBalancer {
  import opened Common

  type WorkerName = string

  /** One entry of `available_workers`, in registration order. */
  datatype Info = Info(id: WorkerName, online: bool, lastHeartbeat: Option<real>)

  const FRESH_FOR := 30.0

  predicate IsFresh(i: Info, now: real) {
    i.online && i.lastHeartbeat.Some? && now - i.lastHeartbeat.value <= FRESH_FOR
  }

  function Fresh(workers: seq<Info>, now: real): seq<WorkerName> {
    if workers == [] then []
    else Fresh(workers[..|workers| - 1], now)
         + (if IsFresh(workers[|workers| - 1], now) then [workers[|workers| - 1].id] else [])
  }

  /** k selections in a row while the ready workers stay the same. */
  function Picks(ready: seq<WorkerName>, index: nat, k: nat): seq<WorkerName>
    requires ready != []
    decreases k
  {
    if k == 0 then [] else [ready[index % |ready|]] + Picks(ready, (index + 1) % |ready|, k - 1)
  }

  class WorkerLoadBalancer {
    var availableWorkers: seq<Info>
    var currentIndex: nat

    constructor ()
      ensures availableWorkers == [] && currentIndex == 0
    {
      availableWorkers, currentIndex := [], 0;
    }

    method GetNextWorker(now: real) returns (worker: Option<WorkerName>)
      modifies this`currentIndex
      ensures var ready := Fresh(availableWorkers, now);
        && (ready == [] ==> worker.None? && currentIndex == old(currentIndex))
        && (ready != [] ==> worker == Some(ready[old(currentIndex) % |ready|])
                            && currentIndex == (old(currentIndex) + 1) % |ready|)
      ensures worker.Some? ==> IsReady(availableWorkers, now, worker.value)
      ensures worker.None? ==> forall w :: !IsReady(availableWorkers, now, w)
    {
      AllFresh(availableWorkers, now);
      var ready: seq<WorkerName> := [];
      var i := 0;
      while i < |availableWorkers|
        invariant 0 <= i <= |availableWorkers|
        invariant ready == Fresh(availableWorkers[..i], now)
        modifies {}
      {
        assert availableWorkers[..i + 1][..i] == availableWorkers[..i];
        if IsFresh(availableWorkers[i], now) { ready := ready + [availableWorkers[i].id]; }
        i := i + 1;
      }
      assert availableWorkers[..i] == availableWorkers;
      if ready == [] { return None; }
      worker := Some(ready[currentIndex % |ready|]);
      currentIndex := (currentIndex + 1) % |ready|;
    }

    /** Several calls in a row, at times at which the same workers are ready. */
    method GetNextWorkers(times: seq<real>, ghost ready: seq<WorkerName>) returns (picks: seq<WorkerName>)
      requires ready != [] && forall i :: 0 <= i < |times| ==> Fresh(availableWorkers, times[i]) == ready
      modifies this`currentIndex
      ensures picks == Picks(ready, old(currentIndex), |times|)
    {
      picks := [];
      var i := 0;
      while i < |times|
        invariant 0 <= i <= |times|
        invariant picks + Picks(ready, currentIndex, |times| - i) == Picks(ready, old(currentIndex), |times|)
      {
        ghost var rest := Picks(ready, (currentIndex + 1) % |ready|, |times| - i - 1);
        ghost var before := picks;
        var w := GetNextWorker(times[i]);
        picks := picks + [w.value];
        assert before + ([w.value] + rest) == picks + rest;
        i := i + 1;
      }
    }

    /** The table has one entry per worker. Over any number of calls while the same workers are ready,
        from wherever the rotation stands, only they are returned, their counts differ by at most one,
        and as many calls as there are ready workers return each exactly once. */
    method GetFairly(times: seq<real>) returns (picks: seq<WorkerName>)
      requires times != [] && OneEntryEach(availableWorkers) && Fresh(availableWorkers, times[0]) != []
      requires forall i :: 0 <= i < |times| ==> Fresh(availableWorkers, times[i]) == Fresh(availableWorkers, times[0])
      modifies this`currentIndex
      ensures |picks| == |times|
      ensures forall w :: Count(picks, w) > 0 ==> IsReady(availableWorkers, times[0], w)
      ensures forall v, w :: IsReady(availableWorkers, times[0], v) && IsReady(availableWorkers, times[0], w) ==>
                               Count(picks, v) <= Count(picks, w) + 1
      ensures |times| == |Fresh(availableWorkers, times[0])| ==>
                forall w :: IsReady(availableWorkers, times[0], w) ==> Count(picks, w) == 1
    {
      ghost var index, ready := currentIndex, Fresh(availableWorkers, times[0]);
      picks := GetNextWorkers(times, ready);
      FreshIsDistinct(availableWorkers, times[0]);
      AllFresh(availableWorkers, times[0]);
      PicksAreReady(ready, index, |times|);
      forall v, w | v in ready && w in ready ensures Count(picks, v) <= Count(picks, w) + 1 {
        CountsStayClose(ready, index, |times|, v, w);
      }
      if |times| == |ready| {
        forall w | w in ready ensures Count(picks, w) == 1 {
          EachExactlyOnce(ready, index, w);
        }
      }
    }
  }

  // ---- fairness ----

  predicate ReadyAt(workers: seq<Info>, now: real, w: WorkerName, i: int) {
    && 0 <= i < |workers| && workers[i].id == w
    && workers[i].online && workers[i].lastHeartbeat.Some? && now - workers[i].lastHeartbeat.value <= 30.0
  }

  /** The table has an entry of w that is online and was heard of in the last 30 seconds. */
  predicate IsReady(workers: seq<Info>, now: real, w: WorkerName) {
    exists i :: 0 <= i < |workers| && ReadyAt(workers, now, w, i)
  }

  ghost predicate OneEntryEach(workers: seq<Info>) {
    forall i, j :: 0 <= i < j < |workers| ==> workers[i].id != workers[j].id
  }

  lemma {:induction false} FreshMembers(workers: seq<Info>, now: real, w: WorkerName)
    ensures w in Fresh(workers, now) <==> IsReady(workers, now, w)
    decreases |workers|
  {
    if workers != [] {
      var n := |workers| - 1;
      FreshMembers(workers[..n], now, w);
      forall i | 0 <= i < n ensures ReadyAt(workers[..n], now, w, i) == ReadyAt(workers, now, w, i) {
      }
      assert w in Fresh(workers, now) <==> w in Fresh(workers[..n], now) || ReadyAt(workers, now, w, n);
    }
  }

  /** Ready workers keep the order in which they registered. */
  lemma {:induction false} FreshInOrder(workers: seq<Info>, now: real, i: nat, j: nat) returns (p: nat, q: nat)
    requires i < j < |workers| && ReadyAt(workers, now, workers[i].id, i) && ReadyAt(workers, now, workers[j].id, j)
    ensures p < q < |Fresh(workers, now)|
    ensures Fresh(workers, now)[p] == workers[i].id && Fresh(workers, now)[q] == workers[j].id
    decreases |workers|
  {
    var n := |workers| - 1;
    if j < n {
      p, q := FreshInOrder(workers[..n], now, i, j);
    } else {
      FreshMembers(workers[..n], now, workers[i].id);
      assert ReadyAt(workers[..n], now, workers[i].id, i);
      p :| 0 <= p < |Fresh(workers[..n], now)| && Fresh(workers[..n], now)[p] == workers[i].id;
      q := |Fresh(workers[..n], now)|;
    }
  }

  lemma AllFresh(workers: seq<Info>, now: real)
    ensures forall w :: w in Fresh(workers, now) <==> IsReady(workers, now, w)
  {
    forall w ensures w in Fresh(workers, now) <==> IsReady(workers, now, w) {
      FreshMembers(workers, now, w);
    }
  }

  /** The table has one entry per worker, so the ready workers are distinct. */
  lemma {:induction false} FreshIsDistinct(workers: seq<Info>, now: real)
    requires OneEntryEach(workers)
    ensures Distinct(Fresh(workers, now))
    decreases |workers|
  {
    if workers != [] {
      var n := |workers| - 1;
      FreshIsDistinct(workers[..n], now);
      FreshMembers(workers[..n], now, workers[n].id);
    }
  }

  lemma {:induction false} MulGap(a: nat, b: nat, n: nat)
    requires a < b
    ensures b * n >= a * n + n
    decreases b
  {
    MulNext(b - 1, n);
    if a + 1 < b { MulGap(a, b - 1, n); }
  }

  lemma MulNext(a: nat, n: nat)
    ensures (a + 1) * n == a * n + n
  {
  }

  lemma ModIs(x: nat, q: nat, r: nat, n: nat)
    requires 0 <= r < n && x == q * n + r
    ensures x % n == r
  {
    var q2, r2 := x / n, x % n;
    assert x == q2 * n + r2;
    if q < q2 { MulGap(q, q2, n); }
    if q2 < q { MulGap(q2, q, n); }
  }

  lemma ModNext(index: nat, n: nat)
    requires n > 0
    ensures (index + 1) % n == if index % n + 1 == n then 0 else index % n + 1
  {
    var q, r := index / n, index % n;
    assert index == q * n + r;
    if r + 1 == n {
      assert index + 1 == (q + 1) * n + 0;
      ModIs(index + 1, q + 1, 0, n);
    } else {
      ModIs(index + 1, q, r + 1, n);
    }
  }

  /** How many calls until worker number p is next. */
  function Distance(p: nat, index: nat, n: nat): (d: nat)
    requires p < n
    ensures d < n
  {
    var at := index % n;
    if p >= at then p - at else p + n - at
  }

  function Count(picks: seq<WorkerName>, w: WorkerName): nat {
    if picks == [] then 0 else (if picks[0] == w then 1 else 0) + Count(picks[1..], w)
  }

  /** Only ready workers are returned. */
  lemma {:induction false} PicksAreReady(ready: seq<WorkerName>, index: nat, k: nat)
    requires ready != []
    ensures |Picks(ready, index, k)| == k
    ensures forall w :: Count(Picks(ready, index, k), w) > 0 ==> w in ready
    decreases k
  {
    if k > 0 {
      var rest := Picks(ready, (index + 1) % |ready|, k - 1);
      assert Picks(ready, index, k)[1..] == rest;
      PicksAreReady(ready, (index + 1) % |ready|, k - 1);
    }
  }

  /** How many of k calls return a worker that is d calls away, when n calls make a round. */
  function Hits(d: nat, k: nat, n: nat): nat
    requires d < n
    decreases k
  {
    if k <= d then 0 else 1 + (if k <= n then 0 else Hits(d, k - n, n))
  }

  lemma {:induction false} HitsNext(d: nat, k: nat, n: nat)
    requires d < n && 0 < k
    ensures d > 0 ==> Hits(d, k, n) == Hits(d - 1, k - 1, n)
    ensures d == 0 ==> Hits(d, k, n) == 1 + Hits(n - 1, k - 1, n)
    decreases k
  {
    if k > n { HitsNext(d, k - n, n); }
  }

  lemma {:induction false} HitsStayClose(d: nat, e: nat, k: nat, n: nat)
    requires d < n && e < n
    ensures -1 <= Hits(d, k, n) - Hits(e, k, n) <= 1
    decreases k
  {
    if k > n { HitsStayClose(d, e, k - n, n); }
  }

  lemma {:induction false} CountIsHits(ready: seq<WorkerName>, index: nat, k: nat, p: nat)
    requires Distinct(ready) && p < |ready|
    ensures Count(Picks(ready, index, k), ready[p]) == Hits(Distance(p, index, |ready|), k, |ready|)
    decreases k
  {
    var n := |ready|;
    if k > 0 {
      var rest := Picks(ready, (index + 1) % n, k - 1);
      assert Picks(ready, index, k)[1..] == rest;
      ModNext(index, n);
      ModIs((index + 1) % n, 0, (index + 1) % n, n);
      CountIsHits(ready, (index + 1) % n, k - 1, p);
      HitsNext(Distance(p, index, n), k, n);
      assert ready[index % n] == ready[p] <==> index % n == p;
    }
  }

  /** From any starting index, n calls over n ready workers return each exactly once. */
  lemma EachExactlyOnce(ready: seq<WorkerName>, index: nat, w: WorkerName)
    requires Distinct(ready) && w in ready
    ensures Count(Picks(ready, index, |ready|), w) == 1
  {
    var p :| 0 <= p < |ready| && ready[p] == w;
    CountIsHits(ready, index, |ready|, p);
  }

  /** After any number of calls, the selection counts of two ready workers differ by at most one. */
  lemma CountsStayClose(ready: seq<WorkerName>, index: nat, k: nat, v: WorkerName, w: WorkerName)
    requires Distinct(ready) && v in ready && w in ready
    ensures -1 <= Count(Picks(ready, index, k), v) - Count(Picks(ready, index, k), w) <= 1
  {
    var n := |ready|;
    var p :| 0 <= p < n && ready[p] == v;
    var q :| 0 <= q < n && ready[q] == w;
    CountIsHits(ready, index, k, p);
    CountIsHits(ready, index, k, q);
    HitsStayClose(Distance(p, index, n), Distance(q, index, n), k, n);
  }
}
