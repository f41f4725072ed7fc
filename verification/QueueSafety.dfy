/** What every run of the task queue keeps. */
module QueueSafety {
  import opened Common
  import opened QueueSpec
  import opened QueueProtocol

  // ---- every submitted id is in exactly one place ----

  function ItemIds(items: seq<Item>): seq<TaskId> { seq(|items|, i requires 0 <= i < |items| => items[i].id) }

  function DeliveredIds(d: seq<Delivery>): seq<TaskId> { seq(|d|, i requires 0 <= i < |d| => d[i].id) }

  /** The ids an agent has popped and not yet put anywhere. */
  function HandOf(g: Agent): seq<TaskId> {
    match g
    case Taking(_, _) => []
    case Fetching(_, id) => [id]
    case Marking(_, id, _) => [id]
    case Scanning(_, _, _, keep, requeue) => keep + ItemIds(requeue)
    case Looking(_, _, _, keep, requeue, id) => keep + ItemIds(requeue) + [id]
    case PuttingBack(_, _, keep, requeue) => keep + ItemIds(requeue)
    case Requeuing(_, _, requeue) => ItemIds(requeue)
    case Pushing(_, _, item, requeue) => [item.id] + ItemIds(requeue)
  }

  function Contents(s: State, k: Place): seq<TaskId> {
    match k
    case InQueue(q) => ListOf(s.redis, q)
    case InHand(a) => if a in s.agents then HandOf(s.agents[a]) else []
    case Delivered => DeliveredIds(s.delivered)
    case Lost => s.lost
  }

  ghost predicate ContainerOk(s: State, k: Place) {
    Distinct(Contents(s, k)) && forall id :: id in Contents(s, k) ==> id in s.place && s.place[id] == k
  }

  predicate Backed(s: State, id: TaskId)
    requires id in s.place
  {
    id in Contents(s, s.place[id])
  }

  ghost predicate PlacesOk(s: State) {
    && s.place.Keys == s.submitted.Keys
    && (forall k {:trigger ContainerOk(s, k)} :: ContainerOk(s, k))
    && (forall id {:trigger Backed(s, id)} :: id in s.place ==> Backed(s, id))
  }

  /** No id leaves or enters a container; order inside one may change. */
  lemma SamePlaces(s: State, t: State)
    requires PlacesOk(s) && t.place == s.place && t.submitted == s.submitted
    requires forall k {:trigger Contents(t, k)} ::
               Distinct(Contents(t, k)) && forall j :: j in Contents(t, k) <==> j in Contents(s, k)
    ensures PlacesOk(t)
  {
    forall k ensures ContainerOk(t, k) {
      assert ContainerOk(s, k);
      assert forall j :: j in Contents(t, k) <==> j in Contents(s, k);
    }
    forall id | id in t.place ensures Backed(t, id) {
      assert Backed(s, id);
      assert forall j :: j in Contents(t, t.place[id]) <==> j in Contents(s, t.place[id]);
    }
  }

  /** One id moves from container x to container y. */
  lemma MovedPlaces(s: State, t: State, id: TaskId, x: Place, y: Place)
    requires PlacesOk(s) && id in s.place && s.place[id] == x && x != y
    requires t.place == s.place[id := y] && t.submitted == s.submitted
    requires forall k {:trigger Contents(t, k)} :: k != x && k != y ==> Contents(t, k) == Contents(s, k)
    requires Distinct(Contents(t, x)) && forall j :: j in Contents(t, x) <==> j in Contents(s, x) && j != id
    requires Distinct(Contents(t, y)) && forall j :: j in Contents(t, y) <==> j in Contents(s, y) || j == id
    ensures PlacesOk(t)
  {
    forall k ensures ContainerOk(t, k) {
      assert ContainerOk(s, k) && ContainerOk(s, x);
    }
    forall j | j in t.place ensures Backed(t, j) {
      assert Backed(s, j);
    }
  }

  /** A new id appears in container y. */
  lemma ArrivedPlaces(s: State, t: State, id: TaskId, y: Place)
    requires PlacesOk(s) && id !in s.place
    requires t.place == s.place[id := y] && t.submitted.Keys == s.submitted.Keys + {id}
    requires forall k {:trigger Contents(t, k)} :: k != y ==> Contents(t, k) == Contents(s, k)
    requires Distinct(Contents(t, y)) && forall j :: j in Contents(t, y) <==> j in Contents(s, y) || j == id
    ensures PlacesOk(t)
  {
    forall k ensures ContainerOk(t, k) {
      assert ContainerOk(s, k);
    }
    forall j | j in t.place ensures Backed(t, j) {
      assert j != id ==> Backed(s, j);
    }
  }

  // ---- what the hashes and hands contain ----

  /** The task is as submitted, but for the assignment and queue-timeout fields. */
  predicate SameTask(p: Payload, submitted: Payload) {
    p.(assignedTo := submitted.assignedTo, timeoutReason := submitted.timeoutReason,
       timeoutAt := submitted.timeoutAt) == submitted
  }

  /** The hash of a task that still belongs to the queue of worker w. */
  predicate OwnedBy(s: State, id: TaskId, w: WorkerName) {
    && id in s.redis.tasks && w != ""
    && s.redis.tasks[id].data.Some? && s.redis.tasks[id].data.value.assignedTo == w
    && s.redis.tasks[id].assignedTo == w && s.redis.tasks[id].assignedAt.Some?
  }

  predicate Unowned(s: State, id: TaskId) {
    id in s.redis.tasks && s.redis.tasks[id].data.Some? && s.redis.tasks[id].data.value.assignedTo == ""
  }

  /** Judged while owned, and for having waited too long: the stale branch is never the reason. */
  predicate Overdue(cfg: Settings, item: Item) {
    && item.reason == "queue_wait_timeout" && item.w != ""
    && item.snapshot.data.Some? && item.snapshot.data.value.assignedTo == item.w == item.snapshot.assignedTo
    && item.snapshot.assignedAt.Some?
    && Judge(cfg, item.snapshot, item.w, item.now) == TimedOut
  }

  predicate ItemOk(cfg: Settings, s: State, item: Item, w: WorkerName) {
    && OwnedBy(s, item.id, w) && item.w == w && Overdue(cfg, item)
    && item.snapshot.data == s.redis.tasks[item.id].data
    && item.snapshot.priority == s.redis.tasks[item.id].priority
  }

  ghost predicate KeepOk(s: State, keep: seq<TaskId>, w: WorkerName) {
    forall i :: 0 <= i < |keep| ==> OwnedBy(s, keep[i], w)
  }

  ghost predicate ItemsOk(cfg: Settings, s: State, items: seq<Item>, w: WorkerName) {
    forall i :: 0 <= i < |items| ==> ItemOk(cfg, s, items[i], w)
  }

  ghost predicate AgentOk(cfg: Settings, s: State, g: Agent) {
    match g
    case Taking(_, _) => true
    case Fetching(w, id) => id in s.redis.tasks && s.redis.tasks[id].data.Some?
                            && s.redis.tasks[id].data.value.assignedTo in {"", w}
    case Marking(w, id, payload) => id in s.redis.tasks && s.redis.tasks[id].data == Some(payload)
                                    && payload.assignedTo in {"", w}
    case Scanning(w, _, _, keep, requeue) => KeepOk(s, keep, w) && ItemsOk(cfg, s, requeue, w)
    case Looking(w, _, _, keep, requeue, id) => KeepOk(s, keep, w) && ItemsOk(cfg, s, requeue, w) && OwnedBy(s, id, w)
    case PuttingBack(w, _, keep, requeue) => KeepOk(s, keep, w) && ItemsOk(cfg, s, requeue, w)
    case Requeuing(w, _, requeue) => ItemsOk(cfg, s, requeue, w)
    case Pushing(w, _, item, requeue) =>
      && ItemsOk(cfg, s, requeue, w) && Unowned(s, item.id) && Overdue(cfg, item)
      && item.snapshot.priority == s.redis.tasks[item.id].priority
  }

  predicate IdOk(s: State, id: TaskId)
    requires id in s.submitted && id in s.place
  {
    && id in s.redis.tasks && s.redis.tasks[id].data.Some?
    && SameTask(s.redis.tasks[id].data.value, s.submitted[id].payload)
    && s.redis.tasks[id].priority == Some(ClassOf(s.submitted[id]))
    && (s.place[id].InQueue? && s.place[id].q.Own? ==> OwnedBy(s, id, s.place[id].q.w))
    && (s.place[id].InQueue? && s.place[id].q.Class? ==> Unowned(s, id) && s.place[id].q.p == ClassOf(s.submitted[id]))
  }

  /** Past the worker queues: a requeued task is in a priority queue, with a taker, or delivered. */
  predicate PastWorkerQueue(s: State, id: TaskId) {
    && id in s.place
    && match s.place[id]
       case InQueue(q) => q.Class?
       case InHand(a) => a in s.agents && s.agents[a].IsTaker()
       case Delivered => true
       case Lost => false
  }

  ghost predicate DataOk(cfg: Settings, s: State) {
    && (forall id {:trigger IdOk(s, id)} :: id in s.submitted && id in s.place ==> IdOk(s, id))
    && (forall a {:trigger AgentOk(cfg, s, s.agents[a])} :: a in s.agents ==> AgentOk(cfg, s, s.agents[a]))
  }

  /** Delivered payloads are the submitted tasks, and an assigned task went to its worker. */
  ghost predicate DeliveriesOk(s: State) {
    forall i :: 0 <= i < |s.delivered| ==>
      && s.delivered[i].id in s.submitted
      && SameTask(s.delivered[i].payload, s.submitted[s.delivered[i].id].payload)
      && s.delivered[i].payload.assignedTo in {"", s.delivered[i].w}
  }

  ghost predicate RequeuesOk(cfg: Settings, s: State) {
    && Distinct(ItemIds(s.requeued))
    && (forall i :: 0 <= i < |s.requeued| ==> Overdue(cfg, s.requeued[i]))
    && (forall i :: 0 <= i < |s.requeued| ==> PastWorkerQueue(s, s.requeued[i].id))
  }

  /** What was popped from a class, then what is queued there oldest first, is what was pushed. */
  predicate ClassOk(s: State, p: Priority) {
    History(s.pushed, p) == History(s.popped, p) + OldestFirst(s.redis, Class(p))
  }

  ghost predicate ClassesOk(s: State) { forall p {:trigger ClassOk(s, p)} :: ClassOk(s, p) }

  ghost predicate HistoryOk(cfg: Settings, s: State) { DeliveriesOk(s) && RequeuesOk(cfg, s) && ClassesOk(s) }

  ghost predicate Inv(cfg: Settings, s: State) { PlacesOk(s) && DataOk(cfg, s) && HistoryOk(cfg, s) }

  lemma InitialInv(cfg: Settings)
    ensures Inv(cfg, INITIAL)
  {
    assert forall k :: Contents(INITIAL, k) == [];
    forall k ensures ContainerOk(INITIAL, k) {
    }
  }

  // ---- places, event by event ----

  /** Every submitted id has a hash, so it is never accepted twice. */
  lemma SubmittedHasHash(cfg: Settings, s: State, id: TaskId)
    requires PlacesOk(s) && DataOk(cfg, s) && id in s.place
    ensures id in s.redis.tasks
  {
    assert IdOk(s, id);
  }

  lemma SubmitPlaces(cfg: Settings, s: State, req: Request, now: real)
    requires PlacesOk(s) && (req.id in s.place ==> req.id in s.redis.tasks)
    ensures PlacesOk(SubmitStep(cfg, s, req, now))
  {
    var t := SubmitStep(cfg, s, req, now);
    if SubmitStatus(cfg, s.redis, req).Accepted? {
      var y := InQueue(TargetOf(req));
      assert ContainerOk(s, y);
      assert Contents(t, y) == [req.id] + Contents(s, y);
      ArrivedPlaces(s, t, req.id, y);
    } else {
      assert t == s;
    }
  }

  lemma PopFacts(r: Redis, q: QueueKey)
    requires ListOf(r, q) != [] && Distinct(ListOf(r, q))
    ensures RPop(r, q).1.Some? && RPop(r, q).1.value in ListOf(r, q)
    ensures Distinct(ListOf(RPop(r, q).0, q))
    ensures forall j :: j in ListOf(RPop(r, q).0, q) <==> j in ListOf(r, q) && j != RPop(r, q).1.value
    ensures ListOf(r, q) == ListOf(RPop(r, q).0, q) + [RPop(r, q).1.value]
    ensures forall x :: x != q ==> ListOf(RPop(r, q).0, x) == ListOf(r, x)
    ensures RPop(r, q).0.tasks == r.tasks && RPop(r, q).0.results == r.results
  {
    var l := ListOf(r, q);
    assert l == l[..|l| - 1] + [l[|l| - 1]];
  }

  /** The oldest id of q moves to container y. */
  lemma PoppedPlaces(s: State, t: State, q: QueueKey, id: TaskId, y: Place)
    requires PlacesOk(s) && ListOf(s.redis, q) != [] && RPop(s.redis, q).1 == Some(id) && y != InQueue(q)
    requires t.redis == RPop(s.redis, q).0 && t.place == s.place[id := y] && t.submitted == s.submitted
    requires forall k {:trigger Contents(t, k)} :: k != y && !k.InQueue? ==> Contents(t, k) == Contents(s, k)
    requires Contents(t, y) == Contents(s, y) + [id] && !y.InQueue?
    ensures PlacesOk(t)
  {
    assert ContainerOk(s, InQueue(q)) && ContainerOk(s, y);
    PopFacts(s.redis, q);
    assert id in Contents(s, InQueue(q));
    MovedPlaces(s, t, id, InQueue(q), y);
  }

  lemma TakePopPlaces(s: State, a: AgentId)
    requires PlacesOk(s) && Enabled(s, TakePop(a))
    ensures PlacesOk(TakePopStep(s, a))
  {
    var t := TakePopStep(s, a);
    var g := s.agents[a];
    if g.next < 4 && ListOf(s.redis, Choice(g.w, g.next)) != [] {
      var q := Choice(g.w, g.next);
      var id := RPop(s.redis, q).1.value;
      assert HandOf(t.agents[a]) == HandOf(g) + [id];
      PoppedPlaces(s, t, q, id, InHand(a));
    } else {
      forall k ensures Distinct(Contents(t, k)) && Contents(t, k) == Contents(s, k) {
        assert ContainerOk(s, k);
      }
      SamePlaces(s, t);
    }
  }

  lemma MonitorPopPlaces(s: State, a: AgentId)
    requires PlacesOk(s) && Enabled(s, MonitorPop(a))
    ensures PlacesOk(MonitorPopStep(s, a))
  {
    var t := MonitorPopStep(s, a);
    var g := s.agents[a];
    var id := RPop(s.redis, Own(g.w)).1;
    if g.budget == 0 || id.None? {
      forall k ensures Distinct(Contents(t, k)) && Contents(t, k) == Contents(s, k) {
        assert ContainerOk(s, k);
      }
      SamePlaces(s, t);
    } else if id.value == "" {
      PoppedPlaces(s, t, Own(g.w), "", Lost);
    } else {
      assert HandOf(t.agents[a]) == HandOf(g) + [id.value];
      PoppedPlaces(s, t, Own(g.w), id.value, InHand(a));
    }
  }

  lemma MarkPlaces(s: State, a: AgentId, now: real)
    requires PlacesOk(s) && Enabled(s, TakeMark(a, now))
    ensures PlacesOk(TakeMarkStep(s, a, now))
  {
    var t := TakeMarkStep(s, a, now);
    var g := s.agents[a];
    assert ContainerOk(s, InHand(a)) && ContainerOk(s, Delivered);
    assert g.id in Contents(s, InHand(a));
    assert Contents(t, Delivered) == Contents(s, Delivered) + [g.id];
    MovedPlaces(s, t, g.id, InHand(a), Delivered);
  }

  lemma PutBackPlaces(s: State, a: AgentId)
    requires PlacesOk(s) && Enabled(s, MonitorPutBack(a))
    ensures PlacesOk(MonitorPutBackStep(s, a))
  {
    var t := MonitorPutBackStep(s, a);
    var g := s.agents[a];
    assert ContainerOk(s, InHand(a));
    if g.keep == [] {
      assert Contents(t, InHand(a)) == Contents(s, InHand(a));
      forall k ensures Distinct(Contents(t, k)) && Contents(t, k) == Contents(s, k) {
        assert ContainerOk(s, k);
      }
      SamePlaces(s, t);
    } else {
      var n := |g.keep| - 1;
      var id := g.keep[n];
      var y := InQueue(Own(g.w));
      var hand := Contents(s, InHand(a));
      assert hand[n] == id;
      assert Contents(t, InHand(a)) == hand[..n] + hand[n + 1..];
      RemovedAt(hand, n);
      assert ContainerOk(s, y);
      assert Contents(t, y) == Contents(s, y) + [id];
      MovedPlaces(s, t, id, InHand(a), y);
    }
  }

  lemma RemovedAt(l: seq<TaskId>, n: nat)
    requires Distinct(l) && n < |l|
    ensures Distinct(l[..n] + l[n + 1..])
    ensures forall j :: j in l[..n] + l[n + 1..] <==> j in l && j != l[n]
  {
    assert l == l[..n] + [l[n]] + l[n + 1..];
  }

  lemma PushPlaces(s: State, a: AgentId)
    requires PlacesOk(s) && Enabled(s, MonitorPush(a))
    ensures PlacesOk(MonitorPushStep(s, a))
  {
    var t := MonitorPushStep(s, a);
    var g := s.agents[a];
    var y := InQueue(RequeueClass(g.item.snapshot));
    var hand := Contents(s, InHand(a));
    assert ContainerOk(s, InHand(a)) && ContainerOk(s, y);
    assert hand[0] == g.item.id && g.item.id in hand;
    RemovedAt(hand, 0);
    assert Contents(t, InHand(a)) == hand[..0] + hand[1..];
    assert Contents(t, y) == [g.item.id] + Contents(s, y);
    MovedPlaces(s, t, g.item.id, InHand(a), y);
  }

  /** Reading and judging: the hand keeps the same ids, in another order. */
  lemma LookPlaces(cfg: Settings, s: State, a: AgentId)
    requires PlacesOk(s) && Enabled(s, MonitorLook(a)) && s.agents[a].id in s.redis.tasks
    ensures PlacesOk(MonitorLookStep(cfg, s, a))
  {
    var t := MonitorLookStep(cfg, s, a);
    var g := s.agents[a];
    assert ContainerOk(s, InHand(a));
    var K, R, L := g.keep, ItemIds(g.requeue), [g.id];
    assert Contents(s, InHand(a)) == K + R + L;
    var h := t.agents[a];
    if h.keep == g.keep {
      assert ItemIds(h.requeue) == R + L;
      assert Contents(t, InHand(a)) == K + R + L;
    } else {
      assert Contents(t, InHand(a)) == K + L + R;
      Rotated(K, R, L);
    }
    forall k
      ensures Distinct(Contents(t, k)) && forall j :: j in Contents(t, k) <==> j in Contents(s, k)
    {
      assert ContainerOk(s, k);
      if k != InHand(a) { assert Contents(t, k) == Contents(s, k); }
    }
    SamePlaces(s, t);
  }

  lemma Rotated(k: seq<TaskId>, r: seq<TaskId>, l: seq<TaskId>)
    requires Distinct(k + r + l)
    ensures Distinct(k + l + r)
    ensures forall j :: j in k + l + r <==> j in k + r + l
  {
    var x, y := k + r + l, k + l + r;
    var from := (i: int) => if i < |k| then i else if i < |k| + |l| then i + |r| else i - |l|;
    assert forall i :: 0 <= i < |y| ==> 0 <= from(i) < |x| && y[i] == x[from(i)];
    forall i, j | 0 <= i < j < |y| ensures y[i] != y[j] {
      assert from(i) != from(j);
      assert from(i) < from(j) || from(j) < from(i);
    }
    assert forall j :: j in x <==> j in k || j in r || j in l;
    assert forall j :: j in y <==> j in k || j in r || j in l;
  }

  lemma UnassignPlaces(s: State, a: AgentId)
    requires PlacesOk(s) && Enabled(s, MonitorUnassign(a))
    ensures PlacesOk(MonitorUnassignStep(s, a))
  {
    var t := MonitorUnassignStep(s, a);
    var g := s.agents[a];
    if g.requeue != [] {
      assert ItemIds(g.requeue) == [g.requeue[0].id] + ItemIds(g.requeue[1..]);
    }
    assert Contents(t, InHand(a)) == Contents(s, InHand(a));
    forall k ensures Distinct(Contents(t, k)) && Contents(t, k) == Contents(s, k) {
      assert ContainerOk(s, k);
    }
    SamePlaces(s, t);
  }

  lemma FetchPlaces(s: State, a: AgentId)
    requires PlacesOk(s) && Enabled(s, TakeFetch(a)) && HashOf(s.redis, s.agents[a].id).data.Some?
    ensures PlacesOk(TakeFetchStep(s, a))
  {
    var t := TakeFetchStep(s, a);
    forall k ensures Distinct(Contents(t, k)) && Contents(t, k) == Contents(s, k) {
      assert ContainerOk(s, k);
    }
    SamePlaces(s, t);
  }

  lemma StepPlaces(cfg: Settings, s: State, e: Event)
    requires Inv(cfg, s) && Enabled(s, e)
    ensures PlacesOk(Apply(cfg, s, e))
  {
    match e
    case SubmitTask(req, now) =>
      if req.id in s.place { SubmittedHasHash(cfg, s, req.id); }
      SubmitPlaces(cfg, s, req, now);
    case TakePop(a) => TakePopPlaces(s, a);
    case MonitorPop(a) => MonitorPopPlaces(s, a);
    case TakeMark(a, now) => MarkPlaces(s, a, now);
    case MonitorPutBack(a) => PutBackPlaces(s, a);
    case MonitorPush(a) => PushPlaces(s, a);
    case MonitorUnassign(a) => UnassignPlaces(s, a);
    case MonitorLook(a) =>
      assert AgentOk(cfg, s, s.agents[a]);
      LookPlaces(cfg, s, a);
    case TakeFetch(a) =>
      assert AgentOk(cfg, s, s.agents[a]);
      FetchPlaces(s, a);
    case _ =>
      var t := Apply(cfg, s, e);
      forall k ensures Distinct(Contents(t, k)) && Contents(t, k) == Contents(s, k) {
        assert ContainerOk(s, k);
      }
      SamePlaces(s, t);
  }

  // ---- hashes and hands, event by event ----

  /** The fields the monitor and the takers rely on. */
  predicate SameCore(s: State, t: State, id: TaskId) {
    id in s.redis.tasks ==>
      && id in t.redis.tasks
      && t.redis.tasks[id].data == s.redis.tasks[id].data
      && t.redis.tasks[id].priority == s.redis.tasks[id].priority
      && t.redis.tasks[id].assignedTo == s.redis.tasks[id].assignedTo
      && t.redis.tasks[id].assignedAt == s.redis.tasks[id].assignedAt
  }

  lemma KeepFrame(s: State, t: State, keep: seq<TaskId>, w: WorkerName)
    requires KeepOk(s, keep, w) && forall id :: id in keep ==> SameCore(s, t, id)
    ensures KeepOk(t, keep, w)
  {
    forall i | 0 <= i < |keep| ensures OwnedBy(t, keep[i], w) {
      assert OwnedBy(s, keep[i], w) && keep[i] in keep;
    }
  }

  lemma ItemsFrame(cfg: Settings, s: State, t: State, items: seq<Item>, w: WorkerName)
    requires ItemsOk(cfg, s, items, w) && forall id :: id in ItemIds(items) ==> SameCore(s, t, id)
    ensures ItemsOk(cfg, t, items, w)
  {
    forall i | 0 <= i < |items| ensures ItemOk(cfg, t, items[i], w) {
      assert ItemOk(cfg, s, items[i], w) && ItemIds(items)[i] in ItemIds(items);
    }
  }

  /** An agent's view survives when the hashes of the ids in its hand keep their core. */
  lemma AgentFrame(cfg: Settings, s: State, t: State, g: Agent)
    requires AgentOk(cfg, s, g)
    requires forall id :: id in HandOf(g) ==> SameCore(s, t, id)
    ensures AgentOk(cfg, t, g)
  {
    if g.Scanning? || g.Looking? || g.PuttingBack? {
      var both := g.keep + ItemIds(g.requeue);
      assert forall id :: id in both ==> id in HandOf(g);
      assert forall id :: id in g.keep || id in ItemIds(g.requeue) ==> id in both;
      KeepFrame(s, t, g.keep, g.w);
      ItemsFrame(cfg, s, t, g.requeue, g.w);
      assert g.Looking? ==> g.id in HandOf(g);
    } else if g.Requeuing? {
      ItemsFrame(cfg, s, t, g.requeue, g.w);
    } else if g.Pushing? {
      assert HandOf(g)[0] == g.item.id && g.item.id in HandOf(g);
      assert forall id :: id in ItemIds(g.requeue) ==> id in HandOf(g);
      ItemsFrame(cfg, s, t, g.requeue, g.w);
    } else {
      assert !g.Taking? ==> g.id in HandOf(g);
    }
  }

  /** The agents other than a, when at most the hash of an id in a's hand changes its core. */
  lemma OtherAgents(cfg: Settings, s: State, t: State, a: AgentId)
    requires PlacesOk(s) && DataOk(cfg, s)
    requires forall id {:trigger SameCore(s, t, id)} ::
               SameCore(s, t, id) || (id in s.place && s.place[id] == InHand(a))
    requires forall b :: b in t.agents && b != a ==> b in s.agents && t.agents[b] == s.agents[b]
    ensures forall b {:trigger AgentOk(cfg, t, t.agents[b])} :: b in t.agents && b != a ==> AgentOk(cfg, t, t.agents[b])
  {
    forall b | b in t.agents && b != a ensures AgentOk(cfg, t, t.agents[b]) {
      assert AgentOk(cfg, s, s.agents[b]);
      assert ContainerOk(s, InHand(b));
      forall id | id in HandOf(s.agents[b]) ensures SameCore(s, t, id) {
        assert id in Contents(s, InHand(b));
      }
      AgentFrame(cfg, s, t, s.agents[b]);
    }
  }

  /** The ids that stay where they are, with the core of their hash. */
  lemma OtherIds(cfg: Settings, s: State, t: State, x: TaskId)
    requires DataOk(cfg, s)
    requires forall id :: id in t.submitted && id in t.place && id != x ==>
               id in s.submitted && id in s.place && t.submitted[id] == s.submitted[id] && t.place[id] == s.place[id]
    requires forall id {:trigger SameCore(s, t, id)} :: id != x ==> SameCore(s, t, id)
    ensures forall id {:trigger IdOk(t, id)} :: id in t.submitted && id in t.place && id != x ==> IdOk(t, id)
  {
    forall id | id in t.submitted && id in t.place && id != x ensures IdOk(t, id) {
      assert IdOk(s, id) && SameCore(s, t, id);
    }
  }

  /** A step of agent a about id x: the rest is as before, so their two views suffice. */
  lemma RestAsBefore(cfg: Settings, s: State, t: State, a: AgentId, x: TaskId)
    requires PlacesOk(s) && DataOk(cfg, s)
    requires forall id {:trigger SameCore(s, t, id)} ::
               SameCore(s, t, id) || (id == x && id in s.place && s.place[id] == InHand(a))
    requires forall b :: b in t.agents && b != a ==> b in s.agents && t.agents[b] == s.agents[b]
    requires t.submitted == s.submitted && t.place.Keys == s.place.Keys
    requires forall id :: id in t.place && id != x ==> t.place[id] == s.place[id]
    requires a in t.agents ==> AgentOk(cfg, t, t.agents[a])
    requires x in t.submitted && x in t.place ==> IdOk(t, x)
    ensures DataOk(cfg, t)
  {
    OtherAgents(cfg, s, t, a);
    OtherIds(cfg, s, t, x);
  }

  /** A step of agent a that writes no hash and moves no id. */
  lemma HandOnly(cfg: Settings, s: State, t: State, a: AgentId)
    requires PlacesOk(s) && DataOk(cfg, s)
    requires t.redis.tasks == s.redis.tasks && t.submitted == s.submitted && t.place == s.place
    requires forall b :: b in t.agents && b != a ==> b in s.agents && t.agents[b] == s.agents[b]
    requires a in t.agents ==> AgentOk(cfg, t, t.agents[a])
    ensures DataOk(cfg, t)
  {
    OtherAgents(cfg, s, t, a);
    forall id | id in t.submitted && id in t.place ensures IdOk(t, id) {
      assert IdOk(s, id);
    }
  }

  lemma SubmitData(cfg: Settings, s: State, req: Request, now: real)
    requires PlacesOk(s) && DataOk(cfg, s)
    ensures DataOk(cfg, SubmitStep(cfg, s, req, now))
  {
    var t := SubmitStep(cfg, s, req, now);
    if SubmitStatus(cfg, s.redis, req).Accepted? {
      OtherIds(cfg, s, t, req.id);
      forall b | b in t.agents ensures AgentOk(cfg, t, t.agents[b]) {
        assert AgentOk(cfg, s, s.agents[b]);
        AgentFrame(cfg, s, t, s.agents[b]);
      }
    } else {
      assert t == s;
    }
  }

  /** The id at the end of queue q: it is placed there and its hash fits. */
  lemma PoppedId(cfg: Settings, s: State, q: QueueKey) returns (id: TaskId)
    requires PlacesOk(s) && DataOk(cfg, s) && ListOf(s.redis, q) != []
    ensures RPop(s.redis, q).1 == Some(id) && id in s.place && id in s.submitted && s.place[id] == InQueue(q)
    ensures IdOk(s, id)
    ensures RPop(s.redis, q).0.tasks == s.redis.tasks
  {
    assert ContainerOk(s, InQueue(q));
    PopFacts(s.redis, q);
    id := RPop(s.redis, q).1.value;
    assert id in Contents(s, InQueue(q));
    assert IdOk(s, id);
  }

  lemma TakePopData(cfg: Settings, s: State, a: AgentId)
    requires PlacesOk(s) && DataOk(cfg, s) && Enabled(s, TakePop(a))
    ensures DataOk(cfg, TakePopStep(s, a))
  {
    var g := s.agents[a];
    if g.next < 4 && ListOf(s.redis, Choice(g.w, g.next)) != [] {
      var id := PoppedId(cfg, s, Choice(g.w, g.next));
      RestAsBefore(cfg, s, TakePopStep(s, a), a, id);
    } else {
      HandOnly(cfg, s, TakePopStep(s, a), a);
    }
  }

  lemma FetchData(cfg: Settings, s: State, a: AgentId)
    requires PlacesOk(s) && DataOk(cfg, s) && Enabled(s, TakeFetch(a))
    ensures DataOk(cfg, TakeFetchStep(s, a))
  {
    assert AgentOk(cfg, s, s.agents[a]);
    HandOnly(cfg, s, TakeFetchStep(s, a), a);
  }

  /** An id in the hand of a is placed there and its hash fits. */
  lemma HeldId(cfg: Settings, s: State, a: AgentId, i: nat)
    requires PlacesOk(s) && DataOk(cfg, s) && a in s.agents && i < |HandOf(s.agents[a])|
    ensures HandOf(s.agents[a])[i] in s.place && s.place[HandOf(s.agents[a])[i]] == InHand(a)
    ensures HandOf(s.agents[a])[i] in s.submitted && IdOk(s, HandOf(s.agents[a])[i])
  {
    assert ContainerOk(s, InHand(a));
    assert HandOf(s.agents[a])[i] in Contents(s, InHand(a));
    assert IdOk(s, HandOf(s.agents[a])[i]);
  }

  lemma MarkData(cfg: Settings, s: State, a: AgentId, now: real)
    requires PlacesOk(s) && DataOk(cfg, s) && Enabled(s, TakeMark(a, now))
    ensures DataOk(cfg, TakeMarkStep(s, a, now))
  {
    HeldId(cfg, s, a, 0);
    RestAsBefore(cfg, s, TakeMarkStep(s, a, now), a, s.agents[a].id);
  }

  lemma MonitorPopOwn(cfg: Settings, s: State, a: AgentId)
    requires Enabled(s, MonitorPop(a)) && AgentOk(cfg, s, s.agents[a])
    requires RPop(s.redis, Own(s.agents[a].w)).1.Some? ==>
               OwnedBy(s, RPop(s.redis, Own(s.agents[a].w)).1.value, s.agents[a].w)
    ensures AgentOk(cfg, MonitorPopStep(s, a), MonitorPopStep(s, a).agents[a])
  {
    var t := MonitorPopStep(s, a);
    assert t.redis.tasks == s.redis.tasks;
    AgentFrame(cfg, s, t, s.agents[a]);
  }

  /** An id leaves its queue for a place that asks nothing of its hash. */
  lemma PoppedData(cfg: Settings, s: State, t: State, a: AgentId, id: TaskId)
    requires PlacesOk(s) && DataOk(cfg, s) && id in s.place && id in s.submitted
    requires t.redis.tasks == s.redis.tasks && t.submitted == s.submitted && t.place.Keys == s.place.Keys
    requires forall j :: j in t.place && j != id ==> t.place[j] == s.place[j]
    requires !t.place[id].InQueue?
    requires forall b :: b in t.agents && b != a ==> b in s.agents && t.agents[b] == s.agents[b]
    requires a in t.agents ==> AgentOk(cfg, t, t.agents[a])
    ensures DataOk(cfg, t)
  {
    assert IdOk(s, id);
    RestAsBefore(cfg, s, t, a, id);
  }

  lemma MonitorPopData(cfg: Settings, s: State, a: AgentId)
    requires PlacesOk(s) && DataOk(cfg, s) && Enabled(s, MonitorPop(a))
    ensures DataOk(cfg, MonitorPopStep(s, a))
  {
    var g := s.agents[a];
    assert AgentOk(cfg, s, g);
    if ListOf(s.redis, Own(g.w)) == [] || g.budget == 0 {
      ScanEndsData(cfg, s, a);
    } else {
      var id := PoppedId(cfg, s, Own(g.w));
      MonitorPopOwn(cfg, s, a);
      PoppedData(cfg, s, MonitorPopStep(s, a), a, id);
    }
  }

  lemma ScanEndsData(cfg: Settings, s: State, a: AgentId)
    requires PlacesOk(s) && DataOk(cfg, s) && Enabled(s, MonitorPop(a))
    requires ListOf(s.redis, Own(s.agents[a].w)) == [] || s.agents[a].budget == 0
    ensures DataOk(cfg, MonitorPopStep(s, a))
  {
    var t := MonitorPopStep(s, a);
    assert AgentOk(cfg, s, s.agents[a]);
    AgentFrame(cfg, s, t, s.agents[a]);
    HandOnly(cfg, s, t, a);
  }

  /** Judging an owned task: kept, or overdue; never stale. */
  lemma LookOwn(cfg: Settings, s: State, a: AgentId)
    requires Enabled(s, MonitorLook(a)) && AgentOk(cfg, s, s.agents[a])
    ensures AgentOk(cfg, MonitorLookStep(cfg, s, a), MonitorLookStep(cfg, s, a).agents[a])
  {
    var t := MonitorLookStep(cfg, s, a);
    var g := s.agents[a];
    assert t.redis == s.redis;
    TimedOutMeans(cfg, s.redis.tasks[g.id], g.w, g.now);
    AgentFrame(cfg, s, t, g);
  }

  lemma LookData(cfg: Settings, s: State, a: AgentId)
    requires PlacesOk(s) && DataOk(cfg, s) && Enabled(s, MonitorLook(a))
    ensures DataOk(cfg, MonitorLookStep(cfg, s, a))
  {
    assert AgentOk(cfg, s, s.agents[a]);
    LookOwn(cfg, s, a);
    HandOnly(cfg, s, MonitorLookStep(cfg, s, a), a);
  }

  lemma PutBackOwn(cfg: Settings, s: State, a: AgentId)
    requires Enabled(s, MonitorPutBack(a)) && AgentOk(cfg, s, s.agents[a])
    ensures AgentOk(cfg, MonitorPutBackStep(s, a), MonitorPutBackStep(s, a).agents[a])
    ensures s.agents[a].keep != [] ==> OwnedBy(s, s.agents[a].keep[|s.agents[a].keep| - 1], s.agents[a].w)
  {
    var t := MonitorPutBackStep(s, a);
    assert t.redis.tasks == s.redis.tasks;
    AgentFrame(cfg, s, t, s.agents[a]);
  }

  lemma PutBackData(cfg: Settings, s: State, a: AgentId)
    requires PlacesOk(s) && DataOk(cfg, s) && Enabled(s, MonitorPutBack(a))
    ensures DataOk(cfg, MonitorPutBackStep(s, a))
  {
    var g := s.agents[a];
    assert AgentOk(cfg, s, g);
    PutBackOwn(cfg, s, a);
    if g.keep != [] {
      HeldId(cfg, s, a, |g.keep| - 1);
      RestAsBefore(cfg, s, MonitorPutBackStep(s, a), a, g.keep[|g.keep| - 1]);
    } else {
      HandOnly(cfg, s, MonitorPutBackStep(s, a), a);
    }
  }

  lemma UnassignOwn(cfg: Settings, s: State, a: AgentId)
    requires Enabled(s, MonitorUnassign(a)) && AgentOk(cfg, s, s.agents[a]) && s.agents[a].requeue != []
    requires ContainerOk(s, InHand(a))
    ensures AgentOk(cfg, MonitorUnassignStep(s, a), MonitorUnassignStep(s, a).agents[a])
  {
    var t := MonitorUnassignStep(s, a);
    var g := s.agents[a];
    assert ItemOk(cfg, s, g.requeue[0], g.w);
    forall i | 0 <= i < |g.requeue| - 1 ensures ItemOk(cfg, t, g.requeue[1..][i], g.w) {
      assert ItemOk(cfg, s, g.requeue[i + 1], g.w);
      assert Contents(s, InHand(a))[i + 1] == g.requeue[i + 1].id;
      assert Contents(s, InHand(a))[0] == g.requeue[0].id;
    }
  }

  lemma UnassignData(cfg: Settings, s: State, a: AgentId)
    requires PlacesOk(s) && DataOk(cfg, s) && Enabled(s, MonitorUnassign(a))
    ensures DataOk(cfg, MonitorUnassignStep(s, a))
  {
    var g := s.agents[a];
    assert AgentOk(cfg, s, g);
    assert ContainerOk(s, InHand(a));
    if g.requeue != [] {
      UnassignOwn(cfg, s, a);
      HeldId(cfg, s, a, 0);
      assert ItemOk(cfg, s, g.requeue[0], g.w);
      RestAsBefore(cfg, s, MonitorUnassignStep(s, a), a, g.requeue[0].id);
    } else {
      HandOnly(cfg, s, MonitorUnassignStep(s, a), a);
    }
  }

  lemma PushOwn(cfg: Settings, s: State, a: AgentId)
    requires Enabled(s, MonitorPush(a)) && AgentOk(cfg, s, s.agents[a])
    ensures AgentOk(cfg, MonitorPushStep(s, a), MonitorPushStep(s, a).agents[a])
  {
    assert MonitorPushStep(s, a).redis.tasks == s.redis.tasks;
    AgentFrame(cfg, s, MonitorPushStep(s, a), s.agents[a]);
  }

  lemma PushData(cfg: Settings, s: State, a: AgentId)
    requires PlacesOk(s) && DataOk(cfg, s) && Enabled(s, MonitorPush(a))
    ensures DataOk(cfg, MonitorPushStep(s, a))
  {
    assert AgentOk(cfg, s, s.agents[a]);
    PushOwn(cfg, s, a);
    HeldId(cfg, s, a, 0);
    RestAsBefore(cfg, s, MonitorPushStep(s, a), a, s.agents[a].item.id);
  }

  lemma SameCores(cfg: Settings, s: State, t: State)
    requires PlacesOk(s) && DataOk(cfg, s)
    requires t.agents == s.agents && t.submitted == s.submitted && t.place == s.place
    requires forall id {:trigger SameCore(s, t, id)} :: SameCore(s, t, id)
    ensures DataOk(cfg, t)
  {
    forall b | b in t.agents ensures AgentOk(cfg, t, t.agents[b]) {
      assert AgentOk(cfg, s, s.agents[b]);
      AgentFrame(cfg, s, t, s.agents[b]);
    }
    forall id | id in t.submitted && id in t.place ensures IdOk(t, id) {
      assert IdOk(s, id) && SameCore(s, t, id);
    }
  }

  /** Completions and failures touch results and statuses only. */
  lemma StatusData(cfg: Settings, s: State, e: Event)
    requires PlacesOk(s) && DataOk(cfg, s) && Enabled(s, e)
    requires e.PutResult? || e.MarkCompleted? || e.PutError? || e.MarkFailed?
    ensures DataOk(cfg, Apply(cfg, s, e))
  {
    SameCores(cfg, s, Apply(cfg, s, e));
  }

  lemma StartData(cfg: Settings, s: State, e: Event)
    requires PlacesOk(s) && DataOk(cfg, s) && Enabled(s, e) && (e.StartTaking? || e.StartMonitor?)
    ensures DataOk(cfg, Apply(cfg, s, e))
  {
    var t := Apply(cfg, s, e);
    OtherAgents(cfg, s, t, e.a);
    forall id | id in t.submitted && id in t.place ensures IdOk(t, id) {
      assert IdOk(s, id);
    }
  }

  lemma StepData(cfg: Settings, s: State, e: Event)
    requires PlacesOk(s) && DataOk(cfg, s) && Enabled(s, e)
    ensures DataOk(cfg, Apply(cfg, s, e))
  {
    match e
    case SubmitTask(req, now) => SubmitData(cfg, s, req, now);
    case TakePop(a) => TakePopData(cfg, s, a);
    case TakeFetch(a) => FetchData(cfg, s, a);
    case TakeMark(a, now) => MarkData(cfg, s, a, now);
    case MonitorPop(a) => MonitorPopData(cfg, s, a);
    case MonitorLook(a) => LookData(cfg, s, a);
    case MonitorPutBack(a) => PutBackData(cfg, s, a);
    case MonitorUnassign(a) => UnassignData(cfg, s, a);
    case MonitorPush(a) => PushData(cfg, s, a);
    case StartTaking(_, _) => StartData(cfg, s, e);
    case StartMonitor(_, _, _) => StartData(cfg, s, e);
    case _ => StatusData(cfg, s, e);
  }

  // ---- the histories, event by event ----

  lemma ReversedSnoc<T>(l: seq<T>, x: T)
    ensures Reversed(l + [x]) == [x] + Reversed(l)
  {
    if l == [] {
      assert [] + [x] == [x];
    } else {
      assert (l + [x])[1..] == l[1..] + [x];
      ReversedSnoc(l[1..], x);
    }
  }

  lemma PushedClass(s: State, t: State, q: QueueKey, id: TaskId)
    requires ClassesOk(s)
    requires t.redis.lists == s.redis.lists[q := [id] + ListOf(s.redis, q)]
    requires t.pushed == Record(s.pushed, q, id) && t.popped == s.popped
    ensures ClassesOk(t)
  {
    forall p ensures ClassOk(t, p) {
      assert ClassOk(s, p);
      if q == Class(p) {
        ReversedCons(ListOf(s.redis, q), id);
        Associates(History(s.popped, p), OldestFirst(s.redis, q), [id]);
      }
    }
  }

  lemma ReversedCons<T>(l: seq<T>, x: T)
    ensures Reversed([x] + l) == Reversed(l) + [x]
  {
    assert ([x] + l)[1..] == l;
  }

  lemma Associates<T>(x: seq<T>, y: seq<T>, z: seq<T>)
    ensures (x + y) + z == x + (y + z)
  {
  }

  lemma PoppedClass(s: State, t: State, q: QueueKey)
    requires ClassesOk(s) && ListOf(s.redis, q) != []
    requires t.redis.lists == RPop(s.redis, q).0.lists
    requires t.popped == Record(s.popped, q, RPop(s.redis, q).1.value) && t.pushed == s.pushed
    ensures ClassesOk(t)
  {
    forall p ensures ClassOk(t, p) {
      assert ClassOk(s, p);
      if q == Class(p) {
        PoppedOldest(s.redis, q);
        Associates(History(s.popped, p), [RPop(s.redis, q).1.value], OldestFirst(t.redis, q));
      }
    }
  }

  lemma PoppedOldest(r: Redis, q: QueueKey)
    requires ListOf(r, q) != []
    ensures OldestFirst(r, q) == [RPop(r, q).1.value] + OldestFirst(RPop(r, q).0, q)
  {
    var l := ListOf(r, q);
    assert l == l[..|l| - 1] + [l[|l| - 1]];
    ReversedSnoc(l[..|l| - 1], l[|l| - 1]);
  }

  lemma SameClasses(s: State, t: State)
    requires ClassesOk(s) && t.pushed == s.pushed && t.popped == s.popped
    requires forall p :: ListOf(t.redis, Class(p)) == ListOf(s.redis, Class(p))
    ensures ClassesOk(t)
  {
    forall p ensures ClassOk(t, p) {
      assert ClassOk(s, p);
    }
  }

  /** Queue refinement needs nothing but the list operations themselves. */
  lemma StepClasses(cfg: Settings, s: State, e: Event)
    requires ClassesOk(s) && Enabled(s, e)
    ensures ClassesOk(Apply(cfg, s, e))
  {
    match e
    case SubmitTask(req, now) => SubmitClasses(cfg, s, req, now);
    case TakePop(a) => TakePopClasses(s, a);
    case MonitorPush(a) => PushClasses(s, a);
    case MonitorPop(a) => SameClasses(s, MonitorPopStep(s, a));
    case MonitorPutBack(a) => SameClasses(s, MonitorPutBackStep(s, a));
    case _ => OtherClasses(cfg, s, e);
  }

  lemma PushClasses(s: State, a: AgentId)
    requires ClassesOk(s) && Enabled(s, MonitorPush(a))
    ensures ClassesOk(MonitorPushStep(s, a))
  {
    PushedClass(s, MonitorPushStep(s, a), RequeueClass(s.agents[a].item.snapshot), s.agents[a].item.id);
  }

  lemma SubmitClasses(cfg: Settings, s: State, req: Request, now: real)
    requires ClassesOk(s)
    ensures ClassesOk(SubmitStep(cfg, s, req, now))
  {
    var t := SubmitStep(cfg, s, req, now);
    if SubmitStatus(cfg, s.redis, req).Accepted? {
      PushedClass(s, t, TargetOf(req), req.id);
    } else {
      SameClasses(s, t);
    }
  }

  lemma TakePopClasses(s: State, a: AgentId)
    requires ClassesOk(s) && Enabled(s, TakePop(a))
    ensures ClassesOk(TakePopStep(s, a))
  {
    var g := s.agents[a];
    if g.next < 4 && ListOf(s.redis, Choice(g.w, g.next)) != [] {
      PoppedClass(s, TakePopStep(s, a), Choice(g.w, g.next));
    } else {
      SameClasses(s, TakePopStep(s, a));
    }
  }

  lemma LookShape(cfg: Settings, s: State, a: AgentId)
    requires Enabled(s, MonitorLook(a))
    ensures MonitorLookStep(cfg, s, a) == Become(s, a, MonitorLookStep(cfg, s, a).agents[a])
    ensures MonitorLookStep(cfg, s, a).agents[a].Scanning?
  {
  }

  lemma UntouchedLists(cfg: Settings, s: State, e: Event)
    requires Enabled(s, e)
    requires !e.SubmitTask? && !e.TakePop? && !e.MonitorPush? && !e.MonitorPop? && !e.MonitorPutBack?
    ensures Apply(cfg, s, e).redis.lists == s.redis.lists
    ensures !e.TakeMark? ==> Apply(cfg, s, e).delivered == s.delivered && Apply(cfg, s, e).place == s.place
    ensures Apply(cfg, s, e).submitted == s.submitted
    ensures Apply(cfg, s, e).pushed == s.pushed && Apply(cfg, s, e).popped == s.popped
  {
    match e
    case StartTaking(_, _) =>
    case TakeFetch(a) => assert Apply(cfg, s, e) == TakeFetchStep(s, a);
    case TakeMark(a, now) => assert Apply(cfg, s, e) == TakeMarkStep(s, a, now);
    case StartMonitor(_, _, _) =>
    case MonitorLook(a) => LookShape(cfg, s, a);
    case MonitorUnassign(a) => assert Apply(cfg, s, e) == MonitorUnassignStep(s, a);
    case PutResult(_, _) =>
    case MarkCompleted(_) =>
    case PutError(_, _) =>
    case MarkFailed(_) =>
  }

  lemma OtherClasses(cfg: Settings, s: State, e: Event)
    requires ClassesOk(s) && Enabled(s, e)
    requires !e.SubmitTask? && !e.TakePop? && !e.MonitorPush? && !e.MonitorPop? && !e.MonitorPutBack?
    ensures ClassesOk(Apply(cfg, s, e))
  {
    UntouchedLists(cfg, s, e);
    SameClasses(s, Apply(cfg, s, e));
  }

  lemma MarkDeliveries(cfg: Settings, s: State, a: AgentId, now: real)
    requires PlacesOk(s) && DataOk(cfg, s) && DeliveriesOk(s) && Enabled(s, TakeMark(a, now))
    ensures DeliveriesOk(TakeMarkStep(s, a, now))
  {
    HeldId(cfg, s, a, 0);
    assert AgentOk(cfg, s, s.agents[a]);
  }

  lemma SubmitDeliveries(cfg: Settings, s: State, req: Request, now: real)
    requires PlacesOk(s) && DataOk(cfg, s) && DeliveriesOk(s)
    ensures DeliveriesOk(SubmitStep(cfg, s, req, now))
  {
    forall id | id in s.submitted ensures id in s.redis.tasks {
      assert IdOk(s, id);
    }
  }

  lemma UntouchedDeliveries(cfg: Settings, s: State, e: Event)
    requires Enabled(s, e) && !e.TakeMark? && !e.SubmitTask?
    ensures Apply(cfg, s, e).delivered == s.delivered && Apply(cfg, s, e).submitted == s.submitted
  {
    match e
    case TakePop(a) => assert Apply(cfg, s, e) == TakePopStep(s, a);
    case MonitorPop(a) => assert Apply(cfg, s, e) == MonitorPopStep(s, a);
    case MonitorPutBack(a) => assert Apply(cfg, s, e) == MonitorPutBackStep(s, a);
    case MonitorPush(a) => assert Apply(cfg, s, e) == MonitorPushStep(s, a);
    case _ => UntouchedLists(cfg, s, e);
  }

  lemma StepDeliveries(cfg: Settings, s: State, e: Event)
    requires PlacesOk(s) && DataOk(cfg, s) && DeliveriesOk(s) && Enabled(s, e)
    ensures DeliveriesOk(Apply(cfg, s, e))
  {
    match e
    case TakeMark(a, now) => MarkDeliveries(cfg, s, a, now);
    case SubmitTask(req, now) => SubmitDeliveries(cfg, s, req, now);
    case _ => UntouchedDeliveries(cfg, s, e);
  }

  /** The requeued tasks stay past the worker queues when x moves forward and the agents that are
      takers with something in hand (other than x) stay takers. */
  lemma PastKept(s: State, t: State, x: TaskId)
    requires PlacesOk(s) && t.place.Keys >= s.place.Keys
    requires forall id :: id in s.place && id != x ==> t.place[id] == s.place[id]
    requires PastWorkerQueue(s, x) ==> PastWorkerQueue(t, x)
    requires forall a :: a in s.agents && s.agents[a].IsTaker() && HandOf(s.agents[a]) != [] && HandOf(s.agents[a]) != [x]
               ==> a in t.agents && t.agents[a].IsTaker()
    ensures forall id :: PastWorkerQueue(s, id) ==> PastWorkerQueue(t, id)
  {
    forall id | PastWorkerQueue(s, id) ensures PastWorkerQueue(t, id) {
      assert Backed(s, id);
    }
  }

  lemma PushRequeues(cfg: Settings, s: State, a: AgentId)
    requires PlacesOk(s) && DataOk(cfg, s) && RequeuesOk(cfg, s) && Enabled(s, MonitorPush(a))
    ensures RequeuesOk(cfg, MonitorPushStep(s, a))
  {
    var t := MonitorPushStep(s, a);
    var g := s.agents[a];
    HeldId(cfg, s, a, 0);
    assert AgentOk(cfg, s, g);
    forall i | 0 <= i < |s.requeued| ensures s.requeued[i].id != g.item.id {
      assert PastWorkerQueue(s, s.requeued[i].id);
    }
    assert ItemIds(t.requeued) == ItemIds(s.requeued) + [g.item.id];
    PastKept(s, t, g.item.id);
  }

  lemma ForwardRequeues(cfg: Settings, s: State, t: State)
    requires RequeuesOk(cfg, s) && t.requeued == s.requeued
    requires forall id :: PastWorkerQueue(s, id) ==> PastWorkerQueue(t, id)
    ensures RequeuesOk(cfg, t)
  {
  }

  lemma SubmitForward(cfg: Settings, s: State, req: Request, now: real)
    requires PlacesOk(s) && DataOk(cfg, s)
    ensures forall id :: PastWorkerQueue(s, id) ==> PastWorkerQueue(SubmitStep(cfg, s, req, now), id)
  {
    forall id | id in s.place ensures id in s.redis.tasks {
      assert IdOk(s, id);
    }
    PastKept(s, SubmitStep(cfg, s, req, now), req.id);
  }

  lemma MarkForward(cfg: Settings, s: State, a: AgentId, now: real)
    requires PlacesOk(s) && DataOk(cfg, s) && Enabled(s, TakeMark(a, now))
    ensures forall id :: PastWorkerQueue(s, id) ==> PastWorkerQueue(TakeMarkStep(s, a, now), id)
  {
    HeldId(cfg, s, a, 0);
    PastKept(s, TakeMarkStep(s, a, now), s.agents[a].id);
  }

  lemma FetchForward(cfg: Settings, s: State, a: AgentId)
    requires PlacesOk(s) && DataOk(cfg, s) && Enabled(s, TakeFetch(a))
    ensures forall id :: PastWorkerQueue(s, id) ==> PastWorkerQueue(TakeFetchStep(s, a), id)
  {
    assert AgentOk(cfg, s, s.agents[a]);
    OtherForward(s, TakeFetchStep(s, a));
  }

  lemma PushForward(cfg: Settings, s: State, a: AgentId)
    requires PlacesOk(s) && DataOk(cfg, s) && Enabled(s, MonitorPush(a))
    ensures forall id :: PastWorkerQueue(s, id) ==> PastWorkerQueue(MonitorPushStep(s, a), id)
  {
    PastKept(s, MonitorPushStep(s, a), s.agents[a].item.id);
  }

  /** Progress: no step takes a task back to a worker queue or to a monitor. */
  lemma StepForward(cfg: Settings, s: State, e: Event)
    requires PlacesOk(s) && DataOk(cfg, s) && Enabled(s, e)
    ensures forall id :: PastWorkerQueue(s, id) ==> PastWorkerQueue(Apply(cfg, s, e), id)
  {
    match e
    case SubmitTask(req, now) => SubmitForward(cfg, s, req, now);
    case TakePop(a) => TakePopForward(cfg, s, a);
    case TakeMark(a, now) => MarkForward(cfg, s, a, now);
    case MonitorPop(a) => MonitorPopForward(cfg, s, a);
    case MonitorPutBack(a) => PutBackForward(cfg, s, a);
    case MonitorPush(a) => PushForward(cfg, s, a);
    case TakeFetch(a) => FetchForward(cfg, s, a);
    case _ => OtherStepForward(cfg, s, e);
  }

  /** The steps that move no id. */
  lemma OtherStepForward(cfg: Settings, s: State, e: Event)
    requires PlacesOk(s) && Enabled(s, e) && !Moves(e)
    ensures forall id :: PastWorkerQueue(s, id) ==> PastWorkerQueue(Apply(cfg, s, e), id)
  {
    var t := Apply(cfg, s, e);
    assert t.place == s.place;
    OtherForward(s, t);
  }

  predicate Moves(e: Event) {
    e.SubmitTask? || e.TakePop? || e.TakeMark? || e.MonitorPop? || e.MonitorPutBack? || e.MonitorPush? || e.TakeFetch?
  }

  lemma StepRequeues(cfg: Settings, s: State, e: Event)
    requires PlacesOk(s) && DataOk(cfg, s) && RequeuesOk(cfg, s) && Enabled(s, e)
    ensures RequeuesOk(cfg, Apply(cfg, s, e))
  {
    if e.MonitorPush? {
      PushRequeues(cfg, s, e.a);
    } else {
      StepForward(cfg, s, e);
      assert Apply(cfg, s, e).requeued == s.requeued;
      ForwardRequeues(cfg, s, Apply(cfg, s, e));
    }
  }

  lemma TakePopForward(cfg: Settings, s: State, a: AgentId)
    requires PlacesOk(s) && DataOk(cfg, s) && Enabled(s, TakePop(a))
    ensures forall id :: PastWorkerQueue(s, id) ==> PastWorkerQueue(TakePopStep(s, a), id)
  {
    var t := TakePopStep(s, a);
    var g := s.agents[a];
    if g.next < 4 && ListOf(s.redis, Choice(g.w, g.next)) != [] {
      var id := PoppedId(cfg, s, Choice(g.w, g.next));
      PastKept(s, t, id);
    } else {
      OtherForward(s, t);
    }
  }

  lemma MonitorPopForward(cfg: Settings, s: State, a: AgentId)
    requires PlacesOk(s) && DataOk(cfg, s) && Enabled(s, MonitorPop(a))
    ensures forall id :: PastWorkerQueue(s, id) ==> PastWorkerQueue(MonitorPopStep(s, a), id)
  {
    var t := MonitorPopStep(s, a);
    var g := s.agents[a];
    if g.budget != 0 && ListOf(s.redis, Own(g.w)) != [] {
      var id := PoppedId(cfg, s, Own(g.w));
      PastKept(s, t, id);
    } else {
      OtherForward(s, t);
    }
  }

  lemma PutBackForward(cfg: Settings, s: State, a: AgentId)
    requires PlacesOk(s) && DataOk(cfg, s) && Enabled(s, MonitorPutBack(a))
    ensures forall id :: PastWorkerQueue(s, id) ==> PastWorkerQueue(MonitorPutBackStep(s, a), id)
  {
    var t := MonitorPutBackStep(s, a);
    var g := s.agents[a];
    if g.keep != [] {
      HeldId(cfg, s, a, |g.keep| - 1);
      PastKept(s, t, g.keep[|g.keep| - 1]);
    } else {
      OtherForward(s, t);
    }
  }

  /** Steps that move no id. */
  lemma OtherForward(s: State, t: State)
    requires PlacesOk(s) && t.place == s.place
    requires forall a :: a in s.agents && s.agents[a].IsTaker() && HandOf(s.agents[a]) != []
               ==> a in t.agents && t.agents[a].IsTaker()
    ensures forall id :: PastWorkerQueue(s, id) ==> PastWorkerQueue(t, id)
  {
    forall id | PastWorkerQueue(s, id) ensures PastWorkerQueue(t, id) {
      assert Backed(s, id);
    }
  }

  lemma StepInv(cfg: Settings, s: State, e: Event)
    requires Inv(cfg, s)
    ensures Inv(cfg, Step(cfg, s, e))
  {
    if Enabled(s, e) {
      StepPlaces(cfg, s, e);
      StepData(cfg, s, e);
      StepDeliveries(cfg, s, e);
      StepRequeues(cfg, s, e);
      StepClasses(cfg, s, e);
    }
  }

  lemma {:induction false} RunInv(cfg: Settings, s: State, events: seq<Event>)
    requires Inv(cfg, s)
    ensures Inv(cfg, Run(cfg, s, events))
    decreases |events|
  {
    if events != [] {
      StepInv(cfg, s, events[0]);
      RunInv(cfg, Step(cfg, s, events[0]), events[1..]);
    }
  }
}
