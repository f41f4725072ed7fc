/** The task queue's promises over whole runs. */
module QueueResults {
  import opened Common
  import opened QueueSpec
  import opened QueueProtocol
  import opened QueueSafety

  /** Every state the queue can be in: any events in any order, from an empty Redis. */
  function After(cfg: Settings, events: seq<Event>): State { Run(cfg, INITIAL, events) }

  lemma AfterInv(cfg: Settings, events: seq<Event>)
    ensures Inv(cfg, After(cfg, events)) && OwnersOk(After(cfg, events)) && LostOk(After(cfg, events))
  {
    InitialInv(cfg);
    RunOwners(cfg, INITIAL, events);
  }

  // ---- conservation ----

  /** An accepted id is in exactly one place, once; an id never accepted is nowhere. Only the empty
      id can end up lost, because the monitor takes it for an empty queue. */
  lemma ExactlyOnePlace(cfg: Settings, events: seq<Event>, id: TaskId)
    ensures var s := After(cfg, events);
      && (id in s.submitted <==> id in s.place)
      && (forall k :: Distinct(Contents(s, k)))
      && (forall k :: id in Contents(s, k) <==> id in s.place && s.place[id] == k)
      && (id != "" ==> id !in s.lost)
  {
    AfterInv(cfg, events);
    var s := After(cfg, events);
    forall k ensures Distinct(Contents(s, k)) && (id in Contents(s, k) <==> id in s.place && s.place[id] == k) {
      assert ContainerOk(s, k);
      assert id in s.place ==> Backed(s, id);
    }
  }

  /** Deliveries are of different ids, each with the submitted task; and a task submitted for one
      worker reaches another only after having been requeued. */
  lemma DeliveredAtMostOnce(cfg: Settings, events: seq<Event>, i: nat)
    requires i < |After(cfg, events).delivered|
    ensures var s := After(cfg, events);
      var d := s.delivered[i];
      && (forall j :: 0 <= j < |s.delivered| && s.delivered[j].id == d.id ==> j == i)
      && d.id in s.submitted
      && SameTask(d.payload, s.submitted[d.id].payload)
      && (s.submitted[d.id].payload.assignedTo in {"", d.w} || d.id in ItemIds(s.requeued))
  {
    AfterInv(cfg, events);
    var s := After(cfg, events);
    assert ContainerOk(s, Delivered);
    assert DeliveredIds(s.delivered)[i] == s.delivered[i].id;
    forall j | 0 <= j < |s.delivered| && s.delivered[j].id == s.delivered[i].id ensures j == i {
      assert DeliveredIds(s.delivered)[j] == s.delivered[j].id;
    }
    assert DeliveryOk(s, i);
  }

  /** A task leaves its worker's queue unserved only once, and only if it was judged while pending,
      assigned to that worker, and waiting longer than a positive limit no larger than its timeout.
      The "stale assignment" branch is never the reason. */
  lemma RequeuedOnceAndOverdue(cfg: Settings, events: seq<Event>, i: nat)
    requires i < |After(cfg, events).requeued|
    ensures var s := After(cfg, events);
      var item := s.requeued[i];
      && (forall j :: 0 <= j < |s.requeued| && s.requeued[j].id == item.id ==> j == i)
      && item.reason == "queue_wait_timeout"
      && item.id in s.submitted && s.submitted[item.id].payload.assignedTo == item.w
      && item.snapshot.data.Some? && item.snapshot.assignedAt.Some?
      && (item.snapshot.status.Some? ==> item.snapshot.status.value.Pending?)
      && (forall wait, timeout :: AsksFor(cfg, item.snapshot.data.value, wait, timeout) ==>
            wait > 0 && item.now - item.snapshot.assignedAt.value > Cut(wait, timeout) as real)
      && 0 < WaitLimit(cfg, item.snapshot.data.value)
      && WaitLimit(cfg, item.snapshot.data.value) as real < item.now - item.snapshot.assignedAt.value
      && (TaskTimeout(cfg, item.snapshot.data.value) > 0 ==>
            WaitLimit(cfg, item.snapshot.data.value) <= TaskTimeout(cfg, item.snapshot.data.value))
  {
    AfterInv(cfg, events);
    var s := After(cfg, events);
    var item := s.requeued[i];
    forall j | 0 <= j < |s.requeued| && s.requeued[j].id == item.id ensures j == i {
      assert ItemIds(s.requeued)[j] == ItemIds(s.requeued)[i];
    }
    assert Overdue(cfg, item) && RequeueOk(s, i);
    TimedOutMeans(cfg, item.snapshot, item.w, item.now);
  }

  /** Places only move forward: once past the worker queues, a task never goes back. */
  lemma {:induction false} NeverBack(cfg: Settings, s: State, events: seq<Event>, id: TaskId)
    requires Inv(cfg, s) && PastWorkerQueue(s, id)
    ensures PastWorkerQueue(Run(cfg, s, events), id)
    decreases |events|
  {
    if events != [] {
      if Enabled(s, events[0]) { StepForward(cfg, s, events[0]); }
      StepInv(cfg, s, events[0]);
      NeverBack(cfg, Step(cfg, s, events[0]), events[1..], id);
    }
  }

  /** Each priority class is a first-in first-out queue under every interleaving of submitters,
      takers and monitors. */
  lemma ClassIsFifo(cfg: Settings, events: seq<Event>, p: Priority)
    ensures var s := After(cfg, events);
      History(s.pushed, p) == History(s.popped, p) + OldestFirst(s.redis, Class(p))
  {
    AfterInv(cfg, events);
    assert ClassOk(After(cfg, events), p);
  }

  // ---- whose task it is ----

  predicate BeingPushed(s: State, id: TaskId) {
    && id in s.place && s.place[id].InHand? && s.place[id].a in s.agents
    && s.agents[s.place[id].a].Pushing? && s.agents[s.place[id].a].item.id == id
  }

  /** The assignment of a task is as submitted until a requeue clears it. */
  predicate OwnerOk(s: State, id: TaskId) {
    id in s.submitted && id in s.redis.tasks && s.redis.tasks[id].data.Some? ==>
      || s.redis.tasks[id].data.value.assignedTo == s.submitted[id].payload.assignedTo
      || id in ItemIds(s.requeued) || BeingPushed(s, id)
  }

  predicate PusherOk(s: State, a: AgentId) {
    a in s.agents && s.agents[a].Pushing? ==>
      s.agents[a].item.id in s.submitted
      && s.submitted[s.agents[a].item.id].payload.assignedTo == s.agents[a].item.w
  }

  predicate RequeueOk(s: State, i: nat)
    requires i < |s.requeued|
  {
    s.requeued[i].id in s.submitted && s.submitted[s.requeued[i].id].payload.assignedTo == s.requeued[i].w
  }

  predicate DeliveryOk(s: State, i: nat)
    requires i < |s.delivered|
  {
    && s.delivered[i].id in s.submitted
    && (|| s.delivered[i].payload.assignedTo == s.submitted[s.delivered[i].id].payload.assignedTo
        || s.delivered[i].id in ItemIds(s.requeued))
  }

  ghost predicate OwnersOk(s: State) {
    && (forall id {:trigger OwnerOk(s, id)} :: OwnerOk(s, id))
    && (forall a {:trigger PusherOk(s, a)} :: PusherOk(s, a))
    && (forall i {:trigger RequeueOk(s, i)} :: 0 <= i < |s.requeued| ==> RequeueOk(s, i))
    && (forall i {:trigger DeliveryOk(s, i)} :: 0 <= i < |s.delivered| ==> DeliveryOk(s, i))
  }

  ghost predicate LostOk(s: State) { forall id :: id in s.lost ==> id == "" }

  /** Steps that clear no assignment, complete no requeue and deliver nothing. */
  lemma OwnersFrame(s: State, t: State)
    requires OwnersOk(s)
    requires forall id :: id in s.submitted ==> id in t.submitted && t.submitted[id] == s.submitted[id]
    requires forall id :: id in t.submitted && id !in s.submitted ==> OwnerOk(t, id)
    requires forall id :: id in s.submitted && id in t.redis.tasks ==>
               id in s.redis.tasks && t.redis.tasks[id].data == s.redis.tasks[id].data
    requires t.requeued == s.requeued && t.delivered == s.delivered
    requires forall id :: BeingPushed(s, id) ==> BeingPushed(t, id)
    requires forall a :: a in t.agents && t.agents[a].Pushing? ==> a in s.agents && s.agents[a] == t.agents[a]
    ensures OwnersOk(t)
  {
    forall id ensures OwnerOk(t, id) {
      assert OwnerOk(s, id);
    }
    forall a ensures PusherOk(t, a) {
      assert PusherOk(s, a);
    }
    forall i | 0 <= i < |t.requeued| ensures RequeueOk(t, i) {
      assert RequeueOk(s, i);
    }
    forall i | 0 <= i < |t.delivered| ensures DeliveryOk(t, i) {
      assert DeliveryOk(s, i);
    }
  }

  lemma SubmitOwners(cfg: Settings, s: State, req: Request, now: real)
    requires PlacesOk(s) && DataOk(cfg, s) && OwnersOk(s)
    ensures OwnersOk(SubmitStep(cfg, s, req, now))
  {
    if SubmitStatus(cfg, s.redis, req).Accepted? {
      if req.id in s.place { SubmittedHasHash(cfg, s, req.id); }
      AcceptedOwners(cfg, s, req, now);
    } else {
      assert SubmitStep(cfg, s, req, now) == s;
    }
  }

  lemma AcceptedOwners(cfg: Settings, s: State, req: Request, now: real)
    requires OwnersOk(s) && SubmitStatus(cfg, s.redis, req).Accepted? && req.id !in s.place
    requires PlacesOk(s)
    ensures OwnersOk(SubmitStep(cfg, s, req, now))
  {
    OwnersFrame(s, SubmitStep(cfg, s, req, now));
  }

  lemma MarkOwners(cfg: Settings, s: State, a: AgentId, now: real)
    requires PlacesOk(s) && DataOk(cfg, s) && OwnersOk(s) && Enabled(s, TakeMark(a, now))
    ensures OwnersOk(TakeMarkStep(s, a, now))
  {
    var t := TakeMarkStep(s, a, now);
    var g := s.agents[a];
    HeldId(cfg, s, a, 0);
    assert AgentOk(cfg, s, g) && OwnerOk(s, g.id);
    var back := t.(delivered := s.delivered);
    OwnersFrame(s, back);
    forall id ensures OwnerOk(t, id) {
      assert OwnerOk(back, id);
    }
    forall b ensures PusherOk(t, b) {
      assert PusherOk(back, b);
    }
    forall i | 0 <= i < |t.requeued| ensures RequeueOk(t, i) {
      assert RequeueOk(back, i);
    }
    forall i | 0 <= i < |t.delivered| ensures DeliveryOk(t, i) {
      assert i < |s.delivered| ==> DeliveryOk(back, i);
    }
  }

  lemma UnassignOwners(cfg: Settings, s: State, a: AgentId)
    requires Inv(cfg, s) && OwnersOk(s) && Enabled(s, MonitorUnassign(a))
    ensures OwnersOk(MonitorUnassignStep(s, a))
  {
    var t := MonitorUnassignStep(s, a);
    var g := s.agents[a];
    if g.requeue == [] {
      OwnersFrame(s, t);
    } else {
      UnassignedOwners(cfg, s, a);
      forall b ensures PusherOk(t, b) {
        assert PusherOk(s, b);
      }
      forall i | 0 <= i < |t.requeued| ensures RequeueOk(t, i) {
        assert RequeueOk(s, i);
      }
      forall i | 0 <= i < |t.delivered| ensures DeliveryOk(t, i) {
        assert DeliveryOk(s, i);
      }
    }
  }

  /** The id about to be pushed loses its assignment, which was the submitted one until now. */
  lemma UnassignedOwners(cfg: Settings, s: State, a: AgentId)
    requires Inv(cfg, s) && OwnersOk(s) && Enabled(s, MonitorUnassign(a)) && s.agents[a].requeue != []
    ensures var t := MonitorUnassignStep(s, a);
      (forall id {:trigger OwnerOk(t, id)} :: OwnerOk(t, id)) && PusherOk(t, a)
  {
    var t := MonitorUnassignStep(s, a);
    var g := s.agents[a];
    var x := g.requeue[0].id;
    HeldId(cfg, s, a, 0);
    assert AgentOk(cfg, s, g) && ItemOk(cfg, s, g.requeue[0], g.w) && OwnerOk(s, x);
    assert ContainerOk(s, InHand(a));
    NotYetRequeued(cfg, s, x);
    forall id ensures OwnerOk(t, id) {
      assert OwnerOk(s, id);
    }
  }

  /** An id in the hand of a requeuing monitor that still belongs to a worker keeps its assignment. */
  lemma NotYetRequeued(cfg: Settings, s: State, id: TaskId)
    requires id in s.submitted && id in s.redis.tasks && s.redis.tasks[id].data.Some? && OwnerOk(s, id)
    requires id in s.place && s.place[id].InHand? && s.place[id].a in s.agents && s.agents[s.place[id].a].Requeuing?
    requires RequeuesOk(cfg, s)
    ensures s.redis.tasks[id].data.value.assignedTo == s.submitted[id].payload.assignedTo
  {
    if id in ItemIds(s.requeued) { RequeuedIsPast(cfg, s, id); }
  }

  lemma RequeuedIsPast(cfg: Settings, s: State, id: TaskId)
    requires RequeuesOk(cfg, s) && id in ItemIds(s.requeued)
    ensures PastWorkerQueue(s, id)
  {
    var i :| 0 <= i < |s.requeued| && ItemIds(s.requeued)[i] == id;
    assert PastWorkerQueue(s, s.requeued[i].id);
  }

  lemma PushOwners(cfg: Settings, s: State, a: AgentId)
    requires PlacesOk(s) && DataOk(cfg, s) && OwnersOk(s) && Enabled(s, MonitorPush(a))
    ensures OwnersOk(MonitorPushStep(s, a))
  {
    var t := MonitorPushStep(s, a);
    var g := s.agents[a];
    assert PusherOk(s, a);
    assert ItemIds(t.requeued) == ItemIds(s.requeued) + [g.item.id];
    forall id ensures OwnerOk(t, id) {
      assert OwnerOk(s, id);
    }
    forall b ensures PusherOk(t, b) {
      assert PusherOk(s, b);
    }
    forall i | 0 <= i < |t.requeued| ensures RequeueOk(t, i) {
      assert i < |s.requeued| ==> RequeueOk(s, i);
    }
    forall i | 0 <= i < |t.delivered| ensures DeliveryOk(t, i) {
      assert DeliveryOk(s, i);
    }
  }

  lemma StepOwners(cfg: Settings, s: State, e: Event)
    requires Inv(cfg, s) && OwnersOk(s) && Enabled(s, e)
    ensures OwnersOk(Apply(cfg, s, e))
  {
    match e
    case SubmitTask(req, now) => SubmitOwners(cfg, s, req, now);
    case TakeMark(a, now) => MarkOwners(cfg, s, a, now);
    case MonitorUnassign(a) => UnassignOwners(cfg, s, a);
    case MonitorPush(a) => PushOwners(cfg, s, a);
    case TakePop(a) => TakePopOwners(s, a);
    case MonitorPop(a) => MonitorPopOwners(s, a);
    case MonitorPutBack(a) => PutBackOwners(cfg, s, a);
    case MonitorLook(a) => LookOwners(cfg, s, a);
    case TakeFetch(a) => FetchOwners(s, a);
    case StartTaking(_, _) => StartOwners(cfg, s, e);
    case StartMonitor(_, _, _) => StartOwners(cfg, s, e);
    case _ => StatusOwners(cfg, s, e);
  }

  /** An id leaves its queue. */
  lemma PoppedOwners(s: State, t: State, a: AgentId, id: TaskId)
    requires OwnersOk(s) && id in s.place && s.place[id].InQueue?
    requires t.redis.tasks == s.redis.tasks && t.submitted == s.submitted && t.place.Keys == s.place.Keys
    requires forall j :: j in t.place && j != id ==> t.place[j] == s.place[j]
    requires t.requeued == s.requeued && t.delivered == s.delivered
    requires a in s.agents && !s.agents[a].Pushing? && (a in t.agents ==> !t.agents[a].Pushing?)
    requires s.agents - {a} == t.agents - {a}
    ensures OwnersOk(t)
  {
    forall b | b != a ensures b in s.agents <==> b in t.agents
                      ensures b in s.agents ==> t.agents[b] == s.agents[b] {
      assert b in s.agents - {a} <==> b in t.agents - {a};
      assert b in s.agents ==> (s.agents - {a})[b] == (t.agents - {a})[b];
    }
    OwnersFrame(s, t);
  }

  lemma PoppedFrom(s: State, q: QueueKey) returns (id: TaskId)
    requires PlacesOk(s) && ListOf(s.redis, q) != []
    ensures RPop(s.redis, q).1 == Some(id) && id in s.place && s.place[id] == InQueue(q)
  {
    assert ContainerOk(s, InQueue(q));
    id := RPop(s.redis, q).1.value;
    assert id in Contents(s, InQueue(q));
  }

  lemma TakePopOwners(s: State, a: AgentId)
    requires PlacesOk(s) && OwnersOk(s) && Enabled(s, TakePop(a))
    ensures OwnersOk(TakePopStep(s, a))
  {
    var g := s.agents[a];
    if g.next < 4 && ListOf(s.redis, Choice(g.w, g.next)) != [] {
      var id := PoppedFrom(s, Choice(g.w, g.next));
      PoppedOwners(s, TakePopStep(s, a), a, id);
    } else {
      OwnersFrame(s, TakePopStep(s, a));
    }
  }

  lemma MonitorPopOwners(s: State, a: AgentId)
    requires PlacesOk(s) && OwnersOk(s) && Enabled(s, MonitorPop(a))
    ensures OwnersOk(MonitorPopStep(s, a))
  {
    var g := s.agents[a];
    if ListOf(s.redis, Own(g.w)) == [] || g.budget == 0 {
      OwnersFrame(s, MonitorPopStep(s, a));
    } else {
      var id := PoppedFrom(s, Own(g.w));
      MonitorPopChanges(s, a, id);
      MonitorPopAgents(s, a);
      PoppedOwners(s, MonitorPopStep(s, a), a, id);
    }
  }

  lemma MonitorPopChanges(s: State, a: AgentId, id: TaskId)
    requires Enabled(s, MonitorPop(a)) && s.agents[a].budget != 0 && RPop(s.redis, Own(s.agents[a].w)).1 == Some(id)
    requires id in s.place
    ensures var t := MonitorPopStep(s, a);
      && t.redis.tasks == s.redis.tasks && t.submitted == s.submitted && t.place.Keys == s.place.Keys
      && (forall j :: j in t.place && j != id ==> t.place[j] == s.place[j])
      && t.requeued == s.requeued && t.delivered == s.delivered
  {
  }

  lemma MonitorPopAgents(s: State, a: AgentId)
    requires Enabled(s, MonitorPop(a))
    ensures var t := MonitorPopStep(s, a);
      a in t.agents && !t.agents[a].Pushing? && s.agents - {a} == t.agents - {a}
  {
  }

  lemma PutBackOwners(cfg: Settings, s: State, a: AgentId)
    requires PlacesOk(s) && DataOk(cfg, s) && OwnersOk(s) && Enabled(s, MonitorPutBack(a))
    ensures OwnersOk(MonitorPutBackStep(s, a))
  {
    var g := s.agents[a];
    if g.keep != [] {
      HeldId(cfg, s, a, |g.keep| - 1);
    }
    OwnersFrame(s, MonitorPutBackStep(s, a));
  }

  lemma StartOwners(cfg: Settings, s: State, e: Event)
    requires OwnersOk(s) && Enabled(s, e) && (e.StartTaking? || e.StartMonitor?)
    ensures OwnersOk(Apply(cfg, s, e))
  {
    OwnersFrame(s, Apply(cfg, s, e));
  }

  lemma LookOwners(cfg: Settings, s: State, a: AgentId)
    requires OwnersOk(s) && Enabled(s, MonitorLook(a))
    ensures OwnersOk(MonitorLookStep(cfg, s, a))
  {
    LookShape(cfg, s, a);
    OwnersFrame(s, MonitorLookStep(cfg, s, a));
  }

  lemma FetchOwners(s: State, a: AgentId)
    requires OwnersOk(s) && Enabled(s, TakeFetch(a))
    ensures OwnersOk(TakeFetchStep(s, a))
  {
    OwnersFrame(s, TakeFetchStep(s, a));
  }

  lemma StatusOwners(cfg: Settings, s: State, e: Event)
    requires PlacesOk(s) && DataOk(cfg, s) && OwnersOk(s) && Enabled(s, e)
    requires e.PutResult? || e.MarkCompleted? || e.PutError? || e.MarkFailed?
    ensures OwnersOk(Apply(cfg, s, e))
  {
    if e.MarkCompleted? {
      MarkedOwners(cfg, s, e.id, Completed);
    } else if e.MarkFailed? {
      MarkedOwners(cfg, s, e.id, Failed);
    } else {
      OwnersFrame(s, Apply(cfg, s, e));
    }
  }

  lemma MarkedOwners(cfg: Settings, s: State, id: TaskId, status: Status)
    requires PlacesOk(s) && DataOk(cfg, s) && OwnersOk(s)
    ensures OwnersOk(s.(redis := MarkStatus(s.redis, id, status)))
  {
    forall x | x in s.submitted ensures x in s.redis.tasks {
      assert IdOk(s, x);
    }
    OwnersFrame(s, s.(redis := MarkStatus(s.redis, id, status)));
  }

  lemma StepLost(cfg: Settings, s: State, e: Event)
    requires LostOk(s) && Enabled(s, e)
    ensures LostOk(Apply(cfg, s, e))
  {
    match e
    case MonitorPop(a) => assert Apply(cfg, s, e) == MonitorPopStep(s, a);
    case MonitorLook(a) => LookShape(cfg, s, a);
    case _ =>
  }

  lemma {:induction false} RunOwners(cfg: Settings, s: State, events: seq<Event>)
    requires Inv(cfg, s) && OwnersOk(s) && LostOk(s)
    ensures Inv(cfg, Run(cfg, s, events)) && OwnersOk(Run(cfg, s, events)) && LostOk(Run(cfg, s, events))
    decreases |events|
  {
    if events != [] {
      StepInv(cfg, s, events[0]);
      if Enabled(s, events[0]) {
        StepOwners(cfg, s, events[0]);
        StepLost(cfg, s, events[0]);
      }
      RunOwners(cfg, Step(cfg, s, events[0]), events[1..]);
    }
  }

  // ---- results ----

  /** The last completed payload and the last error recorded for a task, if any. */
  function LastResult(events: seq<Event>, id: TaskId): Option<Outcome> {
    if events == [] then None
    else
      var e := events[|events| - 1];
      if e.PutResult? && e.id == id then Some(e.out) else LastResult(events[..|events| - 1], id)
  }

  function LastError(events: seq<Event>, id: TaskId): Option<string> {
    if events == [] then None
    else
      var e := events[|events| - 1];
      if e.PutError? && e.id == id then Some(e.message) else LastError(events[..|events| - 1], id)
  }

  lemma {:induction false} RunSnoc(cfg: Settings, s: State, events: seq<Event>, e: Event)
    ensures Run(cfg, s, events + [e]) == Step(cfg, Run(cfg, s, events), e)
    decreases |events|
  {
    if events == [] {
      assert [e][1..] == [];
      assert [] + [e] == [e];
    } else {
      assert (events + [e])[1..] == events[1..] + [e];
      RunSnoc(cfg, Step(cfg, s, events[0]), events[1..], e);
    }
  }

  lemma UntouchedResults(cfg: Settings, s: State, e: Event)
    requires Enabled(s, e) && !e.PutResult? && !e.PutError?
    ensures Apply(cfg, s, e).redis.results == s.redis.results
  {
    match e
    case SubmitTask(req, now) =>
    case TakePop(a) => assert Apply(cfg, s, e) == TakePopStep(s, a);
    case MonitorPop(a) => assert Apply(cfg, s, e) == MonitorPopStep(s, a);
    case MonitorPutBack(a) => assert Apply(cfg, s, e) == MonitorPutBackStep(s, a);
    case MonitorPush(a) => assert Apply(cfg, s, e) == MonitorPushStep(s, a);
    case MonitorUnassign(a) => assert Apply(cfg, s, e) == MonitorUnassignStep(s, a);
    case MonitorLook(a) => LookShape(cfg, s, a);
    case _ =>
  }

  lemma StepResults(cfg: Settings, s: State, e: Event, id: TaskId)
    ensures var t := Step(cfg, s, e);
      && (id in t.redis.results <==> id in s.redis.results || ((e.PutResult? || e.PutError?) && e.id == id))
      && ResultOf(t.redis, id).result ==
           (if e.PutResult? && e.id == id then Some(e.out) else ResultOf(s.redis, id).result)
      && ResultOf(t.redis, id).error ==
           (if e.PutError? && e.id == id then Some(e.message) else ResultOf(s.redis, id).error)
  {
    if Enabled(s, e) && !e.PutResult? && !e.PutError? {
      UntouchedResults(cfg, s, e);
    }
  }

  /** Results are permanent: what is answered for a task is its latest completed payload if it
      ever got one, else its latest error; no submit, pop, requeue, fail or cancel hides it. */
  lemma {:induction false} AnswerIsLatest(cfg: Settings, events: seq<Event>, id: TaskId)
    ensures var r := After(cfg, events).redis;
      && (id in r.results <==> LastResult(events, id).Some? || LastError(events, id).Some?)
      && ResultOf(r, id) == ResultHash(LastResult(events, id), LastError(events, id))
      && GetTaskResult(r, id) == (if LastResult(events, id).Some? then Result(LastResult(events, id).value)
                                  else if LastError(events, id).Some? then Error(LastError(events, id).value)
                                  else NoAnswer)
      && (LastResult(events, id).Some? ==>
            GetTaskStatus(r, id) == Some(if LastResult(events, id).value.failedStatus then Failed else Completed))
      && (LastResult(events, id).None? && LastError(events, id).Some? ==> GetTaskStatus(r, id) == Some(Failed))
      && (LastResult(events, id).None? && LastError(events, id).None? ==>
            GetTaskStatus(r, id) == if id !in r.tasks then None
                                    else if r.tasks[id].status == None then Some(Pending) else r.tasks[id].status)
    decreases |events|
  {
    if events != [] {
      var n := |events| - 1;
      AnswerIsLatest(cfg, events[..n], id);
      assert events == events[..n] + [events[n]];
      RunSnoc(cfg, INITIAL, events[..n], events[n]);
      StepResults(cfg, After(cfg, events[..n]), events[n], id);
    }
  }

  function TakeAll(a: AgentId, w: WorkerName, now: real): seq<Event> {
    [StartTaking(a, w), TakePop(a), TakeFetch(a), TakeMark(a, now)]
  }

  /** A worker that asks gets the oldest task of its own queue, whatever the task's status. */
  lemma OwnTaskIsDelivered(cfg: Settings, s: State, a: AgentId, w: WorkerName, id: TaskId, now: real)
    requires a !in s.agents && RPop(s.redis, Own(w)).1 == Some(id) && HashOf(s.redis, id).data.Some?
    ensures var t := Run(cfg, s, TakeAll(a, w, now));
      && t.delivered == s.delivered + [Delivery(id, w, HashOf(s.redis, id).data.value)]
      && HashOf(t.redis, id) == HashOf(s.redis, id).(status := Some(Processing), startedAt := Some(now))
      && t.redis.lists == RPop(s.redis, Own(w)).0.lists
      && t.redis.results == s.redis.results
  {
    var events := TakeAll(a, w, now);
    var s1 := Become(s, a, Taking(w, 0));
    var s2 := TakePopStep(s1, a);
    OwnTaskIsPopped(s1, a, w, id);
    var s3 := TakeFetchStep(s2, a);
    assert s3 == Become(s2, a, Marking(w, id, HashOf(s.redis, id).data.value));
    Unroll(cfg, s, events);
    Unroll(cfg, s1, events[1..]);
    Unroll(cfg, s2, events[2..]);
    Unroll(cfg, s3, events[3..]);
    assert Run(cfg, s, events) == TakeMarkStep(s3, a, now);
  }

  lemma OwnTaskIsPopped(s: State, a: AgentId, w: WorkerName, id: TaskId)
    requires a in s.agents && s.agents[a] == Taking(w, 0) && RPop(s.redis, Own(w)).1 == Some(id)
    ensures var t := TakePopStep(s, a);
      && a in t.agents && t.agents[a] == Fetching(w, id) && t.redis == RPop(s.redis, Own(w)).0
      && t.delivered == s.delivered
  {
  }

  lemma {:induction false} RunConcat(cfg: Settings, s: State, before: seq<Event>, after: seq<Event>)
    ensures Run(cfg, s, before + after) == Run(cfg, Run(cfg, s, before), after)
    decreases |before|
  {
    if before == [] {
      assert [] + after == after;
    } else {
      assert (before + after)[1..] == before[1..] + after;
      RunConcat(cfg, Step(cfg, s, before[0]), before[1..], after);
    }
  }

  function SubmitAndCancel(req: Request, now: real): seq<Event> {
    [SubmitTask(req, now), PutError(req.id, "Task cancelled"), MarkFailed(req.id)]
  }

  lemma FirstTask(cfg: Settings, req: Request, now: real)
    requires SubmitStatus(cfg, INITIAL.redis, req).Accepted?
    ensures Submit(cfg, INITIAL.redis, req, now).lists == map[TargetOf(req) := [req.id]]
  {
    assert [req.id] + ListOf(INITIAL.redis, TargetOf(req)) == [req.id];
    assert INITIAL.redis.lists[TargetOf(req) := [req.id]] == map[TargetOf(req) := [req.id]];
  }

  lemma Cancelled(cfg: Settings, req: Request, now: real)
    requires SubmitStatus(cfg, INITIAL.redis, req).Accepted?
    ensures var s := After(cfg, SubmitAndCancel(req, now));
      && s.agents == map[] && s.delivered == []
      && s.redis.lists == map[TargetOf(req) := [req.id]]
      && HashOf(s.redis, req.id) == NewHash(cfg, req, now).(status := Some(Failed))
      && req.id in s.redis.results && ResultOf(s.redis, req.id) == ResultHash(None, Some("Task cancelled"))
  {
    var events := SubmitAndCancel(req, now);
    var s1 := Step(cfg, INITIAL, events[0]);
    FirstTask(cfg, req, now);
    var s2 := Step(cfg, s1, events[1]);
    Unroll(cfg, INITIAL, events);
    Unroll(cfg, s1, events[1..]);
    Unroll(cfg, s2, events[2..]);
  }

  lemma Unroll(cfg: Settings, s: State, events: seq<Event>)
    requires events != []
    ensures Run(cfg, s, events) == Run(cfg, Step(cfg, s, events[0]), events[1..])
  {
  }

  // ---- the empty id ----

  /** The empty id, submitted for a worker, is lost by the first pass over that worker's queue. */
  lemma EmptyIdIsLost(cfg: Settings, req: Request, w: WorkerName, now: real)
    requires SubmitStatus(cfg, INITIAL.redis, req).Accepted? && req.id == "" && TargetOf(req) == Own(w)
    ensures var s := After(cfg, [SubmitTask(req, now), StartMonitor(0, w, now), MonitorPop(0)]);
      && "" in s.submitted && s.lost == [""]
      && (forall q :: ListOf(s.redis, q) == []) && s.delivered == []
  {
    var events := [SubmitTask(req, now), StartMonitor(0, w, now), MonitorPop(0)];
    var s1 := SubmitStep(cfg, INITIAL, req, now);
    FirstTask(cfg, req, now);
    var s2 := Become(s1, 0, Scanning(w, now, ScanBudget(cfg), [], []));
    var s3 := MonitorPopStep(s2, 0);
    assert s3.redis.lists == map[Own(w) := []];
    assert events[1..] == [StartMonitor(0, w, now), MonitorPop(0)] && events[2..] == [MonitorPop(0)];
    Unroll(cfg, INITIAL, events);
    Unroll(cfg, s1, events[1..]);
    Unroll(cfg, s2, events[2..]);
  }

  /** Where anything is accepted at all, an id is never lost exactly when it is not the empty one. */
  lemma LostExactly(cfg: Settings, req: Request, id: TaskId)
    requires SubmitStatus(cfg, INITIAL.redis, req).Accepted?
    ensures (forall events :: id !in After(cfg, events).lost) <==> id != ""
  {
    if id == "" {
      var empty := req.(id := "", payload := req.payload.(assignedTo := "w"));
      EmptyIdIsLost(cfg, empty, "w", 0.0);
    } else {
      forall events ensures id !in After(cfg, events).lost {
        AfterInv(cfg, events);
      }
    }
  }
}
