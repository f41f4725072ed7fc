/**
 When a terminal status is for good: which tasks can still be delivered, and therefore reopened, in
 some later run, and what that means for a task being cancelled.
 */
module QueueTerminal {
  import opened Common
  import opened QueueSpec
  import opened QueueProtocol
  import opened QueueSafety
  import opened QueueResults
  import opened QueueObjects
  import opened QueueAlone

  function StatusOf(r: Redis, id: TaskId): Option<Status> { HashOf(r, id).status }

  predicate Ended(r: Redis, id: TaskId) { StatusOf(r, id) in {Some(Completed), Some(Failed)} }

  /** The task is in no queue and no hand. */
  predicate Settled(s: State, id: TaskId) {
    id in s.place ==> s.place[id].Delivered? || s.place[id].Lost?
  }

  /** Some delivery made between s and t is of this task. */
  predicate DeliveredSince(s: State, t: State, id: TaskId) {
    exists i :: |s.delivered| <= i < |t.delivered| && t.delivered[i].id == id
  }

  /** A worker writes the status of the task it has fetched. */
  predicate Reopens(s: State, e: Event, id: TaskId) {
    e.TakeMark? && Enabled(s, e) && s.agents[e.a].id == id
  }

  // ---- one step ----

  lemma UnassignKeepsStatus(s: State, a: AgentId, id: TaskId)
    requires Enabled(s, MonitorUnassign(a))
    ensures StatusOf(MonitorUnassignStep(s, a).redis, id) == StatusOf(s.redis, id)
    ensures id in s.redis.tasks ==> id in MonitorUnassignStep(s, a).redis.tasks
  {
  }

  /** The events that write a status. */
  predicate Writes(e: Event) { e.SubmitTask? || e.TakeMark? || e.MarkCompleted? || e.MarkFailed? }

  lemma UntouchedTasks(cfg: Settings, s: State, e: Event)
    requires Enabled(s, e) && !Writes(e) && !e.MonitorUnassign?
    ensures Apply(cfg, s, e).redis.tasks == s.redis.tasks
  {
    match e
    case TakePop(a) => assert Apply(cfg, s, e) == TakePopStep(s, a);
    case TakeFetch(a) => assert Apply(cfg, s, e) == TakeFetchStep(s, a);
    case MonitorPop(a) => assert Apply(cfg, s, e) == MonitorPopStep(s, a);
    case MonitorLook(a) => LookShape(cfg, s, a);
    case MonitorPutBack(a) => assert Apply(cfg, s, e) == MonitorPutBackStep(s, a);
    case MonitorPush(a) => assert Apply(cfg, s, e) == MonitorPushStep(s, a);
    case _ =>
  }

  lemma UntouchedStatus(cfg: Settings, s: State, e: Event, id: TaskId)
    requires !Writes(e)
    ensures StatusOf(Step(cfg, s, e).redis, id) == StatusOf(s.redis, id)
    ensures id in s.redis.tasks ==> id in Step(cfg, s, e).redis.tasks
  {
    if Enabled(s, e) {
      if e.MonitorUnassign? { UnassignKeepsStatus(s, e.a, id); } else { UntouchedTasks(cfg, s, e); }
    }
  }

  /** Only a delivery ends a terminal status. */
  lemma StepEnds(cfg: Settings, s: State, e: Event, id: TaskId)
    requires Ended(s.redis, id)
    ensures Ended(Step(cfg, s, e).redis, id) <==> !Reopens(s, e, id)
  {
    if Writes(e) {
      WrittenStatus(cfg, s, e, id);
    } else {
      UntouchedStatus(cfg, s, e, id);
    }
  }

  lemma WrittenStatus(cfg: Settings, s: State, e: Event, id: TaskId)
    requires Writes(e) && id in s.redis.tasks
    ensures id in Step(cfg, s, e).redis.tasks
    ensures StatusOf(Step(cfg, s, e).redis, id) ==
            match e
            case TakeMark(_, _) => if Reopens(s, e, id) then Some(Processing) else StatusOf(s.redis, id)
            case MarkCompleted(x) => if x == id then Some(Completed) else StatusOf(s.redis, id)
            case MarkFailed(x) => if x == id then Some(Failed) else StatusOf(s.redis, id)
            case _ => StatusOf(s.redis, id)
  {
    if e.SubmitTask? {
      SubmitKeepsStatus(cfg, s, e.req, e.now, id);
    } else if Enabled(s, e) && e.TakeMark? {
      assert Step(cfg, s, e) == TakeMarkStep(s, e.a, e.now);
    }
  }

  lemma SubmitKeepsStatus(cfg: Settings, s: State, req: Request, now: real, id: TaskId)
    requires id in s.redis.tasks
    ensures id in SubmitStep(cfg, s, req, now).redis.tasks
    ensures StatusOf(SubmitStep(cfg, s, req, now).redis, id) == StatusOf(s.redis, id)
  {
  }

  lemma StepGrows(cfg: Settings, s: State, e: Event)
    ensures var t := Step(cfg, s, e); s.delivered <= t.delivered && s.lost <= t.lost
    ensures forall id :: id in Step(cfg, s, e).submitted && id !in s.submitted ==> id !in s.redis.tasks
  {
    if Enabled(s, e) {
      if !e.TakeMark? && !e.SubmitTask? { UntouchedDeliveries(cfg, s, e); }
      LostGrows(cfg, s, e);
    }
  }

  lemma LostGrows(cfg: Settings, s: State, e: Event)
    requires Enabled(s, e)
    ensures s.lost <= Apply(cfg, s, e).lost
  {
    match e
    case TakePop(a) => assert Apply(cfg, s, e) == TakePopStep(s, a);
    case TakeFetch(a) => assert Apply(cfg, s, e) == TakeFetchStep(s, a);
    case MonitorPop(a) => assert Apply(cfg, s, e) == MonitorPopStep(s, a);
    case MonitorLook(a) => LookShape(cfg, s, a);
    case MonitorPutBack(a) => assert Apply(cfg, s, e) == MonitorPutBackStep(s, a);
    case MonitorUnassign(a) => assert Apply(cfg, s, e) == MonitorUnassignStep(s, a);
    case MonitorPush(a) => assert Apply(cfg, s, e) == MonitorPushStep(s, a);
    case _ =>
  }

  lemma StepDelivers(cfg: Settings, s: State, e: Event, id: TaskId)
    ensures DeliveredSince(s, Step(cfg, s, e), id) <==> Reopens(s, e, id)
  {
    if Enabled(s, e) && !e.TakeMark? && !e.SubmitTask? { UntouchedDeliveries(cfg, s, e); }
    if Reopens(s, e, id) { assert Step(cfg, s, e).delivered[|s.delivered|].id == id; }
  }

  /** A task out of every queue and hand stays so, and no worker can be about to mark it. */
  lemma StepSettled(cfg: Settings, s: State, e: Event, id: TaskId)
    requires Inv(cfg, s) && id in s.redis.tasks && Settled(s, id)
    ensures Settled(Step(cfg, s, e), id) && id in Step(cfg, s, e).redis.tasks && !Reopens(s, e, id)
  {
    var t := Step(cfg, s, e);
    StepInv(cfg, s, e);
    StepGrows(cfg, s, e);
    if id in s.place {
      assert Backed(s, id) && ContainerOk(t, s.place[id]);
      StillThere(s, t, id);
    }
    if Writes(e) { WrittenStatus(cfg, s, e, id); } else { UntouchedStatus(cfg, s, e, id); }
    assert e.TakeMark? ==> ContainerOk(s, InHand(e.a));
  }

  lemma StillThere(s: State, t: State, id: TaskId)
    requires s.delivered <= t.delivered && s.lost <= t.lost
    ensures id in Contents(s, Delivered) ==> id in Contents(t, Delivered)
    ensures id in Contents(s, Lost) ==> id in Contents(t, Lost)
  {
    if id in Contents(s, Delivered) {
      var i :| 0 <= i < |s.delivered| && DeliveredIds(s.delivered)[i] == id;
      assert DeliveredIds(t.delivered)[i] == id;
    }
  }

  // ---- whole runs ----

  lemma {:induction false} RunSettled(cfg: Settings, s: State, events: seq<Event>, id: TaskId)
    requires Inv(cfg, s) && id in s.redis.tasks && Settled(s, id)
    ensures var t := Run(cfg, s, events);
      s.delivered <= t.delivered && !DeliveredSince(s, t, id) && (Ended(s.redis, id) ==> Ended(t.redis, id))
    decreases |events|
  {
    if events != [] {
      var u := Step(cfg, s, events[0]);
      StepInv(cfg, s, events[0]);
      StepGrows(cfg, s, events[0]);
      StepSettled(cfg, s, events[0], id);
      StepDelivers(cfg, s, events[0], id);
      if Ended(s.redis, id) { StepEnds(cfg, s, events[0], id); }
      RunSettled(cfg, u, events[1..], id);
      NotSince(s, u, Run(cfg, u, events[1..]), id);
    }
  }

  lemma NotSince(s: State, u: State, t: State, id: TaskId)
    requires s.delivered <= u.delivered <= t.delivered
    ensures DeliveredSince(s, t, id) <==> DeliveredSince(s, u, id) || DeliveredSince(u, t, id)
  {
    if DeliveredSince(s, u, id) {
      var i :| |s.delivered| <= i < |u.delivered| && u.delivered[i].id == id;
      assert t.delivered[i].id == id;
    }
    if DeliveredSince(s, t, id) {
      var i :| |s.delivered| <= i < |t.delivered| && t.delivered[i].id == id;
      assert i < |u.delivered| ==> u.delivered[i].id == id;
    }
  }

  lemma {:induction false} RunGrows(cfg: Settings, s: State, events: seq<Event>)
    ensures s.delivered <= Run(cfg, s, events).delivered
    decreases |events|
  {
    if events != [] {
      StepGrows(cfg, s, events[0]);
      RunGrows(cfg, Step(cfg, s, events[0]), events[1..]);
    }
  }

  // ---- from a queue to a worker ----

  lemma {:induction false} FreshAgent(known: set<AgentId>) returns (a: AgentId)
    ensures forall b :: b in known ==> b < a
    decreases |known|
  {
    a := 0;
    if known != {} {
      var b := SomeElement(known);
      a := FreshAgent(known - {b});
      assert known == known - {b} + {b};
      if a <= b { a := b + 1; }
    }
  }

  /** Worker w tries queue q. */
  predicate Tries(w: WorkerName, q: QueueKey) { q == Choice(w, TurnOf(q)) }

  /** How many tasks w would be handed if it asked for ever. */
  function Waiting(r: Redis, w: WorkerName): nat {
    |ListOf(r, Choice(w, 0))| + |ListOf(r, Choice(w, 1))| + |ListOf(r, Choice(w, 2))| + |ListOf(r, Choice(w, 3))|
  }

  lemma {:induction false} ReversedMembers<T>(l: seq<T>, x: T)
    ensures x in Reversed(l) <==> x in l
  {
    if l != [] {
      ReversedMembers(l[1..], x);
      assert l == [l[0]] + l[1..];
    }
  }

  /** The task w is handed, the first of its queues losing it. */
  function Head(r: Redis, w: WorkerName): TaskId
    requires FirstFilled(r, w, 0) < 4
  {
    RPop(r, Choice(w, FirstFilled(r, w, 0))).1.value
  }

  lemma SomeQueueFilled(r: Redis, w: WorkerName, q: QueueKey)
    requires Tries(w, q) && ListOf(r, q) != []
    ensures FirstFilled(r, w, 0) < 4
  {
    assert q == Choice(w, TurnOf(q));
  }

  lemma LessWaiting(r: Redis, t: Redis, w: WorkerName, k: nat)
    requires k < 4 && |ListOf(t, Choice(w, k))| < |ListOf(r, Choice(w, k))|
    requires forall q :: q != Choice(w, k) ==> ListOf(t, q) == ListOf(r, q)
    ensures Waiting(t, w) < Waiting(r, w)
  {
  }

  /** What handing out a task does to Redis. */
  lemma HandsOut(r: Redis, w: WorkerName, now: real)
    requires FirstFilled(r, w, 0) < 4 && HashOf(r, Head(r, w)).data.Some?
    ensures var (t, task) := GetNext(r, w, now);
      && task.Some? && t.results == r.results && StatusOf(t, Head(r, w)) == Some(Processing)
      && t.lists == RPop(r, Choice(w, FirstFilled(r, w, 0))).0.lists
  {
  }

  lemma HeadHasData(cfg: Settings, s: State, w: WorkerName)
    requires Inv(cfg, s) && FirstFilled(s.redis, w, 0) < 4
    ensures HashOf(s.redis, Head(s.redis, w)).data.Some?
  {
    var q := Choice(w, FirstFilled(s.redis, w, 0));
    assert ContainerOk(s, InQueue(q));
    PopFacts(s.redis, q);
    assert Head(s.redis, w) in Contents(s, InQueue(q));
    assert IdOk(s, Head(s.redis, w));
  }

  /** A worker that asks is handed a task: this one, marked processing, or one ahead of it. */
  lemma ServesOne(cfg: Settings, s: State, w: WorkerName, q: QueueKey, id: TaskId, now: real)
    requires Inv(cfg, s) && id in s.place && s.place[id] == InQueue(q) && Tries(w, q)
    ensures FirstFilled(s.redis, w, 0) < 4
    ensures var (r, task) := GetNext(s.redis, w, now);
      && task.Some? && r.results == s.redis.results && Waiting(r, w) < Waiting(s.redis, w)
      && (Head(s.redis, w) == id ==> StatusOf(r, id) == Some(Processing))
      && (Head(s.redis, w) != id ==> id in ListOf(r, q))
  {
    assert Backed(s, id);
    SomeQueueFilled(s.redis, w, q);
    HeadHasData(cfg, s, w);
    HandsOut(s.redis, w, now);
    var k := FirstFilled(s.redis, w, 0);
    var popped, r := RPop(s.redis, Choice(w, k)).0, GetNext(s.redis, w, now).0;
    assert ContainerOk(s, InQueue(Choice(w, k)));
    PopFacts(s.redis, Choice(w, k));
    assert forall x :: ListOf(r, x) == ListOf(popped, x);
    LessWaiting(s.redis, r, w, k);
  }

  /** What reaching a worker comes to: delivered, processing, and the stored answer as it was. */
  ghost predicate Reached(s: State, t: State, id: TaskId) {
    && DeliveredSince(s, t, id) && StatusOf(t.redis, id) == Some(Processing) && t.redis.results == s.redis.results
  }

  lemma ReachedLater(s: State, u: State, t: State, id: TaskId)
    requires s.delivered <= u.delivered <= t.delivered && u.redis.results == s.redis.results && Reached(u, t, id)
    ensures Reached(s, t, id)
  {
    NotSince(s, u, t, id);
  }

  /** A worker that keeps asking is handed every task in the queues it tries. */
  lemma {:induction false} TakenInTurn(cfg: Settings, s: State, w: WorkerName, q: QueueKey, id: TaskId)
    returns (events: seq<Event>)
    requires Inv(cfg, s) && id in s.place && s.place[id] == InQueue(q) && Tries(w, q)
    ensures Reached(s, Run(cfg, s, events), id)
    decreases Waiting(s.redis, w)
  {
    var a := FreshAgent(s.agents.Keys);
    events := TakeAlone(a, w, 0.0);
    var u := Run(cfg, s, events);
    RunInv(cfg, s, events);
    RunGrows(cfg, s, events);
    TakingAloneIsGetNext(cfg, s, a, w, 0.0);
    ServesOne(cfg, s, w, q, id, 0.0);
    PoppedOldest(s.redis, Choice(w, FirstFilled(s.redis, w, 0)));
    if Head(s.redis, w) == id {
      assert u.delivered[|s.delivered|].id == id;
    } else {
      assert ContainerOk(u, InQueue(q)) && id in Contents(u, InQueue(q));
      var more := TakenInTurn(cfg, u, w, q, id);
      RunConcat(cfg, s, events, more);
      RunGrows(cfg, u, more);
      ReachedLater(s, u, Run(cfg, u, more), id);
      events := events + more;
    }
  }

  // ---- from a hand to a queue or a worker ----

  lemma HandedOver(cfg: Settings, s: State, a: AgentId, id: TaskId) returns (events: seq<Event>)
    requires Inv(cfg, s) && a in s.agents && s.agents[a].IsTaker() && id in HandOf(s.agents[a])
    ensures Reached(s, Run(cfg, s, events), id)
  {
    assert AgentOk(cfg, s, s.agents[a]);
    if s.agents[a].Fetching? {
      events := [TakeFetch(a), TakeMark(a, 0.0)];
      FetchedAndMarked(cfg, s, a, 0.0);
    } else {
      events := [TakeMark(a, 0.0)];
      MarkedAlone(cfg, s, a, 0.0);
      Unroll(cfg, s, events);
      assert events[1..] == [];
    }
    assert Run(cfg, s, events).delivered[|s.delivered|].id == id;
  }

  function MonitorEvent(g: Agent, a: AgentId): Event
    requires !g.IsTaker()
  {
    match g
    case Scanning(_, _, _, _, _) => MonitorPop(a)
    case Looking(_, _, _, _, _, _) => MonitorLook(a)
    case PuttingBack(_, _, _, _) => MonitorPutBack(a)
    case Requeuing(_, _, _) => MonitorUnassign(a)
    case Pushing(_, _, _, _) => MonitorPush(a)
  }

  /** How far a monitor is from the end of its pass: the loop it is in, and the steps left in that loop. */
  function Loop(g: Agent): nat {
    match g
    case Scanning(_, _, _, _, _) => 2
    case Looking(_, _, _, _, _, _) => 2
    case PuttingBack(_, _, _, _) => 1
    case _ => 0
  }

  function StepsLeft(g: Agent): nat {
    match g
    case Scanning(_, _, budget, _, _) => 2 * budget
    case Looking(_, _, budget, _, _, _) => 2 * budget + 1
    case PuttingBack(_, _, keep, _) => |keep|
    case Requeuing(_, _, requeue) => 2 * |requeue|
    case Pushing(_, _, _, requeue) => 2 * |requeue| + 1
    case _ => 0
  }

  predicate Nearer(h: Agent, g: Agent) { Loop(h) < Loop(g) || (Loop(h) == Loop(g) && StepsLeft(h) < StepsLeft(g)) }

  /** A monitor's step puts the task into a queue, or keeps it and comes nearer to the end of its pass. */
  ghost predicate MovesOn(s: State, t: State, a: AgentId, id: TaskId)
    requires a in s.agents
  {
    || (id in t.place && t.place[id].InQueue?)
    || (a in t.agents && !t.agents[a].IsTaker() && id in HandOf(t.agents[a]) && Nearer(t.agents[a], s.agents[a]))
  }

  lemma PopMovesOn(s: State, a: AgentId, id: TaskId)
    requires a in s.agents && s.agents[a].Scanning? && id in HandOf(s.agents[a])
    ensures MovesOn(s, MonitorPopStep(s, a), a, id)
  {
  }

  lemma LookMovesOn(cfg: Settings, s: State, a: AgentId, id: TaskId)
    requires a in s.agents && s.agents[a].Looking? && id in HandOf(s.agents[a]) && s.agents[a].id in s.redis.tasks
    ensures MovesOn(s, MonitorLookStep(cfg, s, a), a, id)
  {
    var g, h := s.agents[a], MonitorLookStep(cfg, s, a).agents[a];
    if h.keep == g.keep {
      assert ItemIds(h.requeue) == ItemIds(g.requeue) + [g.id];
    }
  }

  lemma PutBackMovesOn(s: State, a: AgentId, id: TaskId)
    requires a in s.agents && s.agents[a].PuttingBack? && id in HandOf(s.agents[a])
    ensures MovesOn(s, MonitorPutBackStep(s, a), a, id)
  {
    if s.agents[a].keep != [] { PutBackOneMovesOn(s, a, id); }
  }

  lemma PutBackOneMovesOn(s: State, a: AgentId, id: TaskId)
    requires a in s.agents && s.agents[a].PuttingBack? && id in HandOf(s.agents[a]) && s.agents[a].keep != []
    ensures MovesOn(s, MonitorPutBackStep(s, a), a, id)
  {
    var g := s.agents[a];
    var n := |g.keep| - 1;
    assert g.keep == g.keep[..n] + [g.keep[n]];
    assert id in g.keep[..n] || id == g.keep[n] || id in ItemIds(g.requeue);
    var t := MonitorPutBackStep(s, a);
    assert t.agents[a] == PuttingBack(g.w, g.now, g.keep[..n], g.requeue);
    assert t.place == s.place[g.keep[n] := InQueue(Own(g.w))];
  }

  lemma UnassignMovesOn(s: State, a: AgentId, id: TaskId)
    requires a in s.agents && s.agents[a].Requeuing? && id in HandOf(s.agents[a])
    ensures MovesOn(s, MonitorUnassignStep(s, a), a, id)
  {
    var items := s.agents[a].requeue;
    assert items == [items[0]] + items[1..];
    assert ItemIds(items) == [items[0].id] + ItemIds(items[1..]);
  }

  lemma PushMovesOn(s: State, a: AgentId, id: TaskId)
    requires a in s.agents && s.agents[a].Pushing? && id in HandOf(s.agents[a])
    ensures MovesOn(s, MonitorPushStep(s, a), a, id)
  {
  }

  lemma MonitorMovesOn(cfg: Settings, s: State, a: AgentId, id: TaskId)
    requires Inv(cfg, s) && a in s.agents && !s.agents[a].IsTaker() && id in HandOf(s.agents[a])
    ensures MovesOn(s, Step(cfg, s, MonitorEvent(s.agents[a], a)), a, id)
  {
    var g := s.agents[a];
    var e := MonitorEvent(g, a);
    assert Step(cfg, s, e) == Apply(cfg, s, e);
    if g.Scanning? {
      PopMovesOn(s, a, id);
    } else if g.Looking? {
      assert AgentOk(cfg, s, g);
      LookMovesOn(cfg, s, a, id);
    } else if g.PuttingBack? {
      PutBackMovesOn(s, a, id);
    } else if g.Requeuing? {
      UnassignMovesOn(s, a, id);
    } else {
      PushMovesOn(s, a, id);
    }
  }

  /** A monitor that goes on puts every id in its hands into a queue. */
  lemma {:induction false} PutDown(cfg: Settings, s: State, a: AgentId, id: TaskId) returns (events: seq<Event>)
    requires Inv(cfg, s) && a in s.agents && !s.agents[a].IsTaker() && id in HandOf(s.agents[a])
    ensures var t := Run(cfg, s, events);
      Inv(cfg, t) && id in t.place && t.place[id].InQueue? && t.redis.results == s.redis.results
    decreases Loop(s.agents[a]), StepsLeft(s.agents[a])
  {
    var e := MonitorEvent(s.agents[a], a);
    var u := Step(cfg, s, e);
    StepInv(cfg, s, e);
    UntouchedResults(cfg, s, e);
    MonitorMovesOn(cfg, s, a, id);
    if id in u.place && u.place[id].InQueue? {
      events := [e];
      Unroll(cfg, s, events);
      assert events[1..] == [];
    } else {
      var more := PutDown(cfg, u, a, id);
      events := [e] + more;
      RunCons(cfg, s, e, more);
    }
  }

  /** Every task in a queue or a hand is delivered by some run. */
  lemma Reach(cfg: Settings, s: State, id: TaskId) returns (events: seq<Event>)
    requires Inv(cfg, s) && !Settled(s, id)
    ensures Reached(s, Run(cfg, s, events), id)
  {
    assert Backed(s, id);
    match s.place[id]
    case InQueue(q) => events := TakenInTurn(cfg, s, if q.Own? then q.w else "", q, id);
    case InHand(a) =>
      if s.agents[a].IsTaker() {
        events := HandedOver(cfg, s, a, id);
      } else {
        events := PutDown(cfg, s, a, id);
        var u := Run(cfg, s, events);
        var q := u.place[id].q;
        var more := TakenInTurn(cfg, u, if q.Own? then q.w else "", q, id);
        RunConcat(cfg, s, events, more);
        RunGrows(cfg, s, events);
        RunGrows(cfg, u, more);
        ReachedLater(s, u, Run(cfg, u, more), id);
        events := events + more;
      }
  }

  // ---- exactly when ----

  /** The run delivers the task. */
  predicate DeliveredBy(cfg: Settings, s: State, events: seq<Event>, id: TaskId) {
    DeliveredSince(s, Run(cfg, s, events), id)
  }

  /** A known task can still be delivered exactly while it is in a queue or a hand. */
  lemma DeliverableExactly(cfg: Settings, s: State, id: TaskId)
    requires Inv(cfg, s) && id in s.redis.tasks
    ensures (exists events :: DeliveredBy(cfg, s, events, id)) <==> !Settled(s, id)
  {
    if Settled(s, id) {
      forall events ensures !DeliveredBy(cfg, s, events, id) {
        RunSettled(cfg, s, events, id);
      }
    } else {
      var events := Reach(cfg, s, id);
      assert DeliveredBy(cfg, s, events, id);
    }
  }

  /** After the run the status is terminal. */
  predicate EndedAfter(cfg: Settings, s: State, events: seq<Event>, id: TaskId) {
    Ended(Run(cfg, s, events).redis, id)
  }

  /** A terminal status is final, whatever happens later, exactly when the task is in no queue and no
      hand: it was delivered, or lost, or never accepted. */
  lemma EndedForGoodExactly(cfg: Settings, s: State, id: TaskId)
    requires Inv(cfg, s) && Ended(s.redis, id)
    ensures (forall events :: EndedAfter(cfg, s, events, id)) <==> Settled(s, id)
  {
    if Settled(s, id) {
      forall events ensures EndedAfter(cfg, s, events, id) {
        RunSettled(cfg, s, events, id);
      }
    } else {
      var events := Reach(cfg, s, id);
      assert !EndedAfter(cfg, s, events, id);
    }
  }

  // ---- what the status tells ----

  /** A processing task has been delivered, and a delivered one is not pending. */
  predicate StatusOk(s: State, id: TaskId) {
    id in s.redis.tasks ==>
      && StatusOf(s.redis, id).Some?
      && (StatusOf(s.redis, id) == Some(Processing) ==> id in DeliveredIds(s.delivered))
      && (id in DeliveredIds(s.delivered) ==> StatusOf(s.redis, id) != Some(Pending))
  }

  lemma SubmitStatusOk(cfg: Settings, s: State, req: Request, now: real, id: TaskId)
    requires Inv(cfg, s) && StatusOk(s, id)
    ensures StatusOk(SubmitStep(cfg, s, req, now), id)
  {
    if id in DeliveredIds(s.delivered) {
      assert ContainerOk(s, Delivered) && id in Contents(s, Delivered);
      assert IdOk(s, id);
    }
  }

  lemma MarkStatusOk(cfg: Settings, s: State, a: AgentId, now: real, id: TaskId)
    requires Inv(cfg, s) && StatusOk(s, id) && Enabled(s, TakeMark(a, now))
    ensures StatusOk(TakeMarkStep(s, a, now), id)
  {
    var d := s.delivered;
    var last := Delivery(s.agents[a].id, s.agents[a].w, s.agents[a].payload);
    assert DeliveredIds(d + [last]) == DeliveredIds(d) + [last.id];
    assert AgentOk(cfg, s, s.agents[a]);
  }

  lemma UnassignsKnown(cfg: Settings, s: State, a: AgentId)
    requires Inv(cfg, s) && Enabled(s, MonitorUnassign(a))
    ensures MonitorUnassignStep(s, a).redis.tasks.Keys == s.redis.tasks.Keys
  {
    assert AgentOk(cfg, s, s.agents[a]);
    if s.agents[a].requeue != [] { assert ItemOk(cfg, s, s.agents[a].requeue[0], s.agents[a].w); }
  }

  lemma StepStatusOk(cfg: Settings, s: State, e: Event, id: TaskId)
    requires Inv(cfg, s) && StatusOk(s, id)
    ensures StatusOk(Step(cfg, s, e), id)
  {
    if e.SubmitTask? {
      SubmitStatusOk(cfg, s, e.req, e.now, id);
    } else if Enabled(s, e) && e.TakeMark? {
      MarkStatusOk(cfg, s, e.a, e.now, id);
    } else if Enabled(s, e) {
      UntouchedDeliveries(cfg, s, e);
      if e.MonitorUnassign? {
        UnassignsKnown(cfg, s, e.a);
        UnassignKeepsStatus(s, e.a, id);
      } else if !Writes(e) {
        UntouchedTasks(cfg, s, e);
      }
    }
  }

  lemma {:induction false} RunStatusOk(cfg: Settings, s: State, events: seq<Event>, id: TaskId)
    requires Inv(cfg, s) && StatusOk(s, id)
    ensures StatusOk(Run(cfg, s, events), id)
    decreases |events|
  {
    if events != [] {
      StepInv(cfg, s, events[0]);
      StepStatusOk(cfg, s, events[0], id);
      RunStatusOk(cfg, Step(cfg, s, events[0]), events[1..], id);
    }
  }

  /** A task that has not ended is out of every queue and hand exactly when its status is "processing",
      or it was lost, which happens to the empty id alone. */
  lemma SettledByStatus(cfg: Settings, before: seq<Event>, id: TaskId)
    requires id in After(cfg, before).redis.tasks && !Ended(After(cfg, before).redis, id)
    ensures var s := After(cfg, before);
      && (Settled(s, id) <==> StatusOf(s.redis, id) == Some(Processing) || id in s.lost)
      && (id in s.lost ==> id == "")
  {
    var s := After(cfg, before);
    AfterInv(cfg, before);
    InitialInv(cfg);
    RunStatusOk(cfg, INITIAL, before, id);
    HasPlace(cfg, before, id);
    assert Backed(s, id) && ContainerOk(s, Delivered) && ContainerOk(s, Lost);
    assert s.place[id].Delivered? <==> id in DeliveredIds(s.delivered);
    assert s.place[id].Lost? <==> id in s.lost;
    assert StatusOf(s.redis, id).value.Pending? || StatusOf(s.redis, id).value.Processing?;
  }

  /** A hash without a submission behind it was made by a completion or a failure: it has ended. */
  predicate Known(s: State, id: TaskId) { id in s.redis.tasks ==> id in s.submitted || Ended(s.redis, id) }

  lemma MarkKnown(cfg: Settings, s: State, a: AgentId, now: real, id: TaskId)
    requires Inv(cfg, s) && Known(s, id) && Enabled(s, TakeMark(a, now))
    ensures Known(TakeMarkStep(s, a, now), id)
  {
    assert ContainerOk(s, InHand(a)) && s.agents[a].id in Contents(s, InHand(a));
  }

  lemma StepKnown(cfg: Settings, s: State, e: Event, id: TaskId)
    requires Inv(cfg, s) && Known(s, id)
    ensures Known(Step(cfg, s, e), id)
  {
    if Enabled(s, e) {
      if e.TakeMark? {
        MarkKnown(cfg, s, e.a, e.now, id);
      } else if !Writes(e) {
        OtherKnown(cfg, s, e, id);
      }
    }
  }

  lemma OtherKnown(cfg: Settings, s: State, e: Event, id: TaskId)
    requires Inv(cfg, s) && Known(s, id) && Enabled(s, e) && !Writes(e)
    ensures Known(Apply(cfg, s, e), id)
  {
    UntouchedDeliveries(cfg, s, e);
    if e.MonitorUnassign? {
      UnassignsKnown(cfg, s, e.a);
      UnassignKeepsStatus(s, e.a, id);
    } else {
      UntouchedTasks(cfg, s, e);
    }
  }

  lemma {:induction false} RunKnown(cfg: Settings, s: State, events: seq<Event>, id: TaskId)
    requires Inv(cfg, s) && Known(s, id)
    ensures Known(Run(cfg, s, events), id)
    decreases |events|
  {
    if events != [] {
      StepInv(cfg, s, events[0]);
      StepKnown(cfg, s, events[0], id);
      RunKnown(cfg, Step(cfg, s, events[0]), events[1..], id);
    }
  }

  lemma HasPlace(cfg: Settings, before: seq<Event>, id: TaskId)
    requires id in After(cfg, before).redis.tasks && !Ended(After(cfg, before).redis, id)
    ensures id in After(cfg, before).place
  {
    AfterInv(cfg, before);
    InitialInv(cfg);
    RunKnown(cfg, INITIAL, before, id);
  }

  // ---- cancelling ----

  /** What `cancel_task` writes when it accepts. */
  function AfterCancel(cfg: Settings, s: State, id: TaskId): State {
    Run(cfg, s, [PutError(id, "Task cancelled"), MarkFailed(id)])
  }

  lemma CancelWrites(cfg: Settings, s: State, id: TaskId)
    ensures AfterCancel(cfg, s, id) == s.(redis := MarkStatus(StoreError(s.redis, id, "Task cancelled"), id, Failed))
  {
    RunTwo(cfg, s, PutError(id, "Task cancelled"), MarkFailed(id));
  }

  /** After any events, an accepted cancel is final, so that no later events reopen the task or deliver
      it, exactly when its status was "processing": it had been delivered before. The one exception is
      an empty id that the monitor had lost. */
  lemma CancelIsFinalExactly(cfg: Settings, before: seq<Event>, id: TaskId)
    requires id in After(cfg, before).redis.tasks && !Ended(After(cfg, before).redis, id)
    ensures var s := After(cfg, before);
      var t := AfterCancel(cfg, s, id);
      var final := StatusOf(s.redis, id) == Some(Processing) || id in s.lost;
      && ((forall events :: EndedAfter(cfg, t, events, id)) <==> final)
      && ((exists events :: DeliveredBy(cfg, t, events, id)) <==> !final)
      && (id in s.lost ==> id == "")
  {
    var s := After(cfg, before);
    var t := AfterCancel(cfg, s, id);
    AfterInv(cfg, before);
    SettledByStatus(cfg, before, id);
    CancelWrites(cfg, s, id);
    RunInv(cfg, s, [PutError(id, "Task cancelled"), MarkFailed(id)]);
    EndedForGoodExactly(cfg, t, id);
    DeliverableExactly(cfg, t, id);
  }

  /** Otherwise some later events deliver it: its hash then says "processing", while the answer stays
      what it was after the cancel, failed unless a result had been stored. */
  lemma CancelledCanBeDelivered(cfg: Settings, before: seq<Event>, id: TaskId) returns (events: seq<Event>)
    requires id in After(cfg, before).redis.tasks && !Ended(After(cfg, before).redis, id)
    requires StatusOf(After(cfg, before).redis, id) != Some(Processing) && id != ""
    ensures var t := AfterCancel(cfg, After(cfg, before), id);
      var u := Run(cfg, t, events);
      && DeliveredBy(cfg, t, events, id) && StatusOf(u.redis, id) == Some(Processing)
      && GetTaskResult(u.redis, id) == GetTaskResult(t.redis, id) && GetTaskStatus(u.redis, id) == GetTaskStatus(t.redis, id)
      && (ResultOf(After(cfg, before).redis, id).result.None? ==>
            GetTaskResult(u.redis, id) == Error("Task cancelled") && GetTaskStatus(u.redis, id) == Some(Failed))
  {
    var s := After(cfg, before);
    AfterInv(cfg, before);
    SettledByStatus(cfg, before, id);
    CancelWrites(cfg, s, id);
    RunInv(cfg, s, [PutError(id, "Task cancelled"), MarkFailed(id)]);
    events := Reach(cfg, AfterCancel(cfg, s, id), id);
  }
}
