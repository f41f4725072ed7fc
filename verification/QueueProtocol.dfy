/**
 Submitters, takers (`get_next_task`), queue-wait monitors, completions and failures acting on
 one Redis, interleaved after every Redis call. An event that is not enabled changes nothing.
 */
module QueueProtocol {
  import opened Common
  import opened QueueSpec

  type AgentId = nat

  /** A task the monitor has decided to requeue, with the hash it judged. */
  datatype Item = Item(id: TaskId, snapshot: TaskHash, w: WorkerName, now: real, reason: string)

  datatype Agent =
    | Taking(w: WorkerName, next: nat)                       // about to pop Choice(w, next)
    | Fetching(w: WorkerName, id: TaskId)                    // popped, hash not read yet
    | Marking(w: WorkerName, id: TaskId, payload: Payload)   // hash read, status not written yet
    | Scanning(w: WorkerName, now: real, budget: nat, keep: seq<TaskId>, requeue: seq<Item>)
    | Looking(w: WorkerName, now: real, budget: nat, keep: seq<TaskId>, requeue: seq<Item>, id: TaskId)
    | PuttingBack(w: WorkerName, now: real, keep: seq<TaskId>, requeue: seq<Item>)
    | Requeuing(w: WorkerName, now: real, requeue: seq<Item>)
    | Pushing(w: WorkerName, now: real, item: Item, requeue: seq<Item>)
  {
    predicate IsTaker() { Taking? || Fetching? || Marking? }
  }

  /** Where a submitted task is. */
  datatype Place = InQueue(q: QueueKey) | InHand(a: AgentId) | Delivered | Lost

  datatype Delivery = Delivery(id: TaskId, w: WorkerName, payload: Payload)

  /** `redis` and `agents` are the system; the rest is history that no step reads. */
  datatype State = State(
    redis: Redis,
    agents: map<AgentId, Agent>,
    submitted: map<TaskId, Request>,         // accepted submissions
    place: map<TaskId, Place>,
    delivered: seq<Delivery>,
    lost: seq<TaskId>,                       // popped by a monitor that then took them for "no id"
    requeued: seq<Item>,                     // completed requeues, in order
    pushed: map<Priority, seq<TaskId>>,      // everything ever enqueued per class, in order
    popped: map<Priority, seq<TaskId>>)      // everything ever popped per class, in order

  const INITIAL := State(Redis(map[], map[], map[]), map[], map[], map[], [], [], [], map[], map[])

  datatype Event =
    | SubmitTask(req: Request, now: real)
    | StartTaking(a: AgentId, w: WorkerName)
    | TakePop(a: AgentId)
    | TakeFetch(a: AgentId)
    | TakeMark(a: AgentId, now: real)
    | StartMonitor(a: AgentId, w: WorkerName, now: real)
    | MonitorPop(a: AgentId)
    | MonitorLook(a: AgentId)
    | MonitorPutBack(a: AgentId)
    | MonitorUnassign(a: AgentId)
    | MonitorPush(a: AgentId)
    | PutResult(id: TaskId, out: Outcome)
    | MarkCompleted(id: TaskId)
    | PutError(id: TaskId, message: string)
    | MarkFailed(id: TaskId)

  predicate Enabled(s: State, e: Event) {
    match e
    case StartTaking(a, _) => a !in s.agents
    case StartMonitor(a, _, _) => a !in s.agents
    case TakePop(a) => a in s.agents && s.agents[a].Taking?
    case TakeFetch(a) => a in s.agents && s.agents[a].Fetching?
    case TakeMark(a, _) => a in s.agents && s.agents[a].Marking?
    case MonitorPop(a) => a in s.agents && s.agents[a].Scanning?
    case MonitorLook(a) => a in s.agents && s.agents[a].Looking?
    case MonitorPutBack(a) => a in s.agents && s.agents[a].PuttingBack?
    case MonitorUnassign(a) => a in s.agents && s.agents[a].Requeuing?
    case MonitorPush(a) => a in s.agents && s.agents[a].Pushing?
    case _ => true
  }

  function History(m: map<Priority, seq<TaskId>>, p: Priority): seq<TaskId> {
    if p in m then m[p] else []
  }

  function Record(m: map<Priority, seq<TaskId>>, q: QueueKey, id: TaskId): map<Priority, seq<TaskId>> {
    if q.Class? then m[q.p := History(m, q.p) + [id]] else m
  }

  function Become(s: State, a: AgentId, g: Agent): State { s.(agents := s.agents[a := g]) }

  function Leave(s: State, a: AgentId): State { s.(agents := s.agents - {a}) }

  function SubmitStep(cfg: Settings, s: State, req: Request, now: real): State {
    var t := s.(redis := Submit(cfg, s.redis, req, now));
    if SubmitStatus(cfg, s.redis, req).Accepted? then
      t.(submitted := s.submitted[req.id := req.(payload := FillDefaults(cfg, req.payload))],
         place := s.place[req.id := InQueue(TargetOf(req))],
         pushed := Record(s.pushed, TargetOf(req), req.id))
    else t
  }

  function TakePopStep(s: State, a: AgentId): State
    requires Enabled(s, TakePop(a))
  {
    var g := s.agents[a];
    if g.next >= 4 then Leave(s, a)
    else
      var q := Choice(g.w, g.next);
      var (r, id) := RPop(s.redis, q);
      match id
      case None => Become(s, a, Taking(g.w, g.next + 1))
      case Some(id) =>
        Become(s.(redis := r, place := s.place[id := InHand(a)], popped := Record(s.popped, q, id)),
               a, Fetching(g.w, id))
  }

  /** A hash without data makes `get_next_task` return None: the popped id is gone. */
  function TakeFetchStep(s: State, a: AgentId): State
    requires Enabled(s, TakeFetch(a))
  {
    var g := s.agents[a];
    var h := HashOf(s.redis, g.id);
    if h.data.None? then Leave(s, a) else Become(s, a, Marking(g.w, g.id, h.data.value))
  }

  function TakeMarkStep(s: State, a: AgentId, now: real): State
    requires Enabled(s, TakeMark(a, now))
  {
    var g := s.agents[a];
    Leave(s.(redis := MarkProcessing(s.redis, g.id, now),
             place := s.place[g.id := Delivered],
             delivered := s.delivered + [Delivery(g.id, g.w, g.payload)]), a)
  }

  /** The test for an empty queue cannot tell it from an empty id: that id is dropped. */
  function MonitorPopStep(s: State, a: AgentId): State
    requires Enabled(s, MonitorPop(a))
  {
    var g := s.agents[a];
    var (r, id) := RPop(s.redis, Own(g.w));
    if g.budget == 0 || id.None? then Become(s, a, PuttingBack(g.w, g.now, g.keep, g.requeue))
    else if id.value == "" then
      Become(s.(redis := r, place := s.place["" := Lost], lost := s.lost + [""]), a,
             PuttingBack(g.w, g.now, g.keep, g.requeue))
    else
      Become(s.(redis := r, place := s.place[id.value := InHand(a)]), a,
             Looking(g.w, g.now, g.budget - 1, g.keep, g.requeue, id.value))
  }

  function ReasonOf(v: Verdict): string { if v.Stale? then "stale_assignment" else "queue_wait_timeout" }

  /** A task without a hash is skipped: the popped id is gone. */
  function MonitorLookStep(cfg: Settings, s: State, a: AgentId): State
    requires Enabled(s, MonitorLook(a))
  {
    var g := s.agents[a];
    if g.id !in s.redis.tasks then Become(s, a, Scanning(g.w, g.now, g.budget, g.keep, g.requeue))
    else
      var h := s.redis.tasks[g.id];
      var v := Judge(cfg, h, g.w, g.now);
      Become(s, a, Scanning(g.w, g.now, g.budget,
                            if v.KeepIt? then g.keep + [g.id] else g.keep,
                            if v.KeepIt? then g.requeue
                            else g.requeue + [Item(g.id, h, g.w, g.now, ReasonOf(v))]))
  }

  function MonitorPutBackStep(s: State, a: AgentId): State
    requires Enabled(s, MonitorPutBack(a))
  {
    var g := s.agents[a];
    if g.keep == [] then Become(s, a, Requeuing(g.w, g.now, g.requeue))
    else
      var id := g.keep[|g.keep| - 1];
      Become(s.(redis := RPush(s.redis, Own(g.w), id), place := s.place[id := InQueue(Own(g.w))]), a,
             PuttingBack(g.w, g.now, g.keep[..|g.keep| - 1], g.requeue))
  }

  function MonitorUnassignStep(s: State, a: AgentId): State
    requires Enabled(s, MonitorUnassign(a))
  {
    var g := s.agents[a];
    if g.requeue == [] then Leave(s, a)
    else
      var item := g.requeue[0];
      Become(s.(redis := Unassign(s.redis, item.id, item.snapshot, item.reason, g.now)), a,
             Pushing(g.w, g.now, item, g.requeue[1..]))
  }

  function MonitorPushStep(s: State, a: AgentId): State
    requires Enabled(s, MonitorPush(a))
  {
    var g := s.agents[a];
    var q := RequeueClass(g.item.snapshot);
    Become(s.(redis := LPush(s.redis, q, g.item.id),
              place := s.place[g.item.id := InQueue(q)],
              requeued := s.requeued + [g.item],
              pushed := Record(s.pushed, q, g.item.id)), a,
           Requeuing(g.w, g.now, g.requeue))
  }

  function Apply(cfg: Settings, s: State, e: Event): State
    requires Enabled(s, e)
  {
    match e
    case SubmitTask(req, now) => SubmitStep(cfg, s, req, now)
    case StartTaking(a, w) => Become(s, a, Taking(w, 0))
    case TakePop(a) => TakePopStep(s, a)
    case TakeFetch(a) => TakeFetchStep(s, a)
    case TakeMark(a, now) => TakeMarkStep(s, a, now)
    case StartMonitor(a, w, now) =>
      Become(s, a, Scanning(w, now, ScanBudget(cfg), [], []))
    case MonitorPop(a) => MonitorPopStep(s, a)
    case MonitorLook(a) => MonitorLookStep(cfg, s, a)
    case MonitorPutBack(a) => MonitorPutBackStep(s, a)
    case MonitorUnassign(a) => MonitorUnassignStep(s, a)
    case MonitorPush(a) => MonitorPushStep(s, a)
    case PutResult(id, out) => s.(redis := StoreResult(s.redis, id, out))
    case MarkCompleted(id) => s.(redis := MarkStatus(s.redis, id, Completed))
    case PutError(id, message) => s.(redis := StoreError(s.redis, id, message))
    case MarkFailed(id) => s.(redis := MarkStatus(s.redis, id, Failed))
  }

  function Step(cfg: Settings, s: State, e: Event): State {
    if Enabled(s, e) then Apply(cfg, s, e) else s
  }

  function Run(cfg: Settings, s: State, events: seq<Event>): State
    decreases |events|
  {
    if events == [] then s else Run(cfg, Step(cfg, s, events[0]), events[1..])
  }
}
