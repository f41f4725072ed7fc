/**
 One pass of a queue-wait monitor over one worker queue, while other agents submit, take from
 other queues, complete and fail: what is left is the original line, in its original order,
 minus the requeued ids, which leave in their original order too.
 */
module QueuePass {
  import opened Common
  import opened QueueSpec
  import opened QueueProtocol
  import opened QueueSafety

  /** `whole` is an order-preserving merge of the other two. */
  ghost predicate Merges(whole: seq<TaskId>, kept: seq<TaskId>, dropped: seq<TaskId>) {
    if whole == [] then kept == [] && dropped == []
    else
      || (kept != [] && kept[0] == whole[0] && Merges(whole[1..], kept[1..], dropped))
      || (dropped != [] && dropped[0] == whole[0] && Merges(whole[1..], kept, dropped[1..]))
  }

  lemma {:induction false} MergesPrefix(p: seq<TaskId>, whole: seq<TaskId>, kept: seq<TaskId>, dropped: seq<TaskId>)
    requires Merges(whole, kept, dropped)
    ensures Merges(p + whole, p + kept, dropped)
  {
    if p == [] {
      assert p + whole == whole && p + kept == kept;
    } else {
      MergesPrefix(p[1..], whole, kept, dropped);
      assert (p + whole)[1..] == p[1..] + whole && (p + kept)[1..] == p[1..] + kept;
    }
  }

  lemma MergesDrop(x: TaskId, whole: seq<TaskId>, kept: seq<TaskId>, dropped: seq<TaskId>)
    requires Merges(whole, kept, dropped)
    ensures Merges([x] + whole, kept, [x] + dropped)
  {
    assert ([x] + whole)[1..] == whole && ([x] + dropped)[1..] == dropped;
  }

  lemma {:induction false} MergesSuffix(whole: seq<TaskId>, kept: seq<TaskId>, dropped: seq<TaskId>, rest: seq<TaskId>)
    requires Merges(whole, kept, dropped)
    ensures Merges(whole + rest, kept + rest, dropped)
    decreases |whole|
  {
    if whole == [] {
      assert whole + rest == rest && kept + rest == rest;
      MergesPrefix(rest, [], [], []);
      assert rest + [] == rest;
    } else if kept != [] && kept[0] == whole[0] && Merges(whole[1..], kept[1..], dropped) {
      MergesSuffix(whole[1..], kept[1..], dropped, rest);
      assert (whole + rest)[1..] == whole[1..] + rest && (kept + rest)[1..] == kept[1..] + rest;
    } else {
      MergesSuffix(whole[1..], kept, dropped[1..], rest);
      assert (whole + rest)[1..] == whole[1..] + rest;
    }
  }

  /** The first k ids are merged from what is kept and what is dropped; the ids after them follow the
      kept ones untouched. */
  ghost predicate SplitAt(whole: seq<TaskId>, k: nat, kept: seq<TaskId>, dropped: seq<TaskId>, left: seq<TaskId>) {
    k <= |whole| && Merges(whole[..k], kept, dropped) && left == kept + whole[k..]
  }

  lemma SplitMerges(whole: seq<TaskId>, k: nat, kept: seq<TaskId>, dropped: seq<TaskId>, left: seq<TaskId>)
    requires SplitAt(whole, k, kept, dropped, left)
    ensures Merges(whole, left, dropped)
  {
    MergesSuffix(whole[..k], kept, dropped, whole[k..]);
    assert whole == whole[..k] + whole[k..];
  }

  // ---- the line a monitor works on ----

  function Queue(s: State, w: WorkerName): seq<TaskId> { OldestFirst(s.redis, Own(w)) }

  predicate IsMonitor(s: State, a: AgentId, w: WorkerName) {
    a in s.agents && !s.agents[a].IsTaker() && s.agents[a].w == w
  }

  /** What the pass has put behind it; nothing here can be requeued any more. */
  function Judged(s: State, a: AgentId, w: WorkerName): seq<TaskId> {
    if a !in s.agents then Queue(s, w)
    else
      match s.agents[a]
      case Scanning(_, _, _, keep, _) => keep
      case Looking(_, _, _, keep, _, _) => keep
      case PuttingBack(_, _, keep, _) => keep + Queue(s, w)
      case _ => Queue(s, w)
  }

  /** What it has still to look at, if its budget lasts. */
  function Ahead(s: State, a: AgentId, w: WorkerName): seq<TaskId> {
    if a !in s.agents then []
    else
      match s.agents[a]
      case Scanning(_, _, _, _, _) => Queue(s, w)
      case Looking(_, _, _, _, _, id) => [id] + Queue(s, w)
      case _ => []
  }

  /** How many ids it may still judge, the one it looks at included. */
  function Limit(s: State, a: AgentId): nat {
    if a !in s.agents then 0
    else
      match s.agents[a]
      case Scanning(_, _, budget, _, _) => budget
      case Looking(_, _, budget, _, _, _) => budget + 1
      case _ => 0
  }

  /** The worker's tasks in service order, counting those in the monitor's hand to be put back. */
  function Line(s: State, a: AgentId, w: WorkerName): seq<TaskId> { Judged(s, a, w) + Ahead(s, a, w) }

  /** Decided but not yet enqueued again. */
  function ToRequeue(s: State, a: AgentId): seq<TaskId> {
    if a !in s.agents then []
    else
      match s.agents[a]
      case Taking(_, _) => []
      case Fetching(_, _) => []
      case Marking(_, _, _) => []
      case Scanning(_, _, _, _, requeue) => ItemIds(requeue)
      case Looking(_, _, _, _, requeue, _) => ItemIds(requeue)
      case PuttingBack(_, _, _, requeue) => ItemIds(requeue)
      case Requeuing(_, _, requeue) => ItemIds(requeue)
      case Pushing(_, _, item, requeue) => [item.id] + ItemIds(requeue)
  }

  /** Nobody else pops this worker's queue or puts anything back into it, and a starts no new job. */
  predicate LeavesAlone(s: State, e: Event, a: AgentId, w: WorkerName) {
    match e
    case TakePop(b) => b in s.agents && s.agents[b].Taking? && s.agents[b].next < 4 ==>
                         Choice(s.agents[b].w, s.agents[b].next) != Own(w)
    case MonitorPop(b) => b != a && b in s.agents ==> s.agents[b].w != w
    case MonitorPutBack(b) => b != a && b in s.agents ==> s.agents[b].w != w
    case StartTaking(b, _) => b != a
    case StartMonitor(b, _, _) => b != a
    case _ => true
  }

  predicate Undisturbed(cfg: Settings, s: State, events: seq<Event>, a: AgentId, w: WorkerName)
    decreases |events|
  {
    events == [] || (LeavesAlone(s, events[0], a, w) && Undisturbed(cfg, Step(cfg, s, events[0]), events[1..], a, w))
  }

  predicate Arrives(cfg: Settings, s: State, e: Event, w: WorkerName) {
    e.SubmitTask? && SubmitStatus(cfg, s.redis, e.req).Accepted? && TargetOf(e.req) == Own(w)
  }

  /** The tasks submitted for the worker during the events, in order. */
  function Arrivals(cfg: Settings, s: State, events: seq<Event>, w: WorkerName): seq<TaskId>
    decreases |events|
  {
    if events == [] then []
    else (if Arrives(cfg, s, events[0], w) then [events[0].req.id] else [])
         + Arrivals(cfg, Step(cfg, s, events[0]), events[1..], w)
  }

  predicate Requeues(cfg: Settings, s: State, e: Event, a: AgentId) {
    && e == MonitorLook(a) && Enabled(s, e) && s.agents[a].id in s.redis.tasks
    && !Judge(cfg, s.redis.tasks[s.agents[a].id], s.agents[a].w, s.agents[a].now).KeepIt?
  }

  /** The tasks a decides to requeue during the events, in order. */
  function Decided(cfg: Settings, s: State, events: seq<Event>, a: AgentId): seq<TaskId>
    decreases |events|
  {
    if events == [] then []
    else (if Requeues(cfg, s, events[0], a) then [s.agents[a].id] else [])
         + Decided(cfg, Step(cfg, s, events[0]), events[1..], a)
  }

  /** The tasks a enqueues in a priority class during the events, in order. */
  function Enqueued(cfg: Settings, s: State, events: seq<Event>, a: AgentId): seq<TaskId>
    decreases |events|
  {
    if events == [] then []
    else (if events[0] == MonitorPush(a) && Enabled(s, events[0]) then [s.agents[a].item.id] else [])
         + Enqueued(cfg, Step(cfg, s, events[0]), events[1..], a)
  }

  // ---- one step ----

  /** What a step does to the line: it appends an arrival; or it drops the judged id; or it only moves
      the border between what is judged and what is ahead, by as much as it uses of the limit, or past
      everything when nothing is ahead or the limit is used up. */
  ghost predicate LineStep(cfg: Settings, s: State, e: Event, a: AgentId, w: WorkerName) {
    var t := Step(cfg, s, e);
    if Arrives(cfg, s, e, w) then
      Line(t, a, w) == Line(s, a, w) + [e.req.id] && Limit(t, a) == Limit(s, a)
      && (Judged(t, a, w) == Judged(s, a, w) || (Ahead(s, a, w) == [] && Ahead(t, a, w) == [] && Limit(s, a) == 0))
    else if Requeues(cfg, s, e, a) then
      Judged(t, a, w) == Judged(s, a, w) && Ahead(s, a, w) == [s.agents[a].id] + Ahead(t, a, w)
      && Limit(s, a) == Limit(t, a) + 1
    else
      Line(t, a, w) == Line(s, a, w) && Judged(s, a, w) <= Judged(t, a, w)
      && (|| |Judged(t, a, w)| - |Judged(s, a, w)| + Limit(t, a) == Limit(s, a)
          || (Ahead(t, a, w) == [] && Limit(t, a) == 0 && (Ahead(s, a, w) == [] || Limit(s, a) == 0)))
  }

  lemma ReversedOne<T>(l: seq<T>, x: T)
    ensures Reversed([x] + l) == Reversed(l) + [x]
    ensures Reversed(l + [x]) == [x] + Reversed(l)
  {
    ReversedCons(l, x);
    ReversedSnoc(l, x);
  }

  lemma SubmitQueue(cfg: Settings, s: State, req: Request, now: real, w: WorkerName)
    ensures var t := SubmitStep(cfg, s, req, now);
      && t.agents == s.agents
      && Queue(t, w) == Queue(s, w) + (if Arrives(cfg, s, SubmitTask(req, now), w) then [req.id] else [])
  {
    var l := ListOf(s.redis, Own(w));
    var l2 := ListOf(SubmitStep(cfg, s, req, now).redis, Own(w));
    assert l2 == if Arrives(cfg, s, SubmitTask(req, now), w) then [req.id] + l else l;
    ReversedCons(l, req.id);
  }

  lemma ArrivalLine(s: State, t: State, a: AgentId, w: WorkerName, x: TaskId)
    requires t.agents == s.agents && Queue(t, w) == Queue(s, w) + [x]
    requires a in s.agents ==> IsMonitor(s, a, w)
    ensures Line(t, a, w) == Line(s, a, w) + [x]
    ensures Limit(t, a) == Limit(s, a)
    ensures Judged(t, a, w) == Judged(s, a, w) || (Ahead(s, a, w) == [] && Ahead(t, a, w) == [] && Limit(s, a) == 0)
  {
  }

  lemma SubmitLine(cfg: Settings, s: State, req: Request, now: real, a: AgentId, w: WorkerName)
    requires a in s.agents ==> IsMonitor(s, a, w)
    ensures LineStep(cfg, s, SubmitTask(req, now), a, w)
  {
    var t := SubmitStep(cfg, s, req, now);
    SubmitQueue(cfg, s, req, now, w);
    if Arrives(cfg, s, SubmitTask(req, now), w) {
      ArrivalLine(s, t, a, w, req.id);
    } else {
      SameLine(s, t, a, w);
    }
  }

  lemma SameLine(s: State, t: State, a: AgentId, w: WorkerName)
    requires a in s.agents <==> a in t.agents
    requires a in s.agents ==> t.agents[a] == s.agents[a]
    requires Queue(t, w) == Queue(s, w)
    ensures Line(t, a, w) == Line(s, a, w) && Judged(t, a, w) == Judged(s, a, w)
    ensures ToRequeue(t, a) == ToRequeue(s, a) && Limit(t, a) == Limit(s, a)
  {
  }

  lemma PopLine(cfg: Settings, s: State, a: AgentId, w: WorkerName)
    requires IsMonitor(s, a, w) && Enabled(s, MonitorPop(a)) && "" !in Queue(s, w)
    ensures LineStep(cfg, s, MonitorPop(a), a, w)
  {
    var t := MonitorPopStep(s, a);
    if ListOf(s.redis, Own(w)) != [] {
      PoppedOldest(s.redis, Own(w));
      assert Queue(s, w)[0] in Queue(s, w);
    }
  }

  lemma PutBackLine(cfg: Settings, s: State, a: AgentId, w: WorkerName)
    requires IsMonitor(s, a, w) && Enabled(s, MonitorPutBack(a))
    ensures LineStep(cfg, s, MonitorPutBack(a), a, w)
  {
    if s.agents[a].keep != [] { PutBackShifts(s, a, w); }
  }

  /** The last kept id moves from the end of the hand to the front of the queue. */
  lemma PutBackShifts(s: State, a: AgentId, w: WorkerName)
    requires IsMonitor(s, a, w) && Enabled(s, MonitorPutBack(a)) && s.agents[a].keep != []
    ensures var t, g := MonitorPutBackStep(s, a), s.agents[a];
      && a in t.agents && t.agents[a] == PuttingBack(g.w, g.now, g.keep[..|g.keep| - 1], g.requeue)
      && t.agents[a].keep + Queue(t, w) == g.keep + Queue(s, w)
  {
    var keep := s.agents[a].keep;
    var n := |keep| - 1;
    assert keep == keep[..n] + [keep[n]];
    ReversedOne(ListOf(s.redis, Own(w)), keep[n]);
    Associates(keep[..n], [keep[n]], Queue(s, w));
  }

  lemma LookLine(cfg: Settings, s: State, a: AgentId, w: WorkerName)
    requires IsMonitor(s, a, w) && Enabled(s, MonitorLook(a)) && s.agents[a].id in s.redis.tasks
    ensures LineStep(cfg, s, MonitorLook(a), a, w)
  {
    var g := s.agents[a];
    Associates(g.keep, [g.id], Queue(s, w));
  }

  predicate By(e: Event, a: AgentId) {
    match e
    case StartTaking(b, _) => b == a
    case TakePop(b) => b == a
    case TakeFetch(b) => b == a
    case TakeMark(b, _) => b == a
    case StartMonitor(b, _, _) => b == a
    case MonitorPop(b) => b == a
    case MonitorLook(b) => b == a
    case MonitorPutBack(b) => b == a
    case MonitorUnassign(b) => b == a
    case MonitorPush(b) => b == a
    case _ => false
  }

  lemma OthersStay(cfg: Settings, s: State, e: Event, a: AgentId)
    requires Enabled(s, e) && !By(e, a)
    ensures var t := Apply(cfg, s, e);
      (a in s.agents <==> a in t.agents) && (a in s.agents ==> t.agents[a] == s.agents[a])
  {
    match e
    case SubmitTask(req, now) =>
    case TakePop(b) => OtherPop(s, b, a);
    case TakeFetch(b) => assert Apply(cfg, s, e) == TakeFetchStep(s, b);
    case TakeMark(b, now) => assert Apply(cfg, s, e) == TakeMarkStep(s, b, now);
    case MonitorPop(b) => OtherMonitor(cfg, s, e, a);
    case MonitorLook(b) => OtherMonitor(cfg, s, e, a);
    case MonitorPutBack(b) => OtherMonitor(cfg, s, e, a);
    case MonitorUnassign(b) => OtherMonitor(cfg, s, e, a);
    case MonitorPush(b) => OtherMonitor(cfg, s, e, a);
    case _ =>
  }

  lemma OtherMonitor(cfg: Settings, s: State, e: Event, a: AgentId)
    requires Enabled(s, e) && !By(e, a)
    requires e.MonitorPop? || e.MonitorLook? || e.MonitorPutBack? || e.MonitorUnassign? || e.MonitorPush?
    ensures var t := Apply(cfg, s, e);
      (a in s.agents <==> a in t.agents) && (a in s.agents ==> t.agents[a] == s.agents[a])
  {
    match e
    case MonitorPop(b) => OtherMonitorPop(s, b, a);
    case MonitorLook(b) => LookShape(cfg, s, b);
    case MonitorPutBack(b) => OtherPutBack(s, b, a);
    case MonitorUnassign(b) => assert Apply(cfg, s, e) == MonitorUnassignStep(s, b);
    case MonitorPush(b) => assert Apply(cfg, s, e) == MonitorPushStep(s, b);
  }

  lemma OtherMonitorPop(s: State, b: AgentId, a: AgentId)
    requires Enabled(s, MonitorPop(b)) && a != b
    ensures a in s.agents <==> a in MonitorPopStep(s, b).agents
    ensures a in s.agents ==> MonitorPopStep(s, b).agents[a] == s.agents[a]
  {
  }

  lemma OtherPutBack(s: State, b: AgentId, a: AgentId)
    requires Enabled(s, MonitorPutBack(b)) && a != b
    ensures a in s.agents <==> a in MonitorPutBackStep(s, b).agents
    ensures a in s.agents ==> MonitorPutBackStep(s, b).agents[a] == s.agents[a]
  {
  }

  lemma OtherPop(s: State, b: AgentId, a: AgentId)
    requires Enabled(s, TakePop(b)) && a != b
    ensures a in s.agents <==> a in TakePopStep(s, b).agents
    ensures a in s.agents ==> TakePopStep(s, b).agents[a] == s.agents[a]
  {
  }

  lemma TakePopElsewhere(s: State, b: AgentId, w: WorkerName)
    requires Enabled(s, TakePop(b)) && (s.agents[b].next < 4 ==> Choice(s.agents[b].w, s.agents[b].next) != Own(w))
    ensures ListOf(TakePopStep(s, b).redis, Own(w)) == ListOf(s.redis, Own(w))
  {
  }

  lemma MonitorElsewhere(cfg: Settings, s: State, e: Event, w: WorkerName)
    requires (e.MonitorPop? || e.MonitorPutBack?) && Enabled(s, e) && s.agents[e.a].w != w
    ensures ListOf(Apply(cfg, s, e).redis, Own(w)) == ListOf(s.redis, Own(w))
  {
    match e
    case MonitorPop(b) => assert Apply(cfg, s, e) == MonitorPopStep(s, b);
    case MonitorPutBack(b) => assert Apply(cfg, s, e) == MonitorPutBackStep(s, b);
  }

  lemma QueueStays(cfg: Settings, s: State, e: Event, a: AgentId, w: WorkerName)
    requires LeavesAlone(s, e, a, w) && Enabled(s, e) && !By(e, a) && !e.SubmitTask?
    ensures Queue(Apply(cfg, s, e), w) == Queue(s, w)
  {
    match e
    case TakePop(b) => TakePopElsewhere(s, b, w);
    case MonitorPop(_) => MonitorElsewhere(cfg, s, e, w);
    case MonitorPutBack(_) => MonitorElsewhere(cfg, s, e, w);
    case MonitorPush(b) => assert Apply(cfg, s, e) == MonitorPushStep(s, b);
    case _ => UntouchedLists(cfg, s, e);
  }

  /** Somebody else's step. */
  lemma OtherLine(cfg: Settings, s: State, e: Event, a: AgentId, w: WorkerName)
    requires LeavesAlone(s, e, a, w) && Enabled(s, e) && !By(e, a) && !e.SubmitTask?
    ensures LineStep(cfg, s, e, a, w)
  {
    OthersStay(cfg, s, e, a);
    QueueStays(cfg, s, e, a, w);
    SameLine(s, Apply(cfg, s, e), a, w);
  }

  /** The steps of a itself after its scan. */
  lemma UnassignLine(cfg: Settings, s: State, a: AgentId, w: WorkerName)
    requires IsMonitor(s, a, w) && Enabled(s, MonitorUnassign(a))
    ensures LineStep(cfg, s, MonitorUnassign(a), a, w)
  {
    UntouchedLists(cfg, s, MonitorUnassign(a));
    assert Queue(Apply(cfg, s, MonitorUnassign(a)), w) == Queue(s, w);
  }

  lemma PushLine(cfg: Settings, s: State, a: AgentId, w: WorkerName)
    requires IsMonitor(s, a, w) && Enabled(s, MonitorPush(a))
    ensures LineStep(cfg, s, MonitorPush(a), a, w)
  {
    assert Queue(MonitorPushStep(s, a), w) == Queue(s, w);
  }

  /** Any step, seen from the line. */
  lemma StepLine(cfg: Settings, s: State, e: Event, a: AgentId, w: WorkerName)
    requires LeavesAlone(s, e, a, w) && (a in s.agents ==> IsMonitor(s, a, w)) && "" !in Queue(s, w)
    requires a in s.agents && s.agents[a].Looking? ==> s.agents[a].id in s.redis.tasks
    ensures LineStep(cfg, s, e, a, w)
  {
    if Enabled(s, e) {
      if e.SubmitTask? {
        SubmitLine(cfg, s, e.req, e.now, a, w);
      } else if By(e, a) {
        OwnLine(cfg, s, e, a, w);
      } else {
        OtherLine(cfg, s, e, a, w);
      }
    } else {
      assert !Arrives(cfg, s, e, w) && !Requeues(cfg, s, e, a);
    }
  }

  lemma OwnLine(cfg: Settings, s: State, e: Event, a: AgentId, w: WorkerName)
    requires LeavesAlone(s, e, a, w) && (a in s.agents ==> IsMonitor(s, a, w)) && "" !in Queue(s, w)
    requires a in s.agents && s.agents[a].Looking? ==> s.agents[a].id in s.redis.tasks
    requires Enabled(s, e) && By(e, a)
    ensures LineStep(cfg, s, e, a, w)
  {
    match e
    case MonitorPop(_) => PopLine(cfg, s, a, w);
    case MonitorLook(_) => LookLine(cfg, s, a, w);
    case MonitorPutBack(_) => PutBackLine(cfg, s, a, w);
    case MonitorUnassign(_) => UnassignLine(cfg, s, a, w);
    case MonitorPush(_) => PushLine(cfg, s, a, w);
  }

  /** What a step of the system does to the monitor itself. */
  lemma StepMonitor(cfg: Settings, s: State, e: Event, a: AgentId, w: WorkerName)
    requires LeavesAlone(s, e, a, w) && (a in s.agents ==> IsMonitor(s, a, w)) && "" !in Queue(s, w)
    requires a in s.agents && s.agents[a].Looking? ==> s.agents[a].id in s.redis.tasks
    ensures var t := Step(cfg, s, e);
      && (a in t.agents ==> IsMonitor(t, a, w))
      && ToRequeue(s, a) + (if Requeues(cfg, s, e, a) then [s.agents[a].id] else [])
         == (if e == MonitorPush(a) && Enabled(s, e) then [s.agents[a].item.id] else []) + ToRequeue(t, a)
  {
    if Enabled(s, e) {
      if By(e, a) {
        OwnMonitor(cfg, s, e, a, w);
      } else {
        OthersStay(cfg, s, e, a);
      }
    }
  }

  lemma OwnMonitor(cfg: Settings, s: State, e: Event, a: AgentId, w: WorkerName)
    requires LeavesAlone(s, e, a, w) && IsMonitor(s, a, w) && "" !in Queue(s, w)
    requires s.agents[a].Looking? ==> s.agents[a].id in s.redis.tasks
    requires Enabled(s, e) && By(e, a)
    ensures var t := Apply(cfg, s, e);
      && (a in t.agents ==> IsMonitor(t, a, w))
      && ToRequeue(s, a) + (if Requeues(cfg, s, e, a) then [s.agents[a].id] else [])
         == (if e == MonitorPush(a) then [s.agents[a].item.id] else []) + ToRequeue(t, a)
  {
    match e
    case MonitorPop(_) => PopMonitor(s, a);
    case MonitorLook(_) => LookMonitor(cfg, s, a);
    case MonitorPutBack(_) => PutBackMonitor(s, a);
    case MonitorUnassign(_) => UnassignMonitor(s, a);
    case MonitorPush(_) => PushMonitor(s, a);
  }

  lemma PopMonitor(s: State, a: AgentId)
    requires Enabled(s, MonitorPop(a))
    ensures var t := MonitorPopStep(s, a);
      && a in t.agents && !t.agents[a].IsTaker() && t.agents[a].w == s.agents[a].w
      && ToRequeue(t, a) == ToRequeue(s, a)
  {
  }

  lemma PutBackMonitor(s: State, a: AgentId)
    requires Enabled(s, MonitorPutBack(a))
    ensures var t := MonitorPutBackStep(s, a);
      && a in t.agents && !t.agents[a].IsTaker() && t.agents[a].w == s.agents[a].w
      && ToRequeue(t, a) == ToRequeue(s, a)
  {
  }

  lemma UnassignMonitor(s: State, a: AgentId)
    requires Enabled(s, MonitorUnassign(a))
    ensures var t := MonitorUnassignStep(s, a);
      && (a in t.agents ==> !t.agents[a].IsTaker() && t.agents[a].w == s.agents[a].w)
      && ToRequeue(t, a) == ToRequeue(s, a)
  {
    var g := s.agents[a];
    if g.requeue != [] { assert ItemIds(g.requeue) == [g.requeue[0].id] + ItemIds(g.requeue[1..]); }
  }

  lemma PushMonitor(s: State, a: AgentId)
    requires Enabled(s, MonitorPush(a))
    ensures var t := MonitorPushStep(s, a);
      && a in t.agents && !t.agents[a].IsTaker() && t.agents[a].w == s.agents[a].w
      && ToRequeue(s, a) == [s.agents[a].item.id] + ToRequeue(t, a)
  {
  }

  lemma LookMonitor(cfg: Settings, s: State, a: AgentId)
    requires Enabled(s, MonitorLook(a)) && s.agents[a].id in s.redis.tasks
    ensures var t := MonitorLookStep(cfg, s, a);
      && a in t.agents && t.agents[a].Scanning? && t.agents[a].w == s.agents[a].w
      && ItemIds(t.agents[a].requeue)
         == ItemIds(s.agents[a].requeue) + (if Requeues(cfg, s, MonitorLook(a), a) then [s.agents[a].id] else [])
  {
    var g := s.agents[a];
    var h := s.redis.tasks[g.id];
    var v := Judge(cfg, h, g.w, g.now);
    var item := Item(g.id, h, g.w, g.now, ReasonOf(v));
    assert ItemIds(g.requeue + [item]) == ItemIds(g.requeue) + [g.id];
  }

  // ---- the whole pass ----

  lemma SplitNothing(whole: seq<TaskId>)
    ensures SplitAt(whole, 0, [], [], whole)
  {
    assert Merges([], [], []);
    assert whole[..0] == [] && [] + whole[0..] == whole;
  }

  lemma SplitDrop(x: TaskId, whole: seq<TaskId>, k: nat, kept: seq<TaskId>, dropped: seq<TaskId>, left: seq<TaskId>)
    requires SplitAt(whole, k, kept, dropped, left)
    ensures SplitAt([x] + whole, k + 1, kept, [x] + dropped, left)
  {
    MergesDrop(x, whole[..k], kept, dropped);
    assert ([x] + whole)[..k + 1] == [x] + whole[..k] && ([x] + whole)[k + 1..] == whole[k..];
  }

  lemma SplitKeep(p: seq<TaskId>, whole: seq<TaskId>, k: nat, kept: seq<TaskId>, dropped: seq<TaskId>, left: seq<TaskId>)
    requires SplitAt(whole, k, kept, dropped, left)
    ensures SplitAt(p + whole, |p| + k, p + kept, dropped, p + left)
  {
    MergesPrefix(p, whole[..k], kept, dropped);
    assert (p + whole)[..|p| + k] == p + whole[..k] && (p + whole)[|p| + k..] == whole[k..];
    Associates(p, kept, whole[k..]);
  }

  /** The first id after a line that ends the scan: nothing was kept or dropped from here on. */
  lemma SplitAfterScan(p: seq<TaskId>, whole: seq<TaskId>, kept: seq<TaskId>, dropped: seq<TaskId>, left: seq<TaskId>)
    requires SplitAt(whole, 0, kept, dropped, left)
    ensures dropped == [] && SplitAt(p + whole, 0, [], dropped, p + left)
  {
    assert whole[..0] == [] && kept == [] && kept + whole[0..] == whole;
    SplitNothing(p + whole);
  }

  lemma LineKeepsOut(cfg: Settings, s: State, e: Event, a: AgentId, w: WorkerName, x: TaskId)
    requires LineStep(cfg, s, e, a, w) && x !in Line(s, a, w) && (Arrives(cfg, s, e, w) ==> e.req.id != x)
    ensures x !in Line(Step(cfg, s, e), a, w)
  {
  }

  lemma QueueInLine(s: State, a: AgentId, w: WorkerName)
    requires a in s.agents ==> IsMonitor(s, a, w)
    ensures forall x :: x in Queue(s, w) ==> x in Line(s, a, w)
  {
  }

  /** How far a monitor has got: what it has judged, what is ahead, and how much it may still judge. */
  datatype View = View(judged: seq<TaskId>, ahead: seq<TaskId>, limit: nat)

  function ViewOf(s: State, a: AgentId, w: WorkerName): View { View(Judged(s, a, w), Ahead(s, a, w), Limit(s, a)) }

  /** From v on: of the ids ahead and those to arrive, the first k are judged, `dropped` being taken
      out, and what is left stands behind what v had judged. A scan that is over judged as many as the
      limit allowed, or everything that was ahead. */
  ghost predicate Splits(v: View, end: seq<TaskId>, over: bool, later: seq<TaskId>, dropped: seq<TaskId>,
                         k: nat, kept: seq<TaskId>) {
    && v.judged <= end && k <= v.limit
    && SplitAt(v.ahead + later, k, kept, dropped, end[|v.judged|..])
    && (over ==> k == v.limit || k >= |v.ahead|)
  }

  predicate Over(s: State, a: AgentId, w: WorkerName) { Ahead(s, a, w) == [] && Limit(s, a) == 0 }

  /** What is left of the line after the events, given where the pass has got to. */
  lemma {:induction false} RunLine(cfg: Settings, s: State, events: seq<Event>, a: AgentId, w: WorkerName)
    returns (k: nat, kept: seq<TaskId>)
    requires Inv(cfg, s) && (a in s.agents ==> IsMonitor(s, a, w)) && Undisturbed(cfg, s, events, a, w)
    requires "" !in Line(s, a, w) && "" !in Arrivals(cfg, s, events, w)
    ensures Splits(ViewOf(s, a, w), Line(Run(cfg, s, events), a, w), Over(Run(cfg, s, events), a, w),
                   Arrivals(cfg, s, events, w), Decided(cfg, s, events, a), k, kept)
    decreases |events|
  {
    if events == [] {
      k, kept := 0, [];
      SplitNothing(Ahead(s, a, w));
      assert Ahead(s, a, w) + [] == Ahead(s, a, w) == Line(s, a, w)[|Judged(s, a, w)|..];
    } else {
      var e := events[0];
      var t := Step(cfg, s, e);
      assert a in s.agents ==> AgentOk(cfg, s, s.agents[a]);
      QueueInLine(s, a, w);
      StepLine(cfg, s, e, a, w);
      StepMonitor(cfg, s, e, a, w);
      StepInv(cfg, s, e);
      LineKeepsOut(cfg, s, e, a, w, "");
      k, kept := RunLine(cfg, t, events[1..], a, w);
      k, kept := Join(cfg, s, e, a, w, Line(Run(cfg, s, events), a, w), Over(Run(cfg, s, events), a, w),
                      Arrivals(cfg, t, events[1..], w), Decided(cfg, t, events[1..], a), k, kept);
    }
  }

  /** One step put in front of a run from t to the end. */
  lemma Join(cfg: Settings, s: State, e: Event, a: AgentId, w: WorkerName, end: seq<TaskId>, over: bool,
             later: seq<TaskId>, dropped: seq<TaskId>, k2: nat, kept2: seq<TaskId>)
    returns (k: nat, kept: seq<TaskId>)
    requires LineStep(cfg, s, e, a, w)
    requires Splits(ViewOf(Step(cfg, s, e), a, w), end, over, later, dropped, k2, kept2)
    ensures Splits(ViewOf(s, a, w), end, over,
                   (if Arrives(cfg, s, e, w) then [e.req.id] else []) + later,
                   (if Requeues(cfg, s, e, a) then [s.agents[a].id] else []) + dropped, k, kept)
  {
    var u, v := ViewOf(s, a, w), ViewOf(Step(cfg, s, e), a, w);
    assert [] + later == later && [] + dropped == dropped;
    if Arrives(cfg, s, e, w) {
      k, kept := JoinArrival(u, v, e.req.id, end, over, later, dropped, k2, kept2);
    } else if Requeues(cfg, s, e, a) {
      k, kept := JoinDrop(u, v, s.agents[a].id, end, over, later, dropped, k2, kept2);
    } else {
      k, kept := JoinMove(u, v, end, over, later, dropped, k2, kept2);
    }
  }

  lemma JoinArrival(u: View, v: View, x: TaskId, end: seq<TaskId>, over: bool, later: seq<TaskId>,
                    dropped: seq<TaskId>, k2: nat, kept2: seq<TaskId>)
    returns (k: nat, kept: seq<TaskId>)
    requires v.judged + v.ahead == u.judged + u.ahead + [x] && v.limit == u.limit
    requires v.judged == u.judged || (u.ahead == [] && v.ahead == [] && u.limit == 0)
    requires Splits(v, end, over, later, dropped, k2, kept2)
    ensures Splits(u, end, over, [x] + later, dropped, k, kept)
  {
    if v.judged == u.judged {
      k, kept := k2, kept2;
      assert v.ahead == (v.judged + v.ahead)[|u.judged|..] == u.ahead + [x];
      Associates(u.ahead, [x], later);
    } else {
      k, kept := 0, [];
      assert v.judged + v.ahead == v.judged && u.judged + u.ahead == u.judged;
      SplitAfterScan([x], v.ahead + later, kept2, dropped, end[|v.judged|..]);
      assert u.ahead + ([x] + later) == [x] + (v.ahead + later);
      assert end[|u.judged|..] == [x] + end[|v.judged|..];
    }
  }

  lemma JoinDrop(u: View, v: View, x: TaskId, end: seq<TaskId>, over: bool, later: seq<TaskId>,
                 dropped: seq<TaskId>, k2: nat, kept2: seq<TaskId>)
    returns (k: nat, kept: seq<TaskId>)
    requires v.judged == u.judged && u.ahead == [x] + v.ahead && u.limit == v.limit + 1
    requires Splits(v, end, over, later, dropped, k2, kept2)
    ensures Splits(u, end, over, later, [x] + dropped, k, kept)
  {
    k, kept := k2 + 1, kept2;
    SplitDrop(x, v.ahead + later, k2, kept2, dropped, end[|u.judged|..]);
    Associates([x], v.ahead, later);
  }

  lemma JoinMove(u: View, v: View, end: seq<TaskId>, over: bool, later: seq<TaskId>, dropped: seq<TaskId>,
                 k2: nat, kept2: seq<TaskId>)
    returns (k: nat, kept: seq<TaskId>)
    requires v.judged + v.ahead == u.judged + u.ahead && u.judged <= v.judged
    requires |v.judged| - |u.judged| + v.limit == u.limit || (v.ahead == [] && v.limit == 0 && (u.ahead == [] || u.limit == 0))
    requires Splits(v, end, over, later, dropped, k2, kept2)
    ensures Splits(u, end, over, later, dropped, k, kept)
  {
    var p := v.judged[|u.judged|..];
    assert v.judged == u.judged + p;
    assert u.ahead == (u.judged + u.ahead)[|u.judged|..] == (v.judged + v.ahead)[|u.judged|..] == p + v.ahead;
    assert end[|u.judged|..] == p + end[|v.judged|..];
    Associates(p, v.ahead, later);
    if |p| + v.limit == u.limit {
      k, kept := |p| + k2, p + kept2;
      SplitKeep(p, v.ahead + later, k2, kept2, dropped, end[|v.judged|..]);
    } else {
      k, kept := 0, [];
      SplitAfterScan(p, v.ahead + later, kept2, dropped, end[|v.judged|..]);
    }
  }

  /** Requeued tasks enter the priority queues in the order they were decided on. */
  lemma {:induction false} RunRequeues(cfg: Settings, s: State, events: seq<Event>, a: AgentId, w: WorkerName)
    requires Inv(cfg, s) && (a in s.agents ==> IsMonitor(s, a, w)) && Undisturbed(cfg, s, events, a, w)
    requires "" !in Line(s, a, w) && "" !in Arrivals(cfg, s, events, w)
    ensures ToRequeue(s, a) + Decided(cfg, s, events, a)
            == Enqueued(cfg, s, events, a) + ToRequeue(Run(cfg, s, events), a)
    decreases |events|
  {
    if events == [] {
      assert ToRequeue(s, a) + [] == [] + ToRequeue(s, a);
    } else {
      var e := events[0];
      var t := Step(cfg, s, e);
      assert a in s.agents ==> AgentOk(cfg, s, s.agents[a]);
      QueueInLine(s, a, w);
      StepLine(cfg, s, e, a, w);
      StepMonitor(cfg, s, e, a, w);
      StepInv(cfg, s, e);
      LineKeepsOut(cfg, s, e, a, w, "");
      RunRequeues(cfg, t, events[1..], a, w);
      var d := if Requeues(cfg, s, e, a) then [s.agents[a].id] else [];
      var p := if e == MonitorPush(a) && Enabled(s, e) then [s.agents[a].item.id] else [];
      Associates(ToRequeue(s, a), d, Decided(cfg, t, events[1..], a));
      Associates(p, ToRequeue(t, a), Decided(cfg, t, events[1..], a));
      Associates(p, Enqueued(cfg, t, events[1..], a), ToRequeue(Run(cfg, s, events), a));
    }
  }

  /** A pass that nobody disturbs judges the first k of the tasks queued and arriving, k being the scan
      limit unless fewer were queued: it takes those it requeues out of them and enqueues them in that
      order; the rest of the k and all after them, never looked at, stay in the queue as they were. */
  lemma PassKeepsOrder(cfg: Settings, before: seq<Event>, a: AgentId, w: WorkerName, now: real, events: seq<Event>)
    returns (k: nat, kept: seq<TaskId>)
    requires var s := Step(cfg, Run(cfg, INITIAL, before), StartMonitor(a, w, now));
      && a !in Run(cfg, INITIAL, before).agents
      && Undisturbed(cfg, s, events, a, w)
      && "" !in Queue(s, w) && "" !in Arrivals(cfg, s, events, w)
      && a !in Run(cfg, s, events).agents
    ensures var s := Step(cfg, Run(cfg, INITIAL, before), StartMonitor(a, w, now));
      var line := Queue(Run(cfg, INITIAL, before), w);
      && k <= ScanBudget(cfg) && (k == ScanBudget(cfg) || k >= |line|)
      && SplitAt(line + Arrivals(cfg, s, events, w), k, kept, Enqueued(cfg, s, events, a), Queue(Run(cfg, s, events), w))
      && Merges(line + Arrivals(cfg, s, events, w), Queue(Run(cfg, s, events), w), Enqueued(cfg, s, events, a))
  {
    PassStarts(cfg, before, a, w, now);
    var s := Step(cfg, Run(cfg, INITIAL, before), StartMonitor(a, w, now));
    k, kept := PassFrom(cfg, s, a, w, events);
    SplitMerges(Queue(s, w) + Arrivals(cfg, s, events, w), k, kept, Enqueued(cfg, s, events, a), Queue(Run(cfg, s, events), w));
  }

  lemma PassFrom(cfg: Settings, s: State, a: AgentId, w: WorkerName, events: seq<Event>)
    returns (k: nat, kept: seq<TaskId>)
    requires Inv(cfg, s) && IsMonitor(s, a, w) && ToRequeue(s, a) == [] && Judged(s, a, w) == []
    requires Line(s, a, w) == Ahead(s, a, w) == Queue(s, w)
    requires Undisturbed(cfg, s, events, a, w) && "" !in Queue(s, w) && "" !in Arrivals(cfg, s, events, w)
    requires a !in Run(cfg, s, events).agents
    ensures k <= Limit(s, a) && (k == Limit(s, a) || k >= |Queue(s, w)|)
    ensures SplitAt(Queue(s, w) + Arrivals(cfg, s, events, w), k, kept, Enqueued(cfg, s, events, a), Queue(Run(cfg, s, events), w))
  {
    k, kept := RunLine(cfg, s, events, a, w);
    RunRequeues(cfg, s, events, a, w);
    PassEnds(Run(cfg, s, events), a, w);
    NothingPending(Queue(s, w) + Arrivals(cfg, s, events, w), k, kept, Line(Run(cfg, s, events), a, w),
                   Decided(cfg, s, events, a), Enqueued(cfg, s, events, a));
  }

  lemma NothingPending(whole: seq<TaskId>, k: nat, kept: seq<TaskId>, end: seq<TaskId>, decided: seq<TaskId>,
                       enqueued: seq<TaskId>)
    requires SplitAt(whole, k, kept, decided, end[0..]) && [] + decided == enqueued + []
    ensures SplitAt(whole, k, kept, enqueued, end)
  {
    assert end[0..] == end && [] + decided == decided && enqueued + [] == enqueued;
  }

  lemma PassStarts(cfg: Settings, before: seq<Event>, a: AgentId, w: WorkerName, now: real)
    requires a !in Run(cfg, INITIAL, before).agents
    ensures var s := Step(cfg, Run(cfg, INITIAL, before), StartMonitor(a, w, now));
      && Inv(cfg, s) && IsMonitor(s, a, w) && ToRequeue(s, a) == [] && Judged(s, a, w) == []
      && Line(s, a, w) == Ahead(s, a, w) == Queue(s, w) == Queue(Run(cfg, INITIAL, before), w)
      && Limit(s, a) == ScanBudget(cfg)
  {
    InitialInv(cfg);
    RunInv(cfg, INITIAL, before);
    StepInv(cfg, Run(cfg, INITIAL, before), StartMonitor(a, w, now));
  }

  lemma PassEnds(t: State, a: AgentId, w: WorkerName)
    requires a !in t.agents
    ensures Line(t, a, w) == Queue(t, w) && ToRequeue(t, a) == [] && Ahead(t, a, w) == [] && Limit(t, a) == 0
  {
  }
}
