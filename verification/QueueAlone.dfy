/**
 Agents of the protocol run without interruption: a taker then computes what `GetNextTask` does, and a
 monitor what `MonitorPass` does. Events that come after an agent has finished change nothing, so the
 event sequences here need not depend on the state.
 */
module QueueAlone {
  import opened Common
  import opened QueueSpec
  import opened QueueProtocol
  import opened QueueSafety
  import opened QueueResults
  import opened QueueObjects

  // ---- a taker ----

  function TakeAlone(a: AgentId, w: WorkerName, now: real): seq<Event> {
    [StartTaking(a, w)] + Pops(5, a) + [TakeFetch(a), TakeMark(a, now)]
  }

  /** `get_next_task` run without interruption in the protocol is the function the object computes. */
  lemma TakingAloneIsGetNext(cfg: Settings, s: State, a: AgentId, w: WorkerName, now: real)
    requires a !in s.agents
    ensures var t := Run(cfg, s, TakeAlone(a, w, now));
      var (r, task) := GetNext(s.redis, w, now);
      && t.redis == r && a !in t.agents
      && t.delivered == s.delivered
         + (if task.None? then [] else [Delivery(OldestFirst(s.redis, Choice(w, FirstFilled(s.redis, w, 0)))[0], w, task.value)])
  {
    var events := TakeAlone(a, w, now);
    var s1 := Become(s, a, Taking(w, 0));
    assert events[0] == StartTaking(a, w) && events[1..] == Pops(5, a) + [TakeFetch(a), TakeMark(a, now)];
    assert Run(cfg, s, events) == Run(cfg, s1, events[1..]);
    Popping(cfg, s1, a, w, 0, [TakeFetch(a), TakeMark(a, now)]);
    SamePopped(s, a, w, Taking(w, 0));
    FetchAndMark(cfg, s, a, w, now);
  }

  /** The agent's state once it has tried its queues in order. */
  function Popped(s: State, a: AgentId, w: WorkerName): State {
    var k := FirstFilled(s.redis, w, 0);
    if k == 4 then Leave(s, a)
    else
      var q := Choice(w, k);
      var (r, id) := RPop(s.redis, q);
      Become(s.(redis := r, place := s.place[id.value := InHand(a)], popped := Record(s.popped, q, id.value)),
             a, Fetching(w, id.value))
  }

  function Pops(n: nat, a: AgentId): seq<Event> { seq(n, _ => TakePop(a)) }

  lemma {:induction false} NoMorePops(cfg: Settings, s: State, a: AgentId, n: nat, rest: seq<Event>)
    requires !Enabled(s, TakePop(a))
    ensures Run(cfg, s, Pops(n, a) + rest) == Run(cfg, s, rest)
  {
    if n == 0 {
      assert Pops(0, a) + rest == rest;
    } else {
      assert (Pops(n, a) + rest)[0] == TakePop(a) && (Pops(n, a) + rest)[1..] == Pops(n - 1, a) + rest;
      NoMorePops(cfg, s, a, n - 1, rest);
    }
  }

  lemma {:induction false} Popping(cfg: Settings, s: State, a: AgentId, w: WorkerName, k: nat, rest: seq<Event>)
    requires k <= 4 && a in s.agents && s.agents[a] == Taking(w, k)
    requires FirstFilled(s.redis, w, 0) == FirstFilled(s.redis, w, k)
    ensures Run(cfg, s, Pops(5 - k, a) + rest) == Run(cfg, Popped(s, a, w), rest)
    decreases 4 - k
  {
    var events := Pops(5 - k, a) + rest;
    assert events[0] == TakePop(a) && events[1..] == Pops(4 - k, a) + rest;
    var t := TakePopStep(s, a);
    assert Run(cfg, s, events) == Run(cfg, t, events[1..]);
    if k == 4 || ListOf(s.redis, Choice(w, k)) != [] {
      assert t == Popped(s, a, w);
      NoMorePops(cfg, t, a, 4 - k, rest);
    } else {
      assert t == Become(s, a, Taking(w, k + 1));
      Popping(cfg, t, a, w, k + 1, rest);
      SamePopped(s, a, w, Taking(w, k + 1));
    }
  }

  lemma SamePopped(s: State, a: AgentId, w: WorkerName, g: Agent)
    ensures Popped(Become(s, a, g), a, w) == Popped(s, a, w)
  {
    var k := FirstFilled(s.redis, w, 0);
    if k == 4 {
      assert s.agents[a := g] - {a} == s.agents - {a};
    } else {
      var h := Fetching(w, RPop(s.redis, Choice(w, k)).1.value);
      assert s.agents[a := g][a := h] == s.agents[a := h];
    }
  }

  lemma RunTwo(cfg: Settings, s: State, x: Event, y: Event)
    ensures Run(cfg, s, [x, y]) == Step(cfg, Step(cfg, s, x), y)
  {
    assert [x, y][1..] == [y] && [y][1..] == [];
    assert Run(cfg, Step(cfg, s, x), [y]) == Run(cfg, Step(cfg, Step(cfg, s, x), y), []);
  }

  lemma FetchAndMark(cfg: Settings, s: State, a: AgentId, w: WorkerName, now: real)
    requires a !in s.agents
    ensures var t := Run(cfg, Popped(s, a, w), [TakeFetch(a), TakeMark(a, now)]);
      var (r, task) := GetNext(s.redis, w, now);
      && t.redis == r && a !in t.agents
      && t.delivered == s.delivered
         + (if task.None? then [] else [Delivery(OldestFirst(s.redis, Choice(w, FirstFilled(s.redis, w, 0)))[0], w, task.value)])
  {
    var p := Popped(s, a, w);
    var k := FirstFilled(s.redis, w, 0);
    if k == 4 {
      RunTwo(cfg, p, TakeFetch(a), TakeMark(a, now));
    } else {
      PoppedOldest(s.redis, Choice(w, k));
      FetchedAndMarked(cfg, p, a, now);
    }
  }

  lemma FetchedAndMarked(cfg: Settings, p: State, a: AgentId, now: real)
    requires a in p.agents && p.agents[a].Fetching?
    ensures var t := Run(cfg, p, [TakeFetch(a), TakeMark(a, now)]);
      var id := p.agents[a].id;
      var data := HashOf(p.redis, id).data;
      && a !in t.agents
      && t.redis == (if data.None? then p.redis else MarkProcessing(p.redis, id, now))
      && t.delivered == p.delivered + (if data.None? then [] else [Delivery(id, p.agents[a].w, data.value)])
  {
    RunTwo(cfg, p, TakeFetch(a), TakeMark(a, now));
    var p2 := TakeFetchStep(p, a);
    assert Step(cfg, p, TakeFetch(a)) == p2;
    if HashOf(p.redis, p.agents[a].id).data.Some? {
      MarkedAlone(cfg, p2, a, now);
    } else {
      assert Step(cfg, p2, TakeMark(a, now)) == p2;
    }
  }

  lemma MarkedAlone(cfg: Settings, p: State, a: AgentId, now: real)
    requires a in p.agents && p.agents[a].Marking?
    ensures var t := Step(cfg, p, TakeMark(a, now));
      && a !in t.agents && t.redis == MarkProcessing(p.redis, p.agents[a].id, now)
      && t.delivered == p.delivered + [Delivery(p.agents[a].id, p.agents[a].w, p.agents[a].payload)]
  {
  }

  /** A terminal status is not absorbing: a cancelled task stays queued, is still delivered to a worker
      that may have it, and its hash then says "processing" while the answer is the cancellation. */
  lemma CancelledIsStillDelivered(cfg: Settings, req: Request, w: WorkerName, now: real)
    requires SubmitStatus(cfg, INITIAL.redis, req).Accepted? && req.payload.assignedTo in {"", w}
    ensures var s := After(cfg, SubmitAndCancel(req, now) + TakeAlone(0, w, now));
      && s.delivered == [Delivery(req.id, w, FillDefaults(cfg, req.payload))]
      && HashOf(s.redis, req.id).status == Some(Processing)
      && GetTaskStatus(s.redis, req.id) == Some(Failed)
      && GetTaskResult(s.redis, req.id) == Error("Task cancelled")
  {
    RunConcat(cfg, INITIAL, SubmitAndCancel(req, now), TakeAlone(0, w, now));
    Cancelled(cfg, req, now);
    var s := After(cfg, SubmitAndCancel(req, now));
    OnlyTaskIsNext(s.redis, req, w, now);
    TakingAloneIsGetNext(cfg, s, 0, w, now);
  }

  /** When a worker tries the queue, if it is one of those it tries. */
  function TurnOf(q: QueueKey): (k: nat)
    ensures k < 4
  {
    match q
    case Own(_) => 0
    case Class(High) => 1
    case Class(Normal) => 2
    case Class(Low) => 3
  }

  lemma SoleTask(r: Redis, q: QueueKey, id: TaskId)
    requires ListOf(r, q) == [id]
    ensures OldestFirst(r, q) == [id] && RPop(r, q).1 == Some(id)
    ensures RPop(r, q).0.tasks == r.tasks && RPop(r, q).0.results == r.results
  {
    assert [id][1..] == [];
  }

  lemma OnlyTaskIsNext(r: Redis, req: Request, w: WorkerName, now: real)
    requires r.lists == map[TargetOf(req) := [req.id]] && req.payload.assignedTo in {"", w}
    requires HashOf(r, req.id).data.Some?
    ensures var (t, task) := GetNext(r, w, now);
      && FirstFilled(r, w, 0) < 4 && OldestFirst(r, Choice(w, FirstFilled(r, w, 0))) == [req.id]
      && task == HashOf(r, req.id).data && t.results == r.results
      && HashOf(t, req.id).status == Some(Processing)
  {
    var q := TargetOf(req);
    var k := TurnOf(q);
    assert Choice(w, k) == q;
    forall i: nat | i < k ensures ListOf(r, Choice(w, i)) == [] {
      assert Choice(w, i) != q;
    }
    SkipEmpty(r, w, 0, k);
    SoleTask(r, q, req.id);
  }

  lemma {:induction false} SkipEmpty(r: Redis, w: WorkerName, i: nat, k: nat)
    requires i <= k < 4 && ListOf(r, Choice(w, k)) != []
    requires forall j: nat :: i <= j < k ==> ListOf(r, Choice(w, j)) == []
    ensures FirstFilled(r, w, i) == k
    decreases k - i
  {
    if i < k { SkipEmpty(r, w, i + 1, k); }
  }

  // ---- a monitor ----

  function Twice(n: nat, x: Event, y: Event): seq<Event> {
    if n == 0 then [] else [x, y] + Twice(n - 1, x, y)
  }

  function Looks(n: nat, a: AgentId): seq<Event> { Twice(n, MonitorPop(a), MonitorLook(a)) }

  function PutBacks(n: nat, a: AgentId): seq<Event> { seq(n, _ => MonitorPutBack(a)) }

  function Pushes(n: nat, a: AgentId): seq<Event> { Twice(n, MonitorUnassign(a), MonitorPush(a)) }

  function WatchAlone(cfg: Settings, a: AgentId, w: WorkerName, now: real): seq<Event> {
    var n := ScanBudget(cfg);
    [StartMonitor(a, w, now)] + (Looks(n, a) + ([MonitorPop(a)] + (PutBacks(n + 1, a) + (Pushes(n, a) + [MonitorUnassign(a)]))))
  }

  lemma RunCons(cfg: Settings, s: State, e: Event, rest: seq<Event>)
    ensures Run(cfg, s, [e] + rest) == Run(cfg, Step(cfg, s, e), rest)
  {
    assert ([e] + rest)[1..] == rest;
  }

  lemma RunPair(cfg: Settings, s: State, n: nat, x: Event, y: Event, rest: seq<Event>)
    requires n > 0
    ensures Run(cfg, s, Twice(n, x, y) + rest) == Run(cfg, Step(cfg, Step(cfg, s, x), y), Twice(n - 1, x, y) + rest)
  {
    var more := Twice(n - 1, x, y) + rest;
    assert Twice(n, x, y) + rest == [x] + ([y] + more);
    RunCons(cfg, s, x, [y] + more);
    RunCons(cfg, Step(cfg, s, x), y, more);
  }

  lemma {:induction false} NoMoreTwice(cfg: Settings, s: State, n: nat, x: Event, y: Event, rest: seq<Event>)
    requires !Enabled(s, x) && !Enabled(s, y)
    ensures Run(cfg, s, Twice(n, x, y) + rest) == Run(cfg, s, rest)
    decreases n
  {
    if n == 0 {
      assert Twice(0, x, y) + rest == rest;
    } else {
      RunPair(cfg, s, n, x, y, rest);
      NoMoreTwice(cfg, s, n - 1, x, y, rest);
    }
  }

  /** What the scan leaves: the hands are full, and the worker's own list is what was not seen. */
  ghost predicate Scanned(cfg: Settings, s: State, t: State, a: AgentId, g: Agent)
    requires g.Scanning?
  {
    var scan := ScanLine(cfg, s.redis.tasks, g.w, g.now, OldestFirst(s.redis, Own(g.w)), g.budget);
    && a in t.agents && t.agents[a] == PuttingBack(g.w, g.now, g.keep + scan.kept, g.requeue + scan.dropped)
    && t.redis.tasks == s.redis.tasks && t.redis.results == s.redis.results
    && OnlyPopped(s.redis.lists, t.redis.lists, g.w)
    && OldestFirst(t.redis, Own(g.w)) == scan.unseen
  }

  lemma ScanEnds(cfg: Settings, s: State, a: AgentId, rest: seq<Event>) returns (t: State)
    requires a in s.agents && s.agents[a].Scanning?
    requires var g := s.agents[a];
      var line := OldestFirst(s.redis, Own(g.w));
      g.budget == 0 || line == [] || line[0] == ""
    ensures Run(cfg, s, Looks(s.agents[a].budget, a) + ([MonitorPop(a)] + rest)) == Run(cfg, t, rest)
    ensures Scanned(cfg, s, t, a, s.agents[a])
  {
    var g := s.agents[a];
    t := MonitorPopStep(s, a);
    if ListOf(s.redis, Own(g.w)) != [] { PoppedOldest(s.redis, Own(g.w)); }
    assert g.keep + [] == g.keep && g.requeue + [] == g.requeue;
    var last := [MonitorPop(a)] + rest;
    if g.budget == 0 {
      assert Looks(0, a) + last == last;
      RunCons(cfg, s, MonitorPop(a), rest);
    } else {
      RunPair(cfg, s, g.budget, MonitorPop(a), MonitorLook(a), last);
      NoMoreTwice(cfg, t, g.budget - 1, MonitorPop(a), MonitorLook(a), last);
      RunCons(cfg, t, MonitorPop(a), rest);
    }
  }

  /** One id was popped and judged. */
  ghost predicate OneScanned(cfg: Settings, s: State, u: State, g: Agent, h: Agent)
    requires g.Scanning? && g.budget > 0
  {
    var line := OldestFirst(s.redis, Own(g.w));
    && line != [] && line[0] != ""
    && (var (keep, requeue) := Triaged(cfg, s.redis.tasks, g.w, g.now, line[0], g.keep, g.requeue);
        h == Scanning(g.w, g.now, g.budget - 1, keep, requeue))
    && u.redis.tasks == s.redis.tasks && u.redis.results == s.redis.results
    && OnlyPopped(s.redis.lists, u.redis.lists, g.w)
    && OldestFirst(u.redis, Own(g.w)) == line[1..]
  }

  lemma ScanGoesOn(cfg: Settings, s: State, a: AgentId) returns (t: State)
    requires a in s.agents && s.agents[a].Scanning? && s.agents[a].budget > 0
    requires var line := OldestFirst(s.redis, Own(s.agents[a].w)); line != [] && line[0] != ""
    ensures t == Step(cfg, Step(cfg, s, MonitorPop(a)), MonitorLook(a))
    ensures a in t.agents && t.agents[a].Scanning? && t.agents[a].budget == s.agents[a].budget - 1
    ensures OneScanned(cfg, s, t, s.agents[a], t.agents[a])
  {
    var g := s.agents[a];
    PoppedOldest(s.redis, Own(g.w));
    var u := MonitorPopStep(s, a);
    assert u.agents[a].Looking? && u.redis == RPop(s.redis, Own(g.w)).0;
    t := MonitorLookStep(cfg, u, a);
  }

  lemma ScannedOneMore(cfg: Settings, s: State, u: State, t: State, a: AgentId, g: Agent, h: Agent)
    requires g.Scanning? && g.budget > 0 && h.Scanning? && OneScanned(cfg, s, u, g, h) && Scanned(cfg, u, t, a, h)
    ensures Scanned(cfg, s, t, a, g)
  {
    OnlyPoppedTwice(s.redis.lists, u.redis.lists, t.redis.lists, g.w);
    ScanStep(cfg, s.redis.tasks, g.w, g.now, OldestFirst(s.redis, Own(g.w)), g.budget, g.keep, g.requeue);
  }

  lemma LooksOnce(cfg: Settings, s: State, a: AgentId, n: nat, last: seq<Event>) returns (u: State)
    requires a in s.agents && s.agents[a].Scanning? && s.agents[a].budget == n && n > 0
    requires var line := OldestFirst(s.redis, Own(s.agents[a].w)); line != [] && line[0] != ""
    ensures Run(cfg, s, Looks(n, a) + last) == Run(cfg, u, Looks(n - 1, a) + last)
    ensures a in u.agents && u.agents[a].Scanning? && u.agents[a].budget == n - 1
    ensures OneScanned(cfg, s, u, s.agents[a], u.agents[a])
  {
    RunPair(cfg, s, n, MonitorPop(a), MonitorLook(a), last);
    u := ScanGoesOn(cfg, s, a);
  }

  lemma {:induction false} ScanningAlone(cfg: Settings, s: State, a: AgentId, n: nat, rest: seq<Event>) returns (t: State)
    requires a in s.agents && s.agents[a].Scanning? && s.agents[a].budget == n
    ensures Run(cfg, s, Looks(n, a) + ([MonitorPop(a)] + rest)) == Run(cfg, t, rest)
    ensures Scanned(cfg, s, t, a, s.agents[a])
    decreases n
  {
    var g := s.agents[a];
    var line := OldestFirst(s.redis, Own(g.w));
    if n == 0 || line == [] || line[0] == "" {
      t := ScanEnds(cfg, s, a, rest);
    } else {
      var u := LooksOnce(cfg, s, a, n, [MonitorPop(a)] + rest);
      t := ScanningAlone(cfg, u, a, n - 1, rest);
      ScannedOneMore(cfg, s, u, t, a, g, u.agents[a]);
    }
  }

  lemma {:induction false} NoMorePutBacks(cfg: Settings, s: State, a: AgentId, n: nat, rest: seq<Event>)
    requires !Enabled(s, MonitorPutBack(a))
    ensures Run(cfg, s, PutBacks(n, a) + rest) == Run(cfg, s, rest)
    decreases n
  {
    if n == 0 {
      assert PutBacks(0, a) + rest == rest;
    } else {
      assert PutBacks(n, a) + rest == [MonitorPutBack(a)] + (PutBacks(n - 1, a) + rest);
      RunCons(cfg, s, MonitorPutBack(a), PutBacks(n - 1, a) + rest);
      NoMorePutBacks(cfg, s, a, n - 1, rest);
    }
  }

  /** The kept ids are back in front of the worker's own list. */
  ghost predicate Restocked(s: State, t: State, a: AgentId, g: Agent)
    requires g.PuttingBack?
  {
    && a in t.agents && t.agents[a] == Requeuing(g.w, g.now, g.requeue)
    && t.redis.tasks == s.redis.tasks && t.redis.results == s.redis.results
    && OnlyOwn(s.redis.lists, t.redis.lists, g.w)
    && OldestFirst(t.redis, Own(g.w)) == g.keep + OldestFirst(s.redis, Own(g.w))
  }

  lemma RestockedNothing(s: State, a: AgentId)
    requires a in s.agents && s.agents[a].PuttingBack? && s.agents[a].keep == []
    ensures Restocked(s, MonitorPutBackStep(s, a), a, s.agents[a])
  {
    var line := OldestFirst(s.redis, Own(s.agents[a].w));
    assert [] + line == line;
  }

  lemma RestockedOneMore(s: State, t: State, a: AgentId, g: Agent)
    requires a in s.agents && s.agents[a] == g && g.PuttingBack? && g.keep != []
    requires Restocked(MonitorPutBackStep(s, a), t, a, PuttingBack(g.w, g.now, g.keep[..|g.keep| - 1], g.requeue))
    ensures Restocked(s, t, a, g)
  {
    var m := |g.keep| - 1;
    var line := OldestFirst(s.redis, Own(g.w));
    ReversedSnoc(ListOf(s.redis, Own(g.w)), g.keep[m]);
    assert g.keep == g.keep[..m] + [g.keep[m]];
    Associates(g.keep[..m], [g.keep[m]], line);
    var u := MonitorPutBackStep(s, a);
    assert u.redis.lists == s.redis.lists[Own(g.w) := ListOf(s.redis, Own(g.w)) + [g.keep[m]]];
    assert OldestFirst(u.redis, Own(g.w)) == [g.keep[m]] + line;
  }

  lemma {:induction false} PuttingBackAlone(cfg: Settings, s: State, a: AgentId, n: nat, rest: seq<Event>) returns (t: State)
    requires a in s.agents && s.agents[a].PuttingBack? && |s.agents[a].keep| < n
    ensures Run(cfg, s, PutBacks(n, a) + rest) == Run(cfg, t, rest)
    ensures Restocked(s, t, a, s.agents[a])
    decreases n
  {
    var g := s.agents[a];
    var more := PutBacks(n - 1, a) + rest;
    assert PutBacks(n, a) + rest == [MonitorPutBack(a)] + more;
    RunCons(cfg, s, MonitorPutBack(a), more);
    var u := MonitorPutBackStep(s, a);
    if g.keep == [] {
      t := u;
      RestockedNothing(s, a);
      NoMorePutBacks(cfg, t, a, n - 1, rest);
    } else {
      PutBackAgent(s, a);
      t := PuttingBackAlone(cfg, u, a, n - 1, rest);
      RestockedOneMore(s, t, a, g);
    }
  }

  lemma PutBackAgent(s: State, a: AgentId)
    requires a in s.agents && s.agents[a].PuttingBack? && s.agents[a].keep != []
    ensures var g := s.agents[a];
      var t := MonitorPutBackStep(s, a);
      a in t.agents && t.agents[a] == PuttingBack(g.w, g.now, g.keep[..|g.keep| - 1], g.requeue)
  {
  }

  lemma {:induction false} RequeuingAlone(cfg: Settings, s: State, a: AgentId, n: nat)
    requires a in s.agents && s.agents[a].Requeuing? && |s.agents[a].requeue| <= n
    ensures var t := Run(cfg, s, Pushes(n, a) + [MonitorUnassign(a)]);
      a !in t.agents && t.redis == RequeueAll(s.redis, s.agents[a].requeue, s.agents[a].now)
    decreases n
  {
    if s.agents[a].requeue == [] {
      NothingToRequeue(cfg, s, a, n);
    } else {
      RunPair(cfg, s, n, MonitorUnassign(a), MonitorPush(a), [MonitorUnassign(a)]);
      var t := RequeueOne(cfg, s, a);
      RequeuingAlone(cfg, t, a, n - 1);
    }
  }

  lemma NothingToRequeue(cfg: Settings, s: State, a: AgentId, n: nat)
    requires a in s.agents && s.agents[a].Requeuing? && s.agents[a].requeue == []
    ensures Run(cfg, s, Pushes(n, a) + [MonitorUnassign(a)]) == Leave(s, a)
  {
    var last := [MonitorUnassign(a)];
    var u := Leave(s, a);
    assert last == last + [];
    if n == 0 {
      assert Pushes(0, a) + last == last;
      RunCons(cfg, s, MonitorUnassign(a), []);
    } else {
      RunPair(cfg, s, n, MonitorUnassign(a), MonitorPush(a), last);
      NoMoreTwice(cfg, u, n - 1, MonitorUnassign(a), MonitorPush(a), last);
      RunCons(cfg, u, MonitorUnassign(a), []);
    }
  }

  lemma RequeueOne(cfg: Settings, s: State, a: AgentId) returns (t: State)
    requires a in s.agents && s.agents[a].Requeuing? && s.agents[a].requeue != []
    ensures t == Step(cfg, Step(cfg, s, MonitorUnassign(a)), MonitorPush(a))
    ensures var g := s.agents[a];
      a in t.agents && t.agents[a] == Requeuing(g.w, g.now, g.requeue[1..]) && t.redis == Requeue(s.redis, g.requeue[0], g.now)
  {
    var u := MonitorUnassignStep(s, a);
    assert u.agents[a].Pushing?;
    t := MonitorPushStep(u, a);
  }

  lemma {:induction false} HandsFit(cfg: Settings, tasks: map<TaskId, TaskHash>, w: WorkerName, now: real,
                                    line: seq<TaskId>, budget: nat)
    ensures var scan := ScanLine(cfg, tasks, w, now, line, budget); |scan.kept| <= budget && |scan.dropped| <= budget
    decreases budget
  {
    if budget > 0 && line != [] { HandsFit(cfg, tasks, w, now, line[1..], budget - 1); }
  }

  /** One worker's turn of the monitor, run without interruption in the protocol, is the function the
      object computes. */
  lemma WatchingAloneIsPassOver(cfg: Settings, s: State, a: AgentId, w: WorkerName, now: real)
    requires a !in s.agents
    ensures var t := Run(cfg, s, WatchAlone(cfg, a, w, now));
      a !in t.agents && t.redis == PassOver(cfg, s.redis, w, now)
  {
    var t, items := Watched(cfg, s, a, w, now);
    RequeuingAlone(cfg, t, a, ScanBudget(cfg));
  }

  lemma StartsWatching(cfg: Settings, s: State, a: AgentId, w: WorkerName, now: real, rest: seq<Event>)
    requires a !in s.agents
    ensures Run(cfg, s, [StartMonitor(a, w, now)] + rest) == Run(cfg, Become(s, a, Scanning(w, now, ScanBudget(cfg), [], [])), rest)
  {
    RunCons(cfg, s, StartMonitor(a, w, now), rest);
  }

  lemma Watched(cfg: Settings, s: State, a: AgentId, w: WorkerName, now: real) returns (t: State, items: seq<Item>)
    requires a !in s.agents
    ensures Run(cfg, s, WatchAlone(cfg, a, w, now)) == Run(cfg, t, Pushes(ScanBudget(cfg), a) + [MonitorUnassign(a)])
    ensures a in t.agents && t.agents[a] == Requeuing(w, now, items) && |items| <= ScanBudget(cfg)
    ensures PassOver(cfg, s.redis, w, now) == RequeueAll(t.redis, items, now)
  {
    var n := ScanBudget(cfg);
    var s1 := Become(s, a, Scanning(w, now, n, [], []));
    var requeues := Pushes(n, a) + [MonitorUnassign(a)];
    var looks := Looks(n, a) + ([MonitorPop(a)] + (PutBacks(n + 1, a) + requeues));
    StartsWatching(cfg, s, a, w, now, looks);
    assert WatchAlone(cfg, a, w, now) == [StartMonitor(a, w, now)] + looks;
    var u;
    u, t := ThereAndBack(cfg, s1, a, n, w, now, requeues);
    items := Requeues(cfg, s1, u, t, a, w, now);
  }

  /** Up to the requeues: scanning, then putting back. */
  lemma ThereAndBack(cfg: Settings, s: State, a: AgentId, n: nat, w: WorkerName, now: real, rest: seq<Event>)
    returns (u: State, t: State)
    requires a in s.agents && s.agents[a] == Scanning(w, now, n, [], [])
    ensures Run(cfg, s, Looks(n, a) + ([MonitorPop(a)] + (PutBacks(n + 1, a) + rest))) == Run(cfg, t, rest)
    ensures Scanned(cfg, s, u, a, s.agents[a]) && u.agents[a].PuttingBack? && Restocked(u, t, a, u.agents[a])
  {
    u := ScanningAlone(cfg, s, a, n, PutBacks(n + 1, a) + rest);
    ScannedFits(cfg, s, u, a, n);
    t := PuttingBackAlone(cfg, u, a, n + 1, rest);
  }

  lemma ScannedFits(cfg: Settings, s: State, u: State, a: AgentId, n: nat)
    requires a in s.agents && s.agents[a].Scanning? && s.agents[a].budget == n && s.agents[a].keep == []
    requires Scanned(cfg, s, u, a, s.agents[a])
    ensures u.agents[a].PuttingBack? && |u.agents[a].keep| <= n
  {
    var g := s.agents[a];
    HandsFit(cfg, s.redis.tasks, g.w, g.now, OldestFirst(s.redis, Own(g.w)), n);
  }

  /** What is left to do then: the agent holds the ids to be requeued, and everything else is back. */
  lemma Requeues(cfg: Settings, s: State, u: State, t: State, a: AgentId, w: WorkerName, now: real) returns (items: seq<Item>)
    requires a in s.agents && s.agents[a] == Scanning(w, now, ScanBudget(cfg), [], [])
    requires Scanned(cfg, s, u, a, s.agents[a]) && u.agents[a].PuttingBack? && Restocked(u, t, a, u.agents[a])
    ensures a in t.agents && t.agents[a] == Requeuing(w, now, items) && |items| <= ScanBudget(cfg)
    ensures PassOver(cfg, s.redis, w, now) == RequeueAll(t.redis, items, now)
  {
    var keep;
    keep, items := ScannedHands(cfg, s, u, a, w, now);
    ScannedAndPutBack(cfg, s, u, t, a, w, now, keep, items);
  }

  lemma ScannedHands(cfg: Settings, s: State, u: State, a: AgentId, w: WorkerName, now: real)
    returns (keep: seq<TaskId>, items: seq<Item>)
    requires a in s.agents && s.agents[a] == Scanning(w, now, ScanBudget(cfg), [], [])
    requires Scanned(cfg, s, u, a, s.agents[a])
    ensures a in u.agents && u.agents[a] == PuttingBack(w, now, keep, items)
    ensures |keep| <= ScanBudget(cfg) && |items| <= ScanBudget(cfg)
    ensures var scan := ScanLine(cfg, s.redis.tasks, w, now, OldestFirst(s.redis, Own(w)), ScanBudget(cfg));
      keep == scan.kept && items == scan.dropped
  {
    var scan := ScanLine(cfg, s.redis.tasks, w, now, OldestFirst(s.redis, Own(w)), ScanBudget(cfg));
    HandsFit(cfg, s.redis.tasks, w, now, OldestFirst(s.redis, Own(w)), ScanBudget(cfg));
    keep, items := scan.kept, scan.dropped;
    assert [] + keep == keep && [] + items == items;
  }

  /** The lists between the scan with its putting back and the requeues. */
  lemma ScannedAndPutBack(cfg: Settings, s: State, u: State, t: State, a: AgentId, w: WorkerName, now: real,
                          keep: seq<TaskId>, items: seq<Item>)
    requires a in s.agents && s.agents[a] == Scanning(w, now, ScanBudget(cfg), [], [])
    requires a in u.agents && u.agents[a] == PuttingBack(w, now, keep, items)
    requires Scanned(cfg, s, u, a, s.agents[a]) && Restocked(u, t, a, u.agents[a])
    requires var scan := ScanLine(cfg, s.redis.tasks, w, now, OldestFirst(s.redis, Own(w)), ScanBudget(cfg));
      keep == scan.kept && items == scan.dropped
    ensures PassOver(cfg, s.redis, w, now) == RequeueAll(t.redis, items, now)
  {
    var line := OldestFirst(s.redis, Own(w));
    PoppedThenPut(s.redis.lists, u.redis.lists, t.redis.lists, w);
    OwnListIs(s.redis.lists, t.redis.lists, w, line, OldestFirst(t.redis, Own(w)));
    if line == [] {
      assert ScanLine(cfg, s.redis.tasks, w, now, line, ScanBudget(cfg)) == Scan([], [], []);
    }
  }

  lemma PoppedThenPut(a: map<QueueKey, seq<TaskId>>, b: map<QueueKey, seq<TaskId>>, c: map<QueueKey, seq<TaskId>>,
                      w: WorkerName)
    requires OnlyPopped(a, b, w) && OnlyOwn(b, c, w)
    ensures OnlyOwn(a, c, w)
  {
  }
}
