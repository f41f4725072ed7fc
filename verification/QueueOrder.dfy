/**
 Over whole runs: in what order a worker tries its queues, what of a request reaches the worker, and which
 of the tasks waiting for a worker a pass of its monitor requeues.
 */
module QueueOrder {
  import opened Common
  import opened QueueSpec
  import opened QueueProtocol
  import opened QueueSafety
  import opened QueueResults
  import opened QueuePass
  import opened QueueObjects

  function At(cfg: Settings, events: seq<Event>, n: nat): State
    requires n <= |events|
  {
    After(cfg, events[..n])
  }

  lemma AtStart(cfg: Settings, events: seq<Event>)
    ensures At(cfg, events, 0) == INITIAL
  {
    assert events[..0] == [];
  }

  lemma NextState(cfg: Settings, events: seq<Event>, n: nat)
    requires n < |events|
    ensures At(cfg, events, n + 1) == Step(cfg, At(cfg, events, n), events[n])
  {
    assert events[..n + 1] == events[..n] + [events[n]];
    RunSnoc(cfg, INITIAL, events[..n], events[n]);
  }

  // ---- the order of the queues ----

  predicate IsTaking(s: State, a: AgentId, w: WorkerName) {
    a in s.agents && s.agents[a].Taking? && s.agents[a].w == w
  }

  /** Since it last asked, agent a has popped queue q for worker w and found it empty. */
  ghost predicate FoundEmpty(cfg: Settings, events: seq<Event>, n: nat, a: AgentId, w: WorkerName, q: QueueKey)
    requires n <= |events|
  {
    exists i :: 0 <= i < n && EmptyAt(cfg, events, i, a, q) && TakingFrom(cfg, events, i, n, a, w)
  }

  predicate EmptyAt(cfg: Settings, events: seq<Event>, i: nat, a: AgentId, q: QueueKey)
    requires i < |events|
  {
    events[i] == TakePop(a) && ListOf(At(cfg, events, i).redis, q) == []
  }

  predicate TakingFrom(cfg: Settings, events: seq<Event>, i: nat, n: nat, a: AgentId, w: WorkerName)
    requires i <= n <= |events|
  {
    forall j :: i <= j <= n ==> IsTaking(At(cfg, events, j), a, w)
  }

  lemma StillEmpty(cfg: Settings, events: seq<Event>, n: nat, a: AgentId, w: WorkerName, q: QueueKey)
    requires n < |events| && FoundEmpty(cfg, events, n, a, w, q) && IsTaking(At(cfg, events, n + 1), a, w)
    ensures FoundEmpty(cfg, events, n + 1, a, w, q)
  {
    var i :| 0 <= i < n && EmptyAt(cfg, events, i, a, q) && TakingFrom(cfg, events, i, n, a, w);
    assert TakingFrom(cfg, events, i, n + 1, a, w);
  }

  lemma JustEmpty(cfg: Settings, events: seq<Event>, n: nat, a: AgentId, w: WorkerName, q: QueueKey)
    requires n < |events| && EmptyAt(cfg, events, n, a, q)
    requires IsTaking(At(cfg, events, n), a, w) && IsTaking(At(cfg, events, n + 1), a, w)
    ensures FoundEmpty(cfg, events, n + 1, a, w, q)
  {
    assert TakingFrom(cfg, events, n, n + 1, a, w);
  }

  /** What a worker about to try its k-th queue has tried. */
  ghost predicate Tried(cfg: Settings, events: seq<Event>, n: nat, a: AgentId, w: WorkerName, k: nat)
    requires n <= |events|
  {
    && (k >= 1 ==> FoundEmpty(cfg, events, n, a, w, Own(w)))
    && (k >= 2 ==> FoundEmpty(cfg, events, n, a, w, Class(High)))
    && (k >= 3 ==> FoundEmpty(cfg, events, n, a, w, Class(Normal)))
    && (k >= 4 ==> FoundEmpty(cfg, events, n, a, w, Class(Low)))
  }

  /** An agent that is taking after an event was taking before it, one queue back, or has just begun. */
  lemma TakingStep(cfg: Settings, s: State, e: Event, a: AgentId, w: WorkerName)
    requires IsTaking(Step(cfg, s, e), a, w)
    ensures var k := Step(cfg, s, e).agents[a].next;
      || (IsTaking(s, a, w) && s.agents[a].next == k)
      || k == 0
      || (IsTaking(s, a, w) && s.agents[a].next == k - 1 < 4 && e == TakePop(a) && ListOf(s.redis, Choice(w, k - 1)) == [])
  {
    if Enabled(s, e) && !By(e, a) { OthersStay(cfg, s, e, a); }
    if Enabled(s, e) && By(e, a) { OwnTakingStep(cfg, s, e, a, w); }
  }

  lemma OwnTakingStep(cfg: Settings, s: State, e: Event, a: AgentId, w: WorkerName)
    requires Enabled(s, e) && By(e, a) && IsTaking(Apply(cfg, s, e), a, w)
    ensures var k := Apply(cfg, s, e).agents[a].next;
      || k == 0
      || (IsTaking(s, a, w) && s.agents[a].next == k - 1 < 4 && e == TakePop(a) && ListOf(s.redis, Choice(w, k - 1)) == [])
  {
    if e.TakePop? {
      assert Apply(cfg, s, e) == TakePopStep(s, a);
    } else if e.MonitorLook? {
      LookShape(cfg, s, a);
    }
  }

  lemma {:induction false} HasTried(cfg: Settings, events: seq<Event>, n: nat, a: AgentId, w: WorkerName)
    requires n <= |events| && IsTaking(At(cfg, events, n), a, w)
    ensures At(cfg, events, n).agents[a].next <= 4 && Tried(cfg, events, n, a, w, At(cfg, events, n).agents[a].next)
  {
    if n > 0 {
      NextState(cfg, events, n - 1);
      var s := At(cfg, events, n - 1);
      TakingStep(cfg, s, events[n - 1], a, w);
      var k := At(cfg, events, n).agents[a].next;
      if k != 0 {
        HasTried(cfg, events, n - 1, a, w);
        TriedOn(cfg, events, n - 1, a, w, s.agents[a].next);
        if s.agents[a].next != k { JustEmpty(cfg, events, n - 1, a, w, Choice(w, k - 1)); }
      }
    }
  }

  lemma TriedOn(cfg: Settings, events: seq<Event>, n: nat, a: AgentId, w: WorkerName, k: nat)
    requires n < |events| && Tried(cfg, events, n, a, w, k) && IsTaking(At(cfg, events, n + 1), a, w)
    ensures Tried(cfg, events, n + 1, a, w, k)
  {
    if k >= 1 { StillEmpty(cfg, events, n, a, w, Own(w)); }
    if k >= 2 { StillEmpty(cfg, events, n, a, w, Class(High)); }
    if k >= 3 { StillEmpty(cfg, events, n, a, w, Class(Normal)); }
    if k >= 4 { StillEmpty(cfg, events, n, a, w, Class(Low)); }
  }

  /** In any run, whatever else happens between the pops of a worker: it takes a task from the high class
      only after it found its own queue empty, from the normal class only after it also found the high
      class empty, and from the low class only after it found those three empty. It takes no other
      worker's task, and it leaves with nothing only after it found all four empty. */
  lemma TriesInOrder(cfg: Settings, events: seq<Event>, n: nat, a: AgentId, w: WorkerName)
    requires n < |events| && events[n] == TakePop(a) && IsTaking(At(cfg, events, n), a, w)
    ensures var s := At(cfg, events, n);
      var t := Step(cfg, s, events[n]);
      && (a in t.agents && t.agents[a].Fetching? ==>
            var id := t.agents[a].id;
            && id in s.place && s.place[id].InQueue? && s.place[id].q in {Own(w), Class(High), Class(Normal), Class(Low)}
            && OldestFirst(s.redis, s.place[id].q) == [id] + OldestFirst(t.redis, s.place[id].q)
            && (s.place[id].q.Class? ==> FoundEmpty(cfg, events, n, a, w, Own(w)))
            && (s.place[id].q in {Class(Normal), Class(Low)} ==> FoundEmpty(cfg, events, n, a, w, Class(High)))
            && (s.place[id].q == Class(Low) ==> FoundEmpty(cfg, events, n, a, w, Class(Normal))))
      && (a !in t.agents ==>
            && FoundEmpty(cfg, events, n, a, w, Own(w)) && FoundEmpty(cfg, events, n, a, w, Class(High))
            && FoundEmpty(cfg, events, n, a, w, Class(Normal)) && FoundEmpty(cfg, events, n, a, w, Class(Low)))
  {
    var s := At(cfg, events, n);
    HasTried(cfg, events, n, a, w);
    AfterInv(cfg, events[..n]);
    var k := s.agents[a].next;
    if k < 4 && ListOf(s.redis, Choice(w, k)) != [] {
      PoppedOldest(s.redis, Choice(w, k));
      OldestIsThere(s, Choice(w, k));
    }
  }

  lemma OldestIsThere(s: State, q: QueueKey)
    requires PlacesOk(s) && ListOf(s.redis, q) != []
    ensures RPop(s.redis, q).1.Some? && RPop(s.redis, q).1.value in s.place && s.place[RPop(s.redis, q).1.value] == InQueue(q)
  {
    assert ContainerOk(s, InQueue(q));
    PopFacts(s.redis, q);
    assert RPop(s.redis, q).1.value in Contents(s, InQueue(q));
  }

  // ---- from the request to the worker ----

  /** The task as the request and the settings make it, in its fields. */
  predicate Requested(cfg: Settings, p: Payload, req: Request) {
    && p.toolkit == (if req.payload.toolkit == "" then cfg.defaultToolkit else req.payload.toolkit)
    && p.adapter == (if req.payload.adapter == "" then cfg.defaultAdapter else req.payload.adapter)
    && p.backend == (if req.payload.backend == "" then cfg.defaultBackend else req.payload.backend)
    && p.timeout == req.payload.timeout && p.perTaskTimeout == req.payload.perTaskTimeout
    && p.queueWaitTimeout == req.payload.queueWaitTimeout && p.queueTimeout == req.payload.queueTimeout
    && p.body == req.payload.body
  }

  predicate AcceptedAt(cfg: Settings, events: seq<Event>, n: nat, req: Request)
    requires n < |events|
  {
    events[n].SubmitTask? && events[n].req == req && SubmitStatus(cfg, At(cfg, events, n).redis, req).Accepted?
  }

  predicate Stored(cfg: Settings, s: State, req: Request) {
    req.id in s.submitted && s.submitted[req.id] == req.(payload := FillDefaults(cfg, req.payload))
  }

  lemma SubmittedStep(cfg: Settings, s: State, e: Event, id: TaskId)
    requires id in Step(cfg, s, e).submitted && (id !in s.submitted || Step(cfg, s, e).submitted[id] != s.submitted[id])
    ensures e.SubmitTask? && e.req.id == id && SubmitStatus(cfg, s.redis, e.req).Accepted? && Stored(cfg, Step(cfg, s, e), e.req)
  {
    SameSubmitted(cfg, s, e);
  }

  lemma SameSubmitted(cfg: Settings, s: State, e: Event)
    ensures !e.SubmitTask? ==> Step(cfg, s, e).submitted == s.submitted
  {
    if Enabled(s, e) && !e.SubmitTask? && !e.TakeMark? { UntouchedDeliveries(cfg, s, e); }
  }

  /** What is recorded as submitted came with an accepted request of the run. */
  lemma {:induction false} WasSubmitted(cfg: Settings, events: seq<Event>, n: nat, id: TaskId) returns (i: nat, req: Request)
    requires n <= |events| && id in At(cfg, events, n).submitted
    ensures i < n && AcceptedAt(cfg, events, i, req) && req.id == id && Stored(cfg, At(cfg, events, n), req)
  {
    AtStart(cfg, events);
    if n == 0 {
      assert false;
    } else {
      NextState(cfg, events, n - 1);
      var s, t := At(cfg, events, n - 1), At(cfg, events, n);
      if id in s.submitted && t.submitted[id] == s.submitted[id] {
        i, req := WasSubmitted(cfg, events, n - 1, id);
      } else {
        SubmittedStep(cfg, s, events[n - 1], id);
        i, req := n - 1, events[n - 1].req;
      }
    }
  }

  /** A delivered task was accepted earlier in the run, and what the worker gets is what that request asked
      for, with the defaults of the settings for an empty toolkit, adapter or backend. */
  lemma DeliveredAsRequested(cfg: Settings, events: seq<Event>, d: nat) returns (i: nat, req: Request)
    requires d < |After(cfg, events).delivered|
    ensures i < |events| && AcceptedAt(cfg, events, i, req)
    ensures After(cfg, events).delivered[d].id == req.id && Requested(cfg, After(cfg, events).delivered[d].payload, req)
  {
    AfterInv(cfg, events);
    assert events[..|events|] == events;
    i, req := WasSubmitted(cfg, events, |events|, After(cfg, events).delivered[d].id);
  }

  /** A task in a priority class is there because its request named that class, or none and it is normal. */
  lemma QueuedAsRequested(cfg: Settings, events: seq<Event>, id: TaskId) returns (i: nat, req: Request)
    requires id in After(cfg, events).place && After(cfg, events).place[id].InQueue?
    ensures i < |events| && AcceptedAt(cfg, events, i, req) && req.id == id
    ensures match After(cfg, events).place[id].q
            case Own(w) => req.payload.assignedTo == w || id in ItemIds(After(cfg, events).requeued)
            case Class(p) => req.priority == Named(p) || (p == Normal && !req.priority.Named?)
  {
    AfterInv(cfg, events);
    var s := After(cfg, events);
    assert events[..|events|] == events;
    i, req := WasSubmitted(cfg, events, |events|, id);
    assert IdOk(s, id) && OwnerOk(s, id);
  }

  // ---- what a pass requeues ----

  lemma {:induction false} DroppedExactly(cfg: Settings, tasks: map<TaskId, TaskHash>, w: WorkerName, now: real,
                                          line: seq<TaskId>, budget: nat, i: nat)
    requires Proper(tasks, line) && Distinct(line) && i < |line|
    ensures line[i] in ItemIds(ScanLine(cfg, tasks, w, now, line, budget).dropped)
            <==> i < budget && !Judge(cfg, tasks[line[i]], w, now).KeepIt?
    decreases budget
  {
    if budget > 0 {
      var rest := ScanLine(cfg, tasks, w, now, line[1..], budget - 1);
      assert Proper(tasks, line[1..]) && Distinct(line[1..]);
      ScannedOnly(cfg, tasks, w, now, line[1..], budget - 1);
      assert line[0] !in line[1..];
      var h := tasks[line[0]];
      var item := Item(line[0], h, w, now, ReasonOf(Judge(cfg, h, w, now)));
      assert ItemIds([item] + rest.dropped) == [item.id] + ItemIds(rest.dropped);
      if i > 0 { DroppedExactly(cfg, tasks, w, now, line[1..], budget - 1, i - 1); }
    }
  }

  lemma {:induction false} ScannedOnly(cfg: Settings, tasks: map<TaskId, TaskHash>, w: WorkerName, now: real,
                                       line: seq<TaskId>, budget: nat)
    requires Proper(tasks, line)
    ensures forall x :: x in ItemIds(ScanLine(cfg, tasks, w, now, line, budget).dropped) ==> x in line
    decreases budget
  {
    if budget > 0 && line != [] {
      var rest := ScanLine(cfg, tasks, w, now, line[1..], budget - 1);
      ScannedOnly(cfg, tasks, w, now, line[1..], budget - 1);
      var h := tasks[line[0]];
      var item := Item(line[0], h, w, now, ReasonOf(Judge(cfg, h, w, now)));
      assert ItemIds([item] + rest.dropped) == [item.id] + ItemIds(rest.dropped);
      assert line == [line[0]] + line[1..];
    }
  }

  /** Each requeued task is noted with the hash it was judged by, this worker, the time of the pass, and the
      reason: that it names another worker or none, or else that it has waited too long. */
  lemma {:induction false} DroppedItems(cfg: Settings, tasks: map<TaskId, TaskHash>, w: WorkerName, now: real,
                                        line: seq<TaskId>, budget: nat)
    ensures forall item :: item in ScanLine(cfg, tasks, w, now, line, budget).dropped ==>
              && item.id in tasks && item.snapshot == tasks[item.id] && item.w == w && item.now == now
              && (Judge(cfg, item.snapshot, w, now) == Stale ==> item.reason == "stale_assignment")
              && (Judge(cfg, item.snapshot, w, now) == TimedOut ==> item.reason == "queue_wait_timeout")
              && Judge(cfg, item.snapshot, w, now) != KeepIt
    decreases budget
  {
    if budget > 0 && line != [] { DroppedItems(cfg, tasks, w, now, line[1..], budget - 1); }
  }

  /** In any reachable state, a pass over a worker's queue requeues exactly those of its first tasks, as
      many as the scan limit allows, that are pending, ask for a positive wait, and have waited since
      their assignment for longer than that, cut to a positive task timeout. */
  lemma PassRequeuesExactly(cfg: Settings, events: seq<Event>, w: WorkerName, now: real, i: nat, wait: int, timeout: int)
    requires "" !in OldestFirst(After(cfg, events).redis, Own(w)) && i < |OldestFirst(After(cfg, events).redis, Own(w))|
    requires var r := After(cfg, events).redis;
      var h := HashOf(r, OldestFirst(r, Own(w))[i]);
      h.data.Some? ==> AsksFor(cfg, h.data.value, wait, timeout)
    ensures var r := After(cfg, events).redis;
      var line := OldestFirst(r, Own(w));
      var h := HashOf(r, line[i]);
      && h.data.Some? && h.assignedAt.Some?
      && (line[i] in ItemIds(ScanLine(cfg, r.tasks, w, now, line, ScanBudget(cfg)).dropped) <==>
            && (i < cfg.scanLimit || i == 0) && (h.status.Some? ==> h.status.value.Pending?)
            && wait > 0 && now - h.assignedAt.value > Cut(wait, timeout) as real)
  {
    AfterInv(cfg, events);
    var s := After(cfg, events);
    var line := OldestFirst(s.redis, Own(w));
    OwnLine(cfg, s, w);
    assert OwnedBy(s, line[i], w);
    DroppedExactly(cfg, s.redis.tasks, w, now, line, ScanBudget(cfg), i);
    TimedOutMeans(cfg, s.redis.tasks[line[i]], w, now);
  }

  /** The tasks in a worker's queue are distinct and belong to that worker. */
  lemma OwnLine(cfg: Settings, s: State, w: WorkerName)
    requires Inv(cfg, s) && "" !in OldestFirst(s.redis, Own(w))
    ensures Distinct(OldestFirst(s.redis, Own(w))) && Proper(s.redis.tasks, OldestFirst(s.redis, Own(w)))
    ensures forall x :: x in OldestFirst(s.redis, Own(w)) ==> OwnedBy(s, x, w)
  {
    assert ContainerOk(s, InQueue(Own(w)));
    ReversedDistinct(ListOf(s.redis, Own(w)));
    forall x | x in OldestFirst(s.redis, Own(w)) ensures OwnedBy(s, x, w) {
      assert x in Contents(s, InQueue(Own(w)));
      assert IdOk(s, x);
    }
    var line := OldestFirst(s.redis, Own(w));
    forall i | 0 <= i < |line| ensures line[i] != "" && line[i] in s.redis.tasks {
      assert line[i] in line && OwnedBy(s, line[i], w);
    }
  }

  lemma {:induction false} ReversedDistinct<T>(l: seq<T>)
    requires Distinct(l)
    ensures Distinct(Reversed(l)) && forall x :: x in Reversed(l) <==> x in l
  {
    if l != [] {
      ReversedDistinct(l[1..]);
      assert l == [l[0]] + l[1..] && l[0] !in l[1..];
      DistinctAppend(Reversed(l[1..]), l[0]);
    }
  }
}
