/**
 `TaskManager` as an object that updates Redis and its own table of active tasks, each method
 run without interruption. QueueProtocol interleaves the same Redis calls.
 */
module QueueObjects {
  import opened Common
  import opened QueueSpec
  import opened QueueProtocol
  import opened QueueSafety
  import opened QueuePass

  // ---- delivery, as a function ----

  /** The first queue of `get_next_task`, from the k-th on, that has a task. */
  function FirstFilled(r: Redis, w: WorkerName, k: nat): (first: nat)
    requires k <= 4
    ensures k <= first <= 4
    ensures forall i :: k <= i < first ==> ListOf(r, Choice(w, i)) == []
    ensures first < 4 ==> ListOf(r, Choice(w, first)) != []
    decreases 4 - k
  {
    if k == 4 || ListOf(r, Choice(w, k)) != [] then k else FirstFilled(r, w, k + 1)
  }

  function GetNext(r: Redis, w: WorkerName, now: real): (Redis, Option<Payload>) {
    var k := FirstFilled(r, w, 0);
    if k == 4 then (r, None)
    else
      var (popped, id) := RPop(r, Choice(w, k));
      var h := HashOf(popped, id.value);
      if h.data.None? then (popped, None) else (MarkProcessing(popped, id.value, now), h.data)
  }

  // ---- the monitor, as functions of the line (oldest first) ----

  datatype Scan = Scan(kept: seq<TaskId>, dropped: seq<Item>, unseen: seq<TaskId>)

  /** One scan: ids without a hash vanish, and the empty id vanishes and ends the scan. */
  function ScanLine(cfg: Settings, tasks: map<TaskId, TaskHash>, w: WorkerName, now: real, line: seq<TaskId>,
                    budget: nat): Scan
    decreases budget
  {
    if budget == 0 || line == [] then Scan([], [], line)
    else if line[0] == "" then Scan([], [], line[1..])
    else
      var rest := ScanLine(cfg, tasks, w, now, line[1..], budget - 1);
      if line[0] !in tasks then rest
      else
        var h := tasks[line[0]];
        var v := Judge(cfg, h, w, now);
        if v.KeepIt? then rest.(kept := [line[0]] + rest.kept)
        else rest.(dropped := [Item(line[0], h, w, now, ReasonOf(v))] + rest.dropped)
  }

  function Requeue(r: Redis, item: Item, now: real): Redis {
    LPush(Unassign(r, item.id, item.snapshot, item.reason, now), RequeueClass(item.snapshot), item.id)
  }

  function RequeueAll(r: Redis, items: seq<Item>, now: real): Redis
    decreases |items|
  {
    if items == [] then r else RequeueAll(Requeue(r, items[0], now), items[1..], now)
  }

  function PassOver(cfg: Settings, r: Redis, w: WorkerName, now: real): Redis {
    var scan := ScanLine(cfg, r.tasks, w, now, OldestFirst(r, Own(w)), ScanBudget(cfg));
    if OldestFirst(r, Own(w)) == [] then r
    else RequeueAll(r.(lists := r.lists[Own(w) := Reversed(scan.kept + scan.unseen)]), scan.dropped, now)
  }

  class TaskManager {
    const cfg: Settings
    var lists: map<QueueKey, seq<TaskId>>
    var tasks: map<TaskId, TaskHash>
    var results: map<TaskId, ResultHash>
    var activeTasks: map<TaskId, Status>

    function View(): Redis
      reads this
    {
      Redis(lists, tasks, results)
    }

    constructor (cfg: Settings)
      ensures View() == Redis(map[], map[], map[]) && activeTasks == map[] && this.cfg == cfg
    {
      this.cfg := cfg;
      lists, tasks, results, activeTasks := map[], map[], map[], map[];
    }

    method Push(q: QueueKey, id: TaskId)
      modifies this
      ensures View() == LPush(old(View()), q, id) && activeTasks == old(activeTasks)
    {
      lists := lists[q := [id] + if q in lists then lists[q] else []];
    }

    method Pop(q: QueueKey) returns (id: Option<TaskId>)
      modifies this
      ensures (View(), id) == RPop(old(View()), q) && activeTasks == old(activeTasks)
    {
      var l := if q in lists then lists[q] else [];
      if l == [] { return None; }
      id := Some(l[|l| - 1]);
      lists := lists[q := l[..|l| - 1]];
    }

    method SubmitTask(req: Request, now: real) returns (status: Submitted)
      modifies this
      ensures status == SubmitStatus(cfg, old(View()), req)
      ensures View() == Submit(cfg, old(View()), req, now)
      ensures activeTasks == if status.Accepted? then old(activeTasks)[req.id := Pending] else old(activeTasks)
    {
      var p := req.payload;
      if p.toolkit == "" { p := p.(toolkit := cfg.defaultToolkit); }
      if p.adapter == "" { p := p.(adapter := cfg.defaultAdapter); }
      if p.backend == "" { p := p.(backend := cfg.defaultBackend); }
      if p.toolkit !in cfg.toolkits || p.adapter !in cfg.adapters { return Rejected; }
      if req.priority.Invalid? { return Rejected; }
      var priority := if req.priority.Named? then req.priority.p else Normal;
      if req.id in tasks { return Existing; }
      var assignedAt := if p.assignedTo != "" then Some(now) else None;
      tasks := tasks[req.id := TaskHash(Some(p), Some(Pending), Some(priority), Some(now), None, p.assignedTo, assignedAt)];
      if p.assignedTo != "" {
        Push(Own(p.assignedTo), req.id);
      } else {
        Push(Class(priority), req.id);
      }
      activeTasks := activeTasks[req.id := Pending];
      return Accepted;
    }

    method GetNextTask(w: WorkerName, now: real) returns (task: Option<Payload>)
      modifies this
      ensures (View(), task) == GetNext(old(View()), w, now) && activeTasks == old(activeTasks)
      ensures Served(old(View()), View(), task, w, now)
    {
      ServedByPriority(View(), w, now);
      var id := Pop(Own(w));
      var order := [High, Normal, Low];
      var k := 0;
      while k < 3 && id.None?
        invariant 0 <= k <= 3
        invariant activeTasks == old(activeTasks)
        invariant id.None? ==> View() == old(View()) && FirstFilled(View(), w, 0) == FirstFilled(View(), w, k + 1)
        invariant id.Some? ==>
                    var first := FirstFilled(old(View()), w, 0);
                    first < 4 && (View(), id) == RPop(old(View()), Choice(w, first))
      {
        assert order[k] == Choice(w, k + 1).p;
        id := Pop(Class(order[k]));
        k := k + 1;
      }
      if id.None? { return None; }
      if id.value !in tasks { return None; }
      var h := tasks[id.value];
      if h.data.None? { return None; }
      tasks := tasks[id.value := h.(status := Some(Processing), startedAt := Some(now))];
      return h.data;
    }

    method CompleteTask(id: TaskId, out: Outcome)
      modifies this
      ensures View() == MarkStatus(StoreResult(old(View()), id, out), id, Completed)
      ensures activeTasks == if id in old(activeTasks) then old(activeTasks)[id := Completed] else old(activeTasks)
    {
      var before := if id in results then results[id] else ResultHash(None, None);
      results := results[id := before.(result := Some(out))];
      var h := if id in tasks then tasks[id] else EMPTY_HASH;
      tasks := tasks[id := h.(status := Some(Completed))];
      if id in activeTasks { activeTasks := activeTasks[id := Completed]; }
    }

    method FailTask(id: TaskId, message: string)
      modifies this
      ensures View() == MarkStatus(StoreError(old(View()), id, message), id, Failed)
      ensures activeTasks == if id in old(activeTasks) then old(activeTasks)[id := Failed] else old(activeTasks)
    {
      var before := if id in results then results[id] else ResultHash(None, None);
      results := results[id := before.(error := Some(message))];
      var h := if id in tasks then tasks[id] else EMPTY_HASH;
      tasks := tasks[id := h.(status := Some(Failed))];
      if id in activeTasks { activeTasks := activeTasks[id := Failed]; }
    }

    /** Cancelling only records a failure: no queue is touched. */
    method CancelTask(id: TaskId) returns (cancelled: bool)
      modifies this
      ensures cancelled <==> id in old(tasks) && old(tasks)[id].status !in {Some(Completed), Some(Failed)}
      ensures lists == old(lists)
      ensures !cancelled ==> View() == old(View())
      ensures cancelled ==> View() == MarkStatus(StoreError(old(View()), id, "Task cancelled"), id, Failed)
    {
      if id !in tasks { return false; }
      if tasks[id].status in {Some(Completed), Some(Failed)} { return false; }
      FailTask(id, "Task cancelled");
      return true;
    }

    method RequeueTask(item: Item, now: real)
      modifies this
      ensures View() == Requeue(old(View()), item, now) && activeTasks == old(activeTasks)
    {
      var p := if item.snapshot.data.Some? then item.snapshot.data.value else EMPTY_PAYLOAD;
      p := p.(assignedTo := "", timeoutReason := item.reason, timeoutAt := Some(now));
      var h := if item.id in tasks then tasks[item.id] else EMPTY_HASH;
      tasks := tasks[item.id := h.(data := Some(p), assignedTo := "", assignedAt := None)];
      Push(RequeueClass(item.snapshot), item.id);
    }

    /** The scan of one worker's queue: ids are popped and judged up to the limit. */
    method ScanQueue(w: WorkerName, now: real) returns (keep: seq<TaskId>, requeue: seq<Item>)
      modifies this`lists
      ensures OnlyPopped(old(lists), lists, w)
      ensures ScanLine(cfg, tasks, w, now, old(OldestFirst(View(), Own(w))), ScanBudget(cfg))
              == Scan(keep, requeue, OldestFirst(View(), Own(w)))
    {
      keep, requeue := [], [];
      var budget := if cfg.scanLimit < 1 then 1 else cfg.scanLimit;
      var more := true;
      ghost var line := OldestFirst(View(), Own(w));
      ghost var scan := ScanLine(cfg, tasks, w, now, line, budget);
      OntoAll(scan);
      while budget > 0 && more
        invariant 0 <= budget
        invariant line == OldestFirst(View(), Own(w)) && OnlyPopped(old(lists), lists, w)
        invariant ScanFrom(cfg, tasks, w, now, line, budget, more, keep, requeue) == scan
      {
        ScanTurn(cfg, tasks, w, now, line, budget, keep, requeue);
        ghost var before := lists;
        more, keep, requeue := ScanNext(w, now, keep, requeue);
        OnlyPoppedTwice(old(lists), before, lists, w);
        line := Later(line);
        budget := budget - 1;
      }
      OntoNothing(keep, requeue, line);
    }

    /** One turn of the scan's loop; there is no more when the queue was empty or gave the empty id. */
    method ScanNext(w: WorkerName, now: real, keep: seq<TaskId>, requeue: seq<Item>)
      returns (more: bool, kept: seq<TaskId>, requeued: seq<Item>)
      modifies this`lists
      ensures OnlyPopped(old(lists), lists, w)
      ensures var line := old(OldestFirst(View(), Own(w)));
        && OldestFirst(View(), Own(w)) == Later(line)
        && (more <==> line != [] && line[0] != "")
        && (kept, requeued) == if more then Triaged(cfg, tasks, w, now, line[0], keep, requeue) else (keep, requeue)
    {
      if ListOf(View(), Own(w)) == [] { return false, keep, requeue; }
      var id := PopOwn(w);
      if id == "" { return false, keep, requeue; }
      more := true;
      kept, requeued := Triage(w, now, id, keep, requeue);
    }

    /** Into which hand a popped id goes, if any. */
    method Triage(w: WorkerName, now: real, id: TaskId, keep: seq<TaskId>, requeue: seq<Item>)
      returns (kept: seq<TaskId>, requeued: seq<Item>)
      ensures (kept, requeued) == Triaged(cfg, tasks, w, now, id, keep, requeue)
    {
      kept, requeued := keep, requeue;
      if id in tasks {
        var h := tasks[id];
        var v := Judge(cfg, h, w, now);
        if v.KeepIt? {
          kept := kept + [id];
        } else {
          requeued := requeued + [Item(id, h, w, now, ReasonOf(v))];
        }
      }
    }

    method PopOwn(w: WorkerName) returns (id: TaskId)
      requires ListOf(View(), Own(w)) != []
      modifies this`lists
      ensures OnlyPopped(old(lists), lists, w)
      ensures (View(), Some(id)) == RPop(old(View()), Own(w))
      ensures old(OldestFirst(View(), Own(w))) == [id] + OldestFirst(View(), Own(w))
    {
      PoppedOldest(View(), Own(w));
      var l := lists[Own(w)];
      id := l[|l| - 1];
      lists := lists[Own(w) := l[..|l| - 1]];
    }

    /** The kept ids go back to the popping end, the last one first. */
    method PutBack(w: WorkerName, keep: seq<TaskId>)
      modifies this`lists
      ensures OnlyOwn(old(lists), lists, w)
      ensures OldestFirst(View(), Own(w)) == keep + old(OldestFirst(View(), Own(w)))
    {
      var n := |keep|;
      ghost var behind := OldestFirst(View(), Own(w));
      ghost var line := behind;
      assert keep[n..] + behind == behind;
      while n > 0
        invariant 0 <= n <= |keep|
        invariant OnlyOwn(old(lists), lists, w)
        invariant line == OldestFirst(View(), Own(w))
        invariant line == keep[n..] + behind
      {
        n := n - 1;
        ghost var before := lists;
        PushBack(w, keep[n]);
        OnlyOwnAgain(old(lists), before, lists, w);
        OneMore(keep, n, behind);
        line := [keep[n]] + line;
      }
      assert keep[0..] == keep;
    }

    method PushBack(w: WorkerName, id: TaskId)
      modifies this`lists
      ensures Own(w) in lists && lists == old(lists)[Own(w) := lists[Own(w)]] && lists[Own(w)] != []
      ensures OldestFirst(View(), Own(w)) == [id] + old(OldestFirst(View(), Own(w)))
    {
      ReversedSnoc(ListOf(View(), Own(w)), id);
      lists := lists[Own(w) := (if Own(w) in lists then lists[Own(w)] else []) + [id]];
    }

    method RequeueEach(requeue: seq<Item>, now: real)
      modifies this
      ensures View() == RequeueAll(old(View()), requeue, now) && activeTasks == old(activeTasks)
    {
      var i := 0;
      assert requeue[0..] == requeue;
      while i < |requeue|
        invariant 0 <= i <= |requeue|
        invariant activeTasks == old(activeTasks)
        invariant RequeueAll(View(), requeue[i..], now) == RequeueAll(old(View()), requeue, now)
      {
        assert requeue[i..][0] == requeue[i] && requeue[i..][1..] == requeue[i + 1..];
        RequeueTask(requeue[i], now);
        i := i + 1;
      }
    }

    /** One worker's turn in the queue-wait monitor. */
    method MonitorPass(w: WorkerName, now: real)
      modifies this
      ensures View() == PassOver(cfg, old(View()), w, now) && activeTasks == old(activeTasks)
    {
      var keep, requeue := ScanQueue(w, now);
      PutBack(w, keep);
      OwnListIs(old(lists), lists, w, old(OldestFirst(View(), Own(w))), OldestFirst(View(), Own(w)));
      RequeueEach(requeue, now);
    }
  }

  /** At most the worker's own list differs, and an absent list only becomes present with content. */
  predicate OnlyPopped(before: map<QueueKey, seq<TaskId>>, now: map<QueueKey, seq<TaskId>>, w: WorkerName) {
    if Own(w) in now then Own(w) in before && now == before[Own(w) := now[Own(w)]] else now == before
  }

  predicate OnlyOwn(before: map<QueueKey, seq<TaskId>>, now: map<QueueKey, seq<TaskId>>, w: WorkerName) {
    if Own(w) in now then now == before[Own(w) := now[Own(w)]] && (Own(w) !in before ==> now[Own(w)] != [])
    else now == before
  }

  function Triaged(cfg: Settings, tasks: map<TaskId, TaskHash>, w: WorkerName, now: real, id: TaskId,
                   keep: seq<TaskId>, requeue: seq<Item>): (seq<TaskId>, seq<Item>)
  {
    if id !in tasks then (keep, requeue)
    else
      var v := Judge(cfg, tasks[id], w, now);
      if v.KeepIt? then (keep + [id], requeue)
      else (keep, requeue + [Item(id, tasks[id], w, now, ReasonOf(v))])
  }

  lemma OnlyPoppedTwice(a: map<QueueKey, seq<TaskId>>, b: map<QueueKey, seq<TaskId>>, c: map<QueueKey, seq<TaskId>>,
                        w: WorkerName)
    requires OnlyPopped(a, b, w) && OnlyPopped(b, c, w)
    ensures OnlyPopped(a, c, w)
  {
  }

  lemma OneMore(keep: seq<TaskId>, n: nat, behind: seq<TaskId>)
    requires n < |keep|
    ensures keep[n..] + behind == [keep[n]] + (keep[n + 1..] + behind)
  {
  }

  lemma OnlyOwnAgain(a: map<QueueKey, seq<TaskId>>, b: map<QueueKey, seq<TaskId>>, c: map<QueueKey, seq<TaskId>>,
                     w: WorkerName)
    requires OnlyOwn(a, b, w) && Own(w) in c && c == b[Own(w) := c[Own(w)]] && c[Own(w)] != []
    ensures OnlyOwn(a, c, w)
  {
  }

  /** Judging the oldest id moves it into one of the hands, or into none, or ends the scan. */
  lemma ScanStep(cfg: Settings, tasks: map<TaskId, TaskHash>, w: WorkerName, now: real, line: seq<TaskId>,
                 budget: nat, keep: seq<TaskId>, requeue: seq<Item>)
    requires budget > 0
    ensures Onto(keep, requeue, ScanLine(cfg, tasks, w, now, line, budget)) ==
            if line == [] || line[0] == "" then Onto(keep, requeue, Scan([], [], if line == [] then [] else line[1..]))
            else
              var (kept, requeued) := Triaged(cfg, tasks, w, now, line[0], keep, requeue);
              Onto(kept, requeued, ScanLine(cfg, tasks, w, now, line[1..], budget - 1))
  {
    if line != [] && line[0] != "" && line[0] in tasks {
      var rest := ScanLine(cfg, tasks, w, now, line[1..], budget - 1);
      var h := tasks[line[0]];
      Associates(keep, [line[0]], rest.kept);
      Associates(requeue, [Item(line[0], h, w, now, ReasonOf(Judge(cfg, h, w, now)))], rest.dropped);
    }
  }

  function Later(line: seq<TaskId>): seq<TaskId> { if line == [] then [] else line[1..] }

  /** The hands at the end of a scan that has this much in them, with `line` still to be looked at. */
  function ScanFrom(cfg: Settings, tasks: map<TaskId, TaskHash>, w: WorkerName, now: real, line: seq<TaskId>,
                    budget: nat, more: bool, keep: seq<TaskId>, requeue: seq<Item>): Scan {
    Onto(keep, requeue, if more then ScanLine(cfg, tasks, w, now, line, budget) else Scan([], [], line))
  }

  lemma ScanTurn(cfg: Settings, tasks: map<TaskId, TaskHash>, w: WorkerName, now: real, line: seq<TaskId>,
                 budget: nat, keep: seq<TaskId>, requeue: seq<Item>)
    requires budget > 0
    ensures var more := line != [] && line[0] != "";
      var (kept, requeued) := if more then Triaged(cfg, tasks, w, now, line[0], keep, requeue) else (keep, requeue);
      ScanFrom(cfg, tasks, w, now, Later(line), budget - 1, more, kept, requeued)
      == ScanFrom(cfg, tasks, w, now, line, budget, true, keep, requeue)
  {
    ScanStep(cfg, tasks, w, now, line, budget, keep, requeue);
  }

  lemma OntoAll(scan: Scan)
    ensures Onto([], [], scan) == scan
  {
  }

  lemma {:induction false} ReversedTwice<T>(l: seq<T>)
    ensures Reversed(Reversed(l)) == l
  {
    if l != [] {
      ReversedSnoc(Reversed(l[1..]), l[0]);
      ReversedTwice(l[1..]);
    }
  }

  lemma OwnListIs(before: map<QueueKey, seq<TaskId>>, now: map<QueueKey, seq<TaskId>>, w: WorkerName,
                  line: seq<TaskId>, left: seq<TaskId>)
    requires OnlyOwn(before, now, w)
    requires line == Reversed(if Own(w) in before then before[Own(w)] else [])
    requires left == Reversed(if Own(w) in now then now[Own(w)] else [])
    ensures line == [] && left == [] ==> now == before
    ensures line != [] ==> now == before[Own(w) := Reversed(left)]
  {
    if Own(w) in now { ReversedTwice(now[Own(w)]); }
  }

  lemma OntoNothing(keep: seq<TaskId>, requeue: seq<Item>, unseen: seq<TaskId>)
    ensures Onto(keep, requeue, Scan([], [], unseen)) == Scan(keep, requeue, unseen)
  {
  }

  /** What is already in hand, in front of what the rest of the scan yields. */
  function Onto(keep: seq<TaskId>, requeue: seq<Item>, scan: Scan): Scan {
    Scan(keep + scan.kept, requeue + scan.dropped, scan.unseen)
  }

  // ---- what the operations promise ----

  /** t is r after the oldest id of q was taken and its hash, if it has data, marked processing. */
  ghost predicate TakenFrom(r: Redis, t: Redis, task: Option<Payload>, q: QueueKey, now: real) {
    var line := OldestFirst(r, q);
    && line != [] && OldestFirst(t, q) == line[1..] && (forall p :: p != q ==> ListOf(t, p) == ListOf(r, p))
    && task == (if line[0] in r.tasks then r.tasks[line[0]].data else None)
    && t.tasks == (if task.None? then r.tasks
                   else r.tasks[line[0] := r.tasks[line[0]].(status := Some(Processing), startedAt := Some(now))])
    && t.results == r.results
  }

  /** The worker's own queue comes first, then the high, the normal and the low class; nothing is handed
      out, and nothing changes, only if all four are empty. */
  ghost predicate Served(r: Redis, t: Redis, task: Option<Payload>, w: WorkerName, now: real) {
    if ListOf(r, Own(w)) != [] then TakenFrom(r, t, task, Own(w), now)
    else if ListOf(r, Class(High)) != [] then TakenFrom(r, t, task, Class(High), now)
    else if ListOf(r, Class(Normal)) != [] then TakenFrom(r, t, task, Class(Normal), now)
    else if ListOf(r, Class(Low)) != [] then TakenFrom(r, t, task, Class(Low), now)
    else t == r && task == None
  }

  lemma ServedByPriority(r: Redis, w: WorkerName, now: real)
    ensures Served(r, GetNext(r, w, now).0, GetNext(r, w, now).1, w, now)
  {
    var k := FirstFilled(r, w, 0);
    assert forall i :: 0 <= i < k ==> ListOf(r, Choice(w, i)) == [];
    if k < 4 { TakenFromFirst(r, w, now, k); }
  }

  lemma TakenFromFirst(r: Redis, w: WorkerName, now: real, k: nat)
    requires k == FirstFilled(r, w, 0) && k < 4
    ensures TakenFrom(r, GetNext(r, w, now).0, GetNext(r, w, now).1, Choice(w, k), now)
  {
    PoppedOldest(r, Choice(w, k));
  }

  /** A worker is served from its own queue, then by priority; the oldest task of the first
      non-empty queue leaves it, and every other queue is untouched. */
  lemma ServedInOrder(r: Redis, w: WorkerName, now: real)
    ensures var (t, task) := GetNext(r, w, now);
      var k := FirstFilled(r, w, 0);
      && (forall i :: 0 <= i < k ==> ListOf(r, Choice(w, i)) == [])
      && (k == 4 ==> t == r && task.None?)
      && (k < 4 ==>
            && OldestFirst(r, Choice(w, k)) == [OldestFirst(r, Choice(w, k))[0]] + OldestFirst(t, Choice(w, k))
            && (forall q :: q != Choice(w, k) ==> ListOf(t, q) == ListOf(r, q))
            && task == HashOf(r, OldestFirst(r, Choice(w, k))[0]).data
            && (task.Some? ==> HashOf(t, OldestFirst(r, Choice(w, k))[0]).status == Some(Processing)))
  {
    var k := FirstFilled(r, w, 0);
    if k < 4 { PoppedOldest(r, Choice(w, k)); }
  }

  // ---- the monitor's pass ----

  function Least(a: nat, b: nat): nat { if a < b then a else b }

  /** The scan judged the first ids of the line, up to its budget, and left the rest unseen. */
  ghost predicate Covers(scan: Scan, line: seq<TaskId>, budget: nat) {
    var k := Least(budget, |line|);
    scan.unseen == line[k..] && SplitAt(line, k, scan.kept, ItemIds(scan.dropped), scan.kept + scan.unseen)
  }

  lemma CoversNothing(line: seq<TaskId>, budget: nat)
    requires budget == 0 || line == []
    ensures Covers(Scan([], [], line), line, budget)
  {
    SplitNothing(line);
    assert [] + line == line && line[0..] == line && ItemIds([]) == [];
  }

  lemma CoversKept(x: TaskId, scan: Scan, line: seq<TaskId>, budget: nat)
    requires Covers(scan, line, budget)
    ensures Covers(Scan([x] + scan.kept, scan.dropped, scan.unseen), [x] + line, budget + 1)
  {
    var k := Least(budget, |line|);
    SplitKeep([x], line, k, scan.kept, ItemIds(scan.dropped), scan.kept + scan.unseen);
    Associates([x], scan.kept, scan.unseen);
    assert ([x] + line)[k + 1..] == line[k..];
  }

  lemma CoversDropped(item: Item, scan: Scan, line: seq<TaskId>, budget: nat)
    requires Covers(scan, line, budget)
    ensures Covers(Scan(scan.kept, [item] + scan.dropped, scan.unseen), [item.id] + line, budget + 1)
  {
    var k := Least(budget, |line|);
    assert ItemIds([item] + scan.dropped) == [item.id] + ItemIds(scan.dropped);
    SplitDrop(item.id, line, k, scan.kept, ItemIds(scan.dropped), scan.kept + scan.unseen);
    assert ([item.id] + line)[k + 1..] == line[k..];
  }

  predicate Proper(tasks: map<TaskId, TaskHash>, line: seq<TaskId>) {
    forall i :: 0 <= i < |line| ==> line[i] != "" && line[i] in tasks
  }

  lemma {:induction false} ScanSplits(cfg: Settings, tasks: map<TaskId, TaskHash>, w: WorkerName, now: real,
                                      line: seq<TaskId>, budget: nat)
    requires Proper(tasks, line)
    ensures Covers(ScanLine(cfg, tasks, w, now, line, budget), line, budget)
    decreases budget
  {
    if budget == 0 || line == [] {
      CoversNothing(line, budget);
    } else {
      ScanSplits(cfg, tasks, w, now, line[1..], budget - 1);
      ScanOne(cfg, tasks, w, now, line[0], line[1..], budget - 1);
      assert line == [line[0]] + line[1..];
    }
  }

  lemma ScanOne(cfg: Settings, tasks: map<TaskId, TaskHash>, w: WorkerName, now: real,
                x: TaskId, line: seq<TaskId>, budget: nat)
    requires x != "" && x in tasks && Covers(ScanLine(cfg, tasks, w, now, line, budget), line, budget)
    ensures Covers(ScanLine(cfg, tasks, w, now, [x] + line, budget + 1), [x] + line, budget + 1)
  {
    var rest := ScanLine(cfg, tasks, w, now, line, budget);
    var v := Judge(cfg, tasks[x], w, now);
    assert ([x] + line)[1..] == line;
    if v.KeepIt? {
      CoversKept(x, rest, line, budget);
    } else {
      CoversDropped(Item(x, tasks[x], w, now, ReasonOf(v)), rest, line, budget);
    }
  }

  /** The ids of the items that belong to class p, in order. */
  function OfClass(items: seq<Item>, p: Priority): seq<TaskId> {
    if items == [] then []
    else (if RequeueClass(items[0].snapshot) == Class(p) then [items[0].id] else []) + OfClass(items[1..], p)
  }

  lemma {:induction false} RequeueOrder(r: Redis, items: seq<Item>, now: real, p: Priority)
    ensures OldestFirst(RequeueAll(r, items, now), Class(p)) == OldestFirst(r, Class(p)) + OfClass(items, p)
    ensures forall w :: ListOf(RequeueAll(r, items, now), Own(w)) == ListOf(r, Own(w))
    decreases |items|
  {
    if items == [] {
      assert OldestFirst(r, Class(p)) + [] == OldestFirst(r, Class(p));
    } else {
      var next := Requeue(r, items[0], now);
      ReversedCons(ListOf(r, Class(p)), items[0].id);
      RequeueOrder(next, items[1..], now, p);
      var own := if RequeueClass(items[0].snapshot) == Class(p) then [items[0].id] else [];
      assert OldestFirst(next, Class(p)) == OldestFirst(r, Class(p)) + own;
      Associates(OldestFirst(r, Class(p)), own, OfClass(items[1..], p));
    }
  }

  /** One uninterrupted pass judges the first ids of the line, up to the scan limit: it takes those it
      requeues out of them and puts each class's share behind what the class held, oldest first. The
      rest of them, then the part never looked at, stay in the worker's queue as they were. */
  lemma PassOverKeepsOrder(cfg: Settings, r: Redis, w: WorkerName, now: real, p: Priority)
    requires Proper(r.tasks, OldestFirst(r, Own(w)))
    ensures var line := OldestFirst(r, Own(w));
      var scan := ScanLine(cfg, r.tasks, w, now, line, ScanBudget(cfg));
      var k := Least(ScanBudget(cfg), |line|);
      var t := PassOver(cfg, r, w, now);
      && scan.unseen == line[k..]
      && SplitAt(line, k, scan.kept, ItemIds(scan.dropped), OldestFirst(t, Own(w)))
      && OldestFirst(t, Class(p)) == OldestFirst(r, Class(p)) + OfClass(scan.dropped, p)
      && (forall v :: v != w ==> ListOf(t, Own(v)) == ListOf(r, Own(v)))
  {
    var line := OldestFirst(r, Own(w));
    var scan := ScanLine(cfg, r.tasks, w, now, line, ScanBudget(cfg));
    ScanSplits(cfg, r.tasks, w, now, line, ScanBudget(cfg));
    if line == [] {
      assert OldestFirst(r, Class(p)) + [] == OldestFirst(r, Class(p));
      assert scan == Scan([], [], []);
    } else {
      var back := r.(lists := r.lists[Own(w) := Reversed(scan.kept + scan.unseen)]);
      ReversedTwice(scan.kept + scan.unseen);
      RequeueOrder(back, scan.dropped, now, p);
    }
  }

  /** The empty id is the one a pass can lose: it leaves the worker's queue and enters no other. */
  lemma EmptyIdVanishes(cfg: Settings, r: Redis, w: WorkerName, now: real)
    requires OldestFirst(r, Own(w)) != [] && OldestFirst(r, Own(w))[0] == ""
    ensures var t := PassOver(cfg, r, w, now);
      && OldestFirst(t, Own(w)) == OldestFirst(r, Own(w))[1..]
      && (forall q :: q != Own(w) ==> ListOf(t, q) == ListOf(r, q))
      && t.tasks == r.tasks
  {
    var line := OldestFirst(r, Own(w));
    assert [] + line[1..] == line[1..];
    ReversedTwice(line[1..]);
  }
}
