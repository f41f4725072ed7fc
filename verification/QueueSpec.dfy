/**
 The Redis lists and hashes behind kernelgym/server/task_manager.py, one function per Redis
 call or per stretch of code between two calls. A list is written as Redis keeps it: left
 push at index 0, right pop at the end, so the oldest element is the last one.
 */
module QueueSpec {
  import opened Common

  type TaskId = string
  type WorkerName = string

  datatype Priority = High | Normal | Low

  datatype QueueKey = Class(p: Priority) | Own(w: WorkerName)

  datatype Status = Pending | Processing | Completed | Failed

  /** A JSON value where a number of seconds is expected; Number holds what int() makes of it. */
  datatype Field = Missing | Null | Number(n: int) | Unparsable

  /** The task JSON. Empty strings stand for absent or empty text; `body` is everything else. */
  datatype Payload = Payload(
    toolkit: string, adapter: string, backend: string,
    timeout: Field, perTaskTimeout: Field, queueWaitTimeout: Field, queueTimeout: Field,
    assignedTo: WorkerName, timeoutReason: string, timeoutAt: Option<real>,
    body: int)

  datatype TaskHash = TaskHash(
    data: Option<Payload>, status: Option<Status>, priority: Option<Priority>,
    submittedAt: Option<real>, startedAt: Option<real>,
    assignedTo: WorkerName, assignedAt: Option<real>)

  const EMPTY_HASH := TaskHash(None, None, None, None, None, "", None)

  /** A stored result: the completed payload and the error fields live side by side. */
  datatype Outcome = Outcome(failedStatus: bool, value: int)

  datatype ResultHash = ResultHash(result: Option<Outcome>, error: Option<string>)

  datatype Redis = Redis(
    lists: map<QueueKey, seq<TaskId>>,
    tasks: map<TaskId, TaskHash>,
    results: map<TaskId, ResultHash>)

  datatype Settings = Settings(
    toolkits: set<string>, adapters: set<string>,
    defaultToolkit: string, defaultAdapter: string, defaultBackend: string,
    defaultTimeout: int, queueWaitTimeout: int, scanLimit: int)

  // ---- Redis calls ----

  function ListOf(r: Redis, q: QueueKey): seq<TaskId> {
    if q in r.lists then r.lists[q] else []
  }

  function LPush(r: Redis, q: QueueKey, id: TaskId): Redis {
    r.(lists := r.lists[q := [id] + ListOf(r, q)])
  }

  function RPush(r: Redis, q: QueueKey, id: TaskId): Redis {
    r.(lists := r.lists[q := ListOf(r, q) + [id]])
  }

  function RPop(r: Redis, q: QueueKey): (Redis, Option<TaskId>) {
    var l := ListOf(r, q);
    if l == [] then (r, None)
    else (r.(lists := r.lists[q := l[..|l| - 1]]), Some(l[|l| - 1]))
  }

  function HashOf(r: Redis, id: TaskId): TaskHash {
    if id in r.tasks then r.tasks[id] else EMPTY_HASH
  }

  function ResultOf(r: Redis, id: TaskId): ResultHash {
    if id in r.results then r.results[id] else ResultHash(None, None)
  }

  function SetHash(r: Redis, id: TaskId, h: TaskHash): Redis { r.(tasks := r.tasks[id := h]) }

  /** A queue read in the order it will be popped. */
  function OldestFirst(r: Redis, q: QueueKey): seq<TaskId> { Reversed(ListOf(r, q)) }

  // ---- timeouts ----

  function Seconds(f: Field, whenAbsent: int): int {
    match f case Number(n) => n case _ => whenAbsent
  }

  /** The first key's field, or the second's where the first is missing: an explicit null under the
      first key hides the second. */
  function FirstOf(a: Field, b: Field): Field { if a.Missing? then b else a }

  function TaskTimeout(cfg: Settings, p: Payload): (t: int)
    ensures t >= 0
  {
    var t := Seconds(FirstOf(p.timeout, p.perTaskTimeout), cfg.defaultTimeout);
    if t < 0 then 0 else t
  }

  /** How long a task may wait in a worker queue; 0 means for ever. */
  function WaitLimit(cfg: Settings, p: Payload): (t: int)
    ensures t >= 0
    ensures TaskTimeout(cfg, p) > 0 ==> t <= TaskTimeout(cfg, p)
  {
    var own := Seconds(FirstOf(p.queueWaitTimeout, p.queueTimeout), cfg.queueWaitTimeout);
    var timeout := TaskTimeout(cfg, p);
    var limit := if timeout > 0 && own > timeout then timeout else own;
    if limit < 0 then 0 else limit
  }

  /** How many ids one pass of the monitor takes from a worker queue at most. */
  function ScanBudget(cfg: Settings): (n: nat)
    ensures n >= 1
    ensures cfg.scanLimit >= 1 ==> n == cfg.scanLimit
    ensures cfg.scanLimit < 1 ==> n == 1
  {
    if cfg.scanLimit < 1 then 1 else cfg.scanLimit
  }

  // ---- submit ----

  datatype PriorityField = Unset | Named(p: Priority) | Invalid

  datatype Request = Request(id: TaskId, payload: Payload, priority: PriorityField)

  datatype Submitted = Accepted | Existing | Rejected

  function FillDefaults(cfg: Settings, p: Payload): Payload {
    p.(toolkit := if p.toolkit == "" then cfg.defaultToolkit else p.toolkit,
       adapter := if p.adapter == "" then cfg.defaultAdapter else p.adapter,
       backend := if p.backend == "" then cfg.defaultBackend else p.backend)
  }

  function ClassOf(req: Request): Priority { if req.priority.Named? then req.priority.p else Normal }

  function SubmitStatus(cfg: Settings, r: Redis, req: Request): Submitted {
    var p := FillDefaults(cfg, req.payload);
    if p.toolkit !in cfg.toolkits || p.adapter !in cfg.adapters || req.priority.Invalid? then Rejected
    else if req.id in r.tasks then Existing
    else Accepted
  }

  function TargetOf(req: Request): QueueKey {
    if req.payload.assignedTo != "" then Own(req.payload.assignedTo) else Class(ClassOf(req))
  }

  function NewHash(cfg: Settings, req: Request, now: real): TaskHash {
    var p := FillDefaults(cfg, req.payload);
    TaskHash(Some(p), Some(Pending), Some(ClassOf(req)), Some(now), None,
             p.assignedTo, if p.assignedTo != "" then Some(now) else None)
  }

  function Submit(cfg: Settings, r: Redis, req: Request, now: real): Redis {
    if SubmitStatus(cfg, r, req).Accepted? then
      LPush(SetHash(r, req.id, NewHash(cfg, req, now)), TargetOf(req), req.id)
    else r
  }

  // ---- delivery ----

  /** The queues `get_next_task` tries, in order. */
  function Choice(w: WorkerName, k: nat): QueueKey
    requires k < 4
  {
    if k == 0 then Own(w) else Class(if k == 1 then High else if k == 2 then Normal else Low)
  }

  function MarkProcessing(r: Redis, id: TaskId, now: real): Redis {
    SetHash(r, id, HashOf(r, id).(status := Some(Processing), startedAt := Some(now)))
  }

  // ---- the queue-wait monitor ----

  datatype Verdict = KeepIt | Stale | TimedOut

  /** What the monitor of worker w decides about a popped task, from its hash and the pass time. */
  function Judge(cfg: Settings, h: TaskHash, w: WorkerName, now: real): Verdict {
    var assignedTo := if h.data.Some? && h.data.value.assignedTo != "" then h.data.value.assignedTo else h.assignedTo;
    var since := if h.assignedAt.Some? then h.assignedAt else h.submittedAt;
    var p := if h.data.Some? then h.data.value else EMPTY_PAYLOAD;
    if assignedTo == "" || assignedTo != w then Stale
    else if h.status.Some? && !h.status.value.Pending? then KeepIt
    else if since.None? then KeepIt
    else if WaitLimit(cfg, p) <= 0 then KeepIt
    else if now - since.value > WaitLimit(cfg, p) as real then TimedOut
    else KeepIt
  }

  const EMPTY_PAYLOAD :=
    Payload("", "", "", Missing, Missing, Missing, Missing, "", "", None, 0)

  /** The hash write of `_requeue_task`, from the snapshot taken when the task was judged. */
  function Unassign(r: Redis, id: TaskId, snapshot: TaskHash, reason: string, now: real): Redis {
    var p := if snapshot.data.Some? then snapshot.data.value else EMPTY_PAYLOAD;
    SetHash(r, id, HashOf(r, id).(
      data := Some(p.(assignedTo := "", timeoutReason := reason, timeoutAt := Some(now))),
      assignedTo := "", assignedAt := None))
  }

  function RequeueClass(snapshot: TaskHash): QueueKey {
    Class(if snapshot.priority.Some? then snapshot.priority.value else Normal)
  }

  // ---- results ----

  function StoreResult(r: Redis, id: TaskId, out: Outcome): Redis {
    r.(results := r.results[id := ResultOf(r, id).(result := Some(out))])
  }

  function StoreError(r: Redis, id: TaskId, message: string): Redis {
    r.(results := r.results[id := ResultOf(r, id).(error := Some(message))])
  }

  function MarkStatus(r: Redis, id: TaskId, status: Status): Redis {
    SetHash(r, id, HashOf(r, id).(status := Some(status)))
  }

  datatype Answer = NoAnswer | Result(out: Outcome) | Error(message: string)

  function GetTaskResult(r: Redis, id: TaskId): Answer {
    if id !in r.results then NoAnswer
    else if r.results[id].result.Some? then Result(r.results[id].result.value)
    else if r.results[id].error.Some? then Error(r.results[id].error.value)
    else NoAnswer
  }

  function GetTaskStatus(r: Redis, id: TaskId): Option<Status> {
    if id in r.results then
      if r.results[id].result.Some? && !r.results[id].result.value.failedStatus then Some(Completed) else Some(Failed)
    else if id in r.tasks then
      if r.tasks[id].status.Some? then r.tasks[id].status else Some(Pending)
    else None
  }

  // ---- what the decisions mean ----

  /** The seconds a task asks for under two keys: the second key counts only where the first is missing,
      and what is not a number asks for the default. */
  predicate Asks(first: Field, second: Field, whenAbsent: int, n: int) {
    match first
    case Number(k) => n == k
    case Missing => n == if second.Number? then second.n else whenAbsent
    case Null => n == whenAbsent
    case Unparsable => n == whenAbsent
  }

  /** The wait and the timeout the task asks for. */
  predicate AsksFor(cfg: Settings, p: Payload, wait: int, timeout: int) {
    && Asks(p.queueWaitTimeout, p.queueTimeout, cfg.queueWaitTimeout, wait)
    && Asks(p.timeout, p.perTaskTimeout, cfg.defaultTimeout, timeout)
  }

  /** The wait, cut to a positive timeout. */
  function Cut(wait: int, timeout: int): int { if 0 < timeout < wait then timeout else wait }

  /** The two limits in terms of the task's own fields; each task asks for exactly one pair of numbers. */
  lemma LimitsMean(cfg: Settings, p: Payload) returns (wait: int, timeout: int)
    ensures AsksFor(cfg, p, wait, timeout)
    ensures forall x, y :: AsksFor(cfg, p, x, y) ==> x == wait && y == timeout
    ensures TaskTimeout(cfg, p) == if timeout < 0 then 0 else timeout
    ensures WaitLimit(cfg, p) == if wait <= 0 then 0 else Cut(wait, timeout)
  {
    wait := Seconds(FirstOf(p.queueWaitTimeout, p.queueTimeout), cfg.queueWaitTimeout);
    timeout := Seconds(FirstOf(p.timeout, p.perTaskTimeout), cfg.defaultTimeout);
  }

  /** A requeue for waiting happens exactly when the task is this worker's, pending, asks for a positive
      wait and has waited longer than that, cut to a positive timeout. */
  lemma TimedOutMeans(cfg: Settings, h: TaskHash, w: WorkerName, now: real)
    requires h.data.Some? && h.data.value.assignedTo == w == h.assignedTo && w != "" && h.assignedAt.Some?
    ensures Judge(cfg, h, w, now) != Stale
    ensures forall wait, timeout :: AsksFor(cfg, h.data.value, wait, timeout) ==>
              (Judge(cfg, h, w, now) == TimedOut <==>
                 && (h.status.Some? ==> h.status.value.Pending?)
                 && wait > 0 && now - h.assignedAt.value > Cut(wait, timeout) as real)
    ensures Judge(cfg, h, w, now) == TimedOut ==> WaitLimit(cfg, h.data.value) > 0
    ensures Judge(cfg, h, w, now) == TimedOut ==> now - h.assignedAt.value > WaitLimit(cfg, h.data.value) as real
    ensures TaskTimeout(cfg, h.data.value) > 0 ==>
              WaitLimit(cfg, h.data.value) <= TaskTimeout(cfg, h.data.value)
  {
    var wait, timeout := LimitsMean(cfg, h.data.value);
  }

  /** The decision on any hash at all: stale unless the task names worker w, first in its data, else beside
      it; otherwise requeued exactly when it is pending and has waited, since its assignment or else since
      its submission, for longer than the positive wait it asks for, cut to a positive timeout. */
  lemma JudgeMeans(cfg: Settings, h: TaskHash, w: WorkerName, now: real, wait: int, timeout: int)
    requires AsksFor(cfg, if h.data.Some? then h.data.value else EMPTY_PAYLOAD, wait, timeout)
    ensures Judge(cfg, h, w, now) == Stale <==>
            w == "" || w != if h.data.Some? && h.data.value.assignedTo != "" then h.data.value.assignedTo else h.assignedTo
    ensures Judge(cfg, h, w, now) != Stale ==>
              (Judge(cfg, h, w, now) == TimedOut <==>
                 && (h.status.Some? ==> h.status.value.Pending?) && wait > 0
                 && (h.assignedAt.Some? || h.submittedAt.Some?)
                 && now - (if h.assignedAt.Some? then h.assignedAt.value else h.submittedAt.value) > Cut(wait, timeout) as real)
  {
    var _, _ := LimitsMean(cfg, if h.data.Some? then h.data.value else EMPTY_PAYLOAD);
  }

  /** A requeued task belongs to no worker any more and says when it was taken from one, and why. */
  lemma UnassignMeans(r: Redis, id: TaskId, snapshot: TaskHash, reason: string, now: real)
    requires snapshot.data.Some?
    ensures var t := Unassign(r, id, snapshot, reason, now);
      && id in t.tasks && t.lists == r.lists && t.results == r.results
      && t.tasks[id].data == Some(snapshot.data.value.(assignedTo := "", timeoutReason := reason, timeoutAt := Some(now)))
      && t.tasks[id].assignedTo == "" && t.tasks[id].assignedAt == None
      && (id in r.tasks ==> && t.tasks[id].status == r.tasks[id].status && t.tasks[id].priority == r.tasks[id].priority
                            && t.tasks[id].submittedAt == r.tasks[id].submittedAt)
      && (forall x :: x in t.tasks <==> x in r.tasks || x == id)
      && (forall x :: x in r.tasks && x != id ==> t.tasks[x] == r.tasks[x])
    ensures RequeueClass(snapshot) == Class(match snapshot.priority case Some(p) => p case None => Normal)
  {
  }

  /** Which requests are taken and what of them is stored, in terms of their fields and the settings. */
  lemma SubmitMeans(cfg: Settings, r: Redis, req: Request, now: real)
    ensures var toolkit := if req.payload.toolkit == "" then cfg.defaultToolkit else req.payload.toolkit;
      var adapter := if req.payload.adapter == "" then cfg.defaultAdapter else req.payload.adapter;
      var backend := if req.payload.backend == "" then cfg.defaultBackend else req.payload.backend;
      var prio := match req.priority case Named(p) => p case _ => Normal;
      var w := req.payload.assignedTo;
      var q := if w == "" then Class(prio) else Own(w);
      var t := Submit(cfg, r, req, now);
      && (SubmitStatus(cfg, r, req) == Rejected <==>
            toolkit !in cfg.toolkits || adapter !in cfg.adapters || req.priority == PriorityField.Invalid)
      && (SubmitStatus(cfg, r, req) == Accepted ==> req.id !in r.tasks)
      && (SubmitStatus(cfg, r, req) == Existing ==> req.id in r.tasks)
      && (SubmitStatus(cfg, r, req) != Accepted ==> t == r)
      && (SubmitStatus(cfg, r, req) == Accepted ==>
            && t.tasks == r.tasks[req.id := TaskHash(
                 Some(req.payload.(toolkit := toolkit, adapter := adapter, backend := backend)), Some(Pending), Some(prio),
                 Some(now), None, w, if w == "" then None else Some(now))]
            && ListOf(t, q) == [req.id] + ListOf(r, q)
            && (forall p :: p != q ==> ListOf(t, p) == ListOf(r, p))
            && t.results == r.results)
  {
  }
}
