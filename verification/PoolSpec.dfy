/**
 What one `PersistentWorker` and the three worker lists of a `SubprocessWorkerPool`
 do in each step of kernelgym/worker/subprocess_pool.py, as functions on values.
 The classes of PoolObjects are proved against these functions, and PoolProtocol
 interleaves the same functions.
 */
module PoolSpec {
  import opened Common

  /** `maxsize` of both queues of a worker. */
  const QUEUE_LIMIT: nat := 10

  type CallId = nat

  /** A task message carries the pool call that sent it; the child never looks at that label. */
  datatype Message = Execute(call: CallId) | Shutdown

  /** How a child ends a task. A device error (CUDA or profiler dropout) also ends the child. */
  datatype Outcome = Success(value: int) | TaskError(text: int) | DeviceError(text: int)

  datatype Reply = Reply(call: CallId, outcome: Outcome) {
    predicate Exiting() { outcome.DeviceError? }
  }

  datatype Child = Ready | Running(call: CallId) | Exited

  /** `sent` counts the task messages ever put on the queue; the source keeps no such counter. */
  datatype Worker = Worker(
    flag: bool,             // is_alive_flag
    process: bool,          // process.is_alive()
    tasks: seq<Message>,
    replies: seq<Reply>,
    child: Child,
    processed: nat,
    sent: nat,
    cap: int,               // max_tasks_per_worker
    namesTimeout: bool)     // the worker id contains "timeout", in any case

  function NewWorker(cap: int, namesTimeout: bool): Worker {
    Worker(true, true, [], [], Ready, 0, 0, cap, namesTimeout)
  }

  predicate Alive(w: Worker) { w.flag && w.process }

  /** The number of tasks a child may be sent: the cap, but always at least one. */
  function TaskAllowance(cap: int): nat { if cap < 1 then 1 else cap }

  datatype SendStatus = Sent | NotAlive | QueueFull

  function Send(w: Worker, c: CallId): (Worker, SendStatus) {
    if !Alive(w) then (w, NotAlive)
    else if |w.tasks| >= QUEUE_LIMIT then (w, QueueFull)
    else (w.(tasks := w.tasks + [Execute(c)], sent := w.sent + 1), Sent)
  }

  function Receive(w: Worker): Worker
    requires w.replies != []
  {
    var retired := w.replies[0].Exiting() || w.processed + 1 >= w.cap;
    w.(replies := w.replies[1..], processed := w.processed + 1, flag := w.flag && !retired)
  }

  function GiveUp(w: Worker): Worker { w.(flag := false) }

  /** `killed`: the process is gone when `shutdown` returns. It may survive even SIGKILL. */
  function ShutDown(w: Worker, killed: bool): Worker {
    w.(tasks := if |w.tasks| < QUEUE_LIMIT then w.tasks + [Shutdown] else w.tasks,
       process := w.process && !killed,
       flag := false)
  }

  // ---- the child's side of the two queues ----

  predicate CanTake(w: Worker) { w.process && w.child.Ready? && w.tasks != [] }

  function Take(w: Worker): Worker
    requires CanTake(w)
  {
    w.(tasks := w.tasks[1..],
       child := match w.tasks[0] case Shutdown => Exited case Execute(c) => Running(c))
  }

  predicate CanFinish(w: Worker) { w.process && w.child.Running? && |w.replies| < QUEUE_LIMIT }

  function Finish(w: Worker, outcome: Outcome): Worker
    requires CanFinish(w)
  {
    w.(replies := w.replies + [Reply(w.child.call, outcome)],
       child := if outcome.DeviceError? then Exited else Ready)
  }

  function Die(w: Worker): Worker { w.(process := false) }

  // ---- the three lists ----

  datatype Lists<T> = Lists(workers: seq<T>, idle: seq<T>, busy: seq<T>)

  predicate NoWorkers<T(==)>(l: Lists<T>) { l.workers == [] && l.idle == [] && l.busy == [] }

  function Keep<T(==)>(s: seq<T>, live: set<T>): seq<T> {
    if s == [] then []
    else if s[0] in live then [s[0]] + Keep(s[1..], live)
    else Keep(s[1..], live)
  }

  function Prune<T(==)>(l: Lists<T>, live: set<T>): Lists<T> { l.(idle := Keep(l.idle, live)) }

  function TakeIdle<T>(l: Lists<T>): Lists<T>
    requires l.idle != []
  {
    l.(idle := l.idle[1..], busy := l.busy + [l.idle[0]])
  }

  function AddFresh<T>(l: Lists<T>, w: T): Lists<T> {
    l.(workers := l.workers + [w], idle := l.idle + [w])
  }

  function Release<T(==)>(l: Lists<T>, w: T, alive: bool): Lists<T> {
    l.(busy := Without(l.busy, w),
       idle := if alive && w !in l.idle then l.idle + [w] else l.idle)
  }

  function Drop<T(==)>(l: Lists<T>, w: T): Lists<T> {
    Lists(Without(l.workers, w), Without(l.idle, w), Without(l.busy, w))
  }

  // ---- the shape every step keeps ----

  ghost predicate WellFormed<T(!new)>(l: Lists<T>) {
    && Distinct(l.workers) && Distinct(l.idle) && Distinct(l.busy)
    && (forall w :: w in l.idle ==> w in l.workers && w !in l.busy)
    && (forall w :: w in l.busy ==> w in l.workers)
  }

  lemma {:induction false} KeepMembers<T>(s: seq<T>, live: set<T>)
    requires Distinct(s)
    ensures Distinct(Keep(s, live))
    ensures forall w :: w in Keep(s, live) <==> w in s && w in live
  {
    if s != [] {
      assert s == [s[0]] + s[1..];
      KeepMembers(s[1..], live);
      var r := Keep(s[1..], live);
      assert s[0] !in s[1..];
      if s[0] in live {
        assert Keep(s, live) == [s[0]] + r;
        assert forall w :: w in Keep(s, live) <==> w == s[0] || w in r;
      }
    }
  }

  lemma PruneWellFormed<T(!new)>(l: Lists<T>, live: set<T>)
    requires WellFormed(l)
    ensures WellFormed(Prune(l, live))
    ensures forall w :: w in Prune(l, live).idle <==> w in l.idle && w in live
  {
    KeepMembers(l.idle, live);
  }

  lemma TakeIdleWellFormed<T(!new)>(l: Lists<T>)
    requires WellFormed(l) && l.idle != []
    ensures WellFormed(TakeIdle(l))
    ensures forall w :: w in TakeIdle(l).idle <==> w in l.idle && w != l.idle[0]
    ensures forall w :: w in TakeIdle(l).busy <==> w in l.busy || w == l.idle[0]
  {
    assert l.idle == [l.idle[0]] + l.idle[1..];
    DistinctAppend(l.busy, l.idle[0]);
  }

  lemma AddFreshWellFormed<T(!new)>(l: Lists<T>, w: T)
    requires WellFormed(l) && w !in l.workers
    ensures WellFormed(AddFresh(l, w))
    ensures forall x :: x in AddFresh(l, w).idle <==> x in l.idle || x == w
    ensures forall x :: x in AddFresh(l, w).workers <==> x in l.workers || x == w
  {
    DistinctAppend(l.workers, w);
    DistinctAppend(l.idle, w);
  }

  lemma ReleaseWellFormed<T(!new)>(l: Lists<T>, w: T, alive: bool)
    requires WellFormed(l) && (alive ==> w in l.workers)
    ensures WellFormed(Release(l, w, alive))
    ensures forall x :: x in Release(l, w, alive).busy <==> x in l.busy && x != w
    ensures forall x :: x in Release(l, w, alive).idle <==> x in l.idle || (alive && x == w)
  {
    WithoutMembers(l.busy, w);
    if w !in l.idle { DistinctAppend(l.idle, w); }
  }

  lemma DropWellFormed<T(!new)>(l: Lists<T>, w: T)
    requires WellFormed(l)
    ensures WellFormed(Drop(l, w))
    ensures forall x :: x in Drop(l, w).workers <==> x in l.workers && x != w
    ensures forall x :: x in Drop(l, w).idle <==> x in l.idle && x != w
    ensures forall x :: x in Drop(l, w).busy <==> x in l.busy && x != w
    ensures |Drop(l, w).workers| == if w in l.workers then |l.workers| - 1 else |l.workers|
  {
    WithoutMembers(l.workers, w);
    WithoutMembers(l.idle, w);
    WithoutMembers(l.busy, w);
  }
}
