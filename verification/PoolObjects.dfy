/**
 `PersistentWorker` and `SubprocessWorkerPool` as objects that update their fields, proved
 against PoolSpec. Each method is one lock-protected or uninterrupted stretch of the source;
 what the environment decides (whether a process starts or is killed) is a parameter.
 */
module PoolObjects {
  import opened Common
  import opened PoolSpec

  class PersistentWorker {
    const maxTasks: int
    const namesTimeout: bool
    var isAliveFlag: bool
    var tasksProcessed: nat
    var processAlive: bool
    var taskQueue: seq<Message>
    var resultQueue: seq<Reply>
    var child: Child
    ghost var sent: nat

    ghost function View(): Worker
      reads this
    {
      Worker(isAliveFlag, processAlive, taskQueue, resultQueue, child, tasksProcessed, sent, maxTasks, namesTimeout)
    }

    /** The READY message has been read, so both queues start empty. */
    constructor (maxTasks: int, namesTimeout: bool)
      ensures View() == NewWorker(maxTasks, namesTimeout)
    {
      this.maxTasks, this.namesTimeout := maxTasks, namesTimeout;
      isAliveFlag, tasksProcessed, processAlive := true, 0, true;
      taskQueue, resultQueue, child, sent := [], [], Ready, 0;
    }

    function IsAlive(): (alive: bool)
      reads this
      ensures alive <==> Alive(View())
    {
      isAliveFlag && processAlive
    }

    /** `execute_task` up to the point where it waits for the result queue. */
    method SendTask(c: CallId) returns (status: SendStatus)
      modifies this
      ensures (View(), status) == Send(old(View()), c)
      ensures status == NotAlive <==> !(old(isAliveFlag) && old(processAlive))
      ensures status == QueueFull <==> old(isAliveFlag) && old(processAlive) && |old(taskQueue)| >= 10
    {
      if !IsAlive() { return NotAlive; }
      if |taskQueue| >= QUEUE_LIMIT { return QueueFull; }
      taskQueue := taskQueue + [Execute(c)];
      sent := sent + 1;
      return Sent;
    }

    /** `execute_task` from the arrival of a result to its return. */
    method TakeReply() returns (reply: Reply)
      requires resultQueue != []
      modifies this
      ensures View() == Receive(old(View()))
      ensures reply == old(resultQueue[0])
    {
      reply := resultQueue[0];
      resultQueue := resultQueue[1..];
      if reply.Exiting() {
        isAliveFlag := false;
      }
      tasksProcessed := tasksProcessed + 1;
      if tasksProcessed >= maxTasks {
        isAliveFlag := false;
      }
    }

    /** `execute_task` when no result arrives in time. */
    method Expire()
      modifies this
      ensures View() == GiveUp(old(View()))
    {
      isAliveFlag := false;
    }

    method Shutdown(killed: bool)
      modifies this
      ensures View() == ShutDown(old(View()), killed)
    {
      if |taskQueue| < QUEUE_LIMIT {
        taskQueue := taskQueue + [Message.Shutdown];
      }
      if processAlive && killed {
        processAlive := false;
      }
      isAliveFlag := false;
    }
  }

  datatype Acquired = Got(worker: PersistentWorker) | NeedsRecovery | NoneIdle

  class SubprocessWorkerPool {
    const maxTasks: int
    var workers: seq<PersistentWorker>
    var idleWorkers: seq<PersistentWorker>
    var busyWorkers: seq<PersistentWorker>
    var totalWorkersRestarted: nat

    function View(): Lists<PersistentWorker>
      reads this
    {
      Lists(workers, idleWorkers, busyWorkers)
    }

    ghost function Live(): set<PersistentWorker>
      reads this, idleWorkers
    {
      set w | w in idleWorkers && w.IsAlive()
    }

    constructor (maxTasks: int)
      ensures View() == Lists([], [], []) && this.maxTasks == maxTasks && totalWorkersRestarted == 0
    {
      this.maxTasks := maxTasks;
      workers, idleWorkers, busyWorkers := [], [], [];
      totalWorkersRestarted := 0;
    }

    /** Attempt i starts a process iff started[i]; ok is false where the source raises. */
    method InitWorkers(started: seq<bool>, namesTimeout: bool) returns (ok: bool)
      requires View() == Lists([], [], [])
      modifies this
      ensures Distinct(workers) && workers == idleWorkers && busyWorkers == []
      ensures |workers| == |set i | 0 <= i < |started| && started[i]|
      ensures ok <==> started == [] || exists i :: 0 <= i < |started| && started[i]
      ensures forall w :: w in workers ==> fresh(w) && w.View() == NewWorker(maxTasks, namesTimeout)
    {
      ok := true;
      ghost var up: set<int> := {};
      for i := 0 to |started|
        invariant up == set j | 0 <= j < i && started[j]
        invariant Distinct(workers) && workers == idleWorkers && busyWorkers == []
        invariant |workers| == |up|
        invariant forall w :: w in workers ==> fresh(w) && w.View() == NewWorker(maxTasks, namesTimeout)
        invariant i < |started| ==> ok
        invariant i == |started| ==> (ok <==> started == [] || exists j :: 0 <= j < |started| && started[j])
      {
        if started[i] {
          var worker := new PersistentWorker(maxTasks, namesTimeout);
          workers := workers + [worker];
          idleWorkers := idleWorkers + [worker];
          up := up + {i};
        } else if |workers| == 0 && i == |started| - 1 {
          ok := false;
          assert up == {};
          assert forall j :: 0 <= j < i && started[j] ==> j in up;
        } else if i == |started| - 1 {
          assert up != {};
        }
      }
    }

    /** The locked block of `_get_idle_worker` up to its return or its emergency sleep. */
    method Acquire() returns (a: Acquired)
      modifies this
      ensures workers == old(workers)
      ensures var pruned := Prune(old(View()), old(Live()));
              && (a == NeedsRecovery <==> NoWorkers(pruned))
              && (a.Got? <==> pruned.idle != [])
              && (a.Got? ==> View() == TakeIdle(pruned) && a.worker == pruned.idle[0])
              && (!a.Got? ==> View() == pruned)
    {
      var kept: seq<PersistentWorker> := [];
      var i := 0;
      ghost var live := Live();
      assert forall w :: w in idleWorkers ==> (w in live <==> w.IsAlive());
      while i < |idleWorkers|
        invariant 0 <= i <= |idleWorkers|
        invariant kept == Keep(idleWorkers[..i], live)
        modifies {}
      {
        KeepSnoc(idleWorkers[..i], idleWorkers[i], live);
        assert idleWorkers[..i + 1] == idleWorkers[..i] + [idleWorkers[i]];
        if idleWorkers[i].IsAlive() {
          kept := kept + [idleWorkers[i]];
        }
        i := i + 1;
      }
      assert idleWorkers[..i] == idleWorkers;
      idleWorkers := kept;
      if |workers| == 0 && |idleWorkers| == 0 && |busyWorkers| == 0 {
        a := NeedsRecovery;
      } else if |idleWorkers| != 0 {
        var worker := idleWorkers[0];
        idleWorkers := idleWorkers[1..];
        busyWorkers := busyWorkers + [worker];
        a := Got(worker);
      } else {
        a := NoneIdle;
      }
    }

    /** The rest of that block after the sleep, when the emergency worker starts. */
    method Recover() returns (worker: PersistentWorker)
      modifies this
      ensures workers != [] && fresh(workers[|workers| - 1])
      ensures workers[|workers| - 1].View() == NewWorker(maxTasks, false)
      ensures View() == TakeIdle(AddFresh(old(View()), workers[|workers| - 1]))
      ensures busyWorkers == old(busyWorkers) + [worker]
    {
      var emergency := new PersistentWorker(maxTasks, false);
      workers := workers + [emergency];
      idleWorkers := idleWorkers + [emergency];
      worker := idleWorkers[0];
      idleWorkers := idleWorkers[1..];
      busyWorkers := busyWorkers + [worker];
    }

    method ReturnWorker(worker: PersistentWorker)
      modifies this
      ensures View() == Release(old(View()), worker, worker.IsAlive())
    {
      if worker in busyWorkers {
        busyWorkers := Without(busyWorkers, worker);
      }
      if worker.IsAlive() {
        if worker !in idleWorkers {
          idleWorkers := idleWorkers + [worker];
        }
      }
    }

    /** `starts`: the replacement process comes up. */
    method RestartWorker(worker: PersistentWorker, killed: bool, starts: bool) returns (replaced: bool)
      modifies this, worker
      ensures worker.View() == ShutDown(old(worker.View()), killed)
      ensures replaced == starts
      ensures !starts ==> View() == Drop(old(View()), worker) && totalWorkersRestarted == old(totalWorkersRestarted)
      ensures starts ==> && workers != [] && fresh(workers[|workers| - 1])
                         && workers[|workers| - 1].View() == NewWorker(maxTasks, worker.namesTimeout)
                         && View() == AddFresh(Drop(old(View()), worker), workers[|workers| - 1])
                         && totalWorkersRestarted == old(totalWorkersRestarted) + 1
    {
      worker.Shutdown(killed);
      if worker in workers { workers := Without(workers, worker); }
      if worker in idleWorkers { idleWorkers := Without(idleWorkers, worker); }
      if worker in busyWorkers { busyWorkers := Without(busyWorkers, worker); }
      if starts {
        var replacement := new PersistentWorker(maxTasks, worker.namesTimeout);
        workers := workers + [replacement];
        idleWorkers := idleWorkers + [replacement];
        totalWorkersRestarted := totalWorkersRestarted + 1;
      }
      return starts;
    }
  }

  lemma {:induction false} KeepSnoc<T>(s: seq<T>, x: T, live: set<T>)
    ensures Keep(s + [x], live) == Keep(s, live) + (if x in live then [x] else [])
  {
    if s == [] {
      assert s + [x] == [x] && [x][1..] == [];
    } else {
      assert (s + [x])[0] == s[0] && (s + [x])[1..] == s[1..] + [x];
      KeepSnoc(s[1..], x, live);
    }
  }
}
