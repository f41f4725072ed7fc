# KernelGym, modelled and proved in Dafny

This project models the state-keeping parts of KernelGym and proves what they promise: the worker pool
that runs evaluations in child processes, the Redis task queue, the hook that patches Triton's launch
methods, the health monitor, the evaluation workflow with its reference-runtime cache, and the smaller
computations around them (aggregation of runs, kernel coverage, JSON normalisation, round robin).

Each state-keeping component comes in the same layers. A `...Spec` module (or the head of the file) says
what one operation does, as functions on values. An `...Objects` module (or a class at the end) updates
fields the way the source does, with its loops, and every method is proved equal to those functions. A
`...Protocol` module interleaves the same functions as steps of a state machine, and `...Safety` and
`...Results` (also `PoolAttempts`, `QueueOrder` and `QueuePass`) prove what holds over every run. An event
that is not enabled changes nothing, so "every run" is every finite sequence of events. `QueueAlone` proves
that agents of the queue protocol left to themselves compute what the object does, and `QueueTerminal` uses
them to reach any task that can still be reached. `Verdicts` and `JsonPaths` say what evaluations and
normalised values contain.

## What turned out not to hold

Where the code does not keep a promise, the model follows the code, a lemma shows an input, and a second
lemma says exactly when the promise is kept.

- A pool call can end in TimeoutError without its task ever having been sent: the error text carries the
  worker id and is searched for "timeout" (`kernelgym/worker/subprocess_pool.py:415`). The promise holds
  if and only if worker ids do not contain that word.
- A pool whose idle processes have died never recovers: pruning shortens `idle_workers` but not `workers`,
  and emergency recovery asks for both to be empty (`kernelgym/worker/subprocess_pool.py:464-467`).
- The queue-wait monitor drops a task whose id is the empty string, because it takes the popped id for an
  empty queue (`kernelgym/server/task_manager.py:250`). Every other id is conserved.
- A terminal status is not absorbing: a cancelled task is still delivered
  (`kernelgym/server/task_manager.py:508-518`). Cancelling a task is final exactly when its status is
  "processing"; otherwise some later run delivers and reopens it.
- Undoing patches with `setattr` restores every lookup under single inheritance, but not in a diamond, and
  leaves inherited methods behind as own attributes (`kernelgym/toolkit/kernelbench/triton_detect.py:546-549`).
  The attributes before the hook decide when lookups are restored. A detection enters the hook twice, and the
  second run can change a lookup that the first one restores; for two runs the condition is a stronger one.
- The "worker offline" rule of the monitor never fires: the check that stores the time overwrites it at its
  end (`kernelgym/worker/worker_monitor.py:180-188` and `234-240`). One unparsable heartbeat hides all later
  workers from the cycle, and a worker can be queued twice: exactly when a check flags it while the request
  that a failed restart put back is still open.
- A failed reference timing is cached like a good one, although `docs/ARCHITECTURE.md` speaks of the first
  completed run; later kernels for that problem get speedup 0 with status completed
  (`kernelgym/workflow/kernelbench.py:200-206`). The first completed run is what is cached exactly when the
  first timing of the reference did not fail.
- For replies no worker builds, an evaluation can be failed and still report a speedup
  (`kernelgym/schema/result.py:204-229`).
- `make_json_safe` returns an enumeration member's value as it is, so it is not idempotent for members that
  hold, say, a tuple, and its output can be nested beyond the depth limit
  (`kernelgym/schema/serialization.py:18-19`). Both promises are kept exactly when the members reached hold
  values that keep them.
- The second aggregator's single-pass count ignores a sample whose last turn is number 0, and its pass1_best
  is not the first aggregator's (`evals/compare_gs_eval.py:40-41` and `55-56`).

## Assumptions

- One uninterrupted stretch of code between two awaits, and one Redis call, is one step. Redis calls do not
  raise, there is one key prefix, and storing and queuing a submitted task is one step.
- No coroutine of the pool is cancelled and the pool is not shut down while calls run. Processes may die,
  and waits may expire, at any moment.
- Times and runtimes are real numbers. Clock readings inside one check of one worker are one reading.
- The hook's classes hold plain functions, and the metaclass is not consulted in attribute lookup.
- The hash in the reference-cache key is injective where a theorem says so, and requests are handled one
  after another; concurrent misses do overwrite each other.

## Model

| member | source | states |
|---|---|---|
| PoolObjects.PersistentWorker.SendTask | kernelgym/worker/subprocess_pool.py:185-192 | a dead worker or a full queue refuses; otherwise exactly this task joins the queue, as `PoolSpec.Send` |
| PoolObjects.PersistentWorker.TakeReply | kernelgym/worker/subprocess_pool.py:194-219 | the oldest reply is taken; the worker retires when the reply says its child exits or the cap is reached |
| PoolObjects.PersistentWorker.Expire | kernelgym/worker/subprocess_pool.py:221-232 | a wait that expires retires the worker and touches neither channel |
| PoolObjects.PersistentWorker.Shutdown | kernelgym/worker/subprocess_pool.py:238-278 | shutting down queues the command if there is room and retires the worker whether or not the process dies |
| PoolObjects.SubprocessWorkerPool.InitWorkers | kernelgym/worker/subprocess_pool.py:345-362 | one distinct idle worker per process that started; it fails only when some were asked for and none started |
| PoolObjects.SubprocessWorkerPool.Acquire | kernelgym/worker/subprocess_pool.py:461-490 | dead idle workers are pruned; then the oldest idle worker becomes busy, or recovery is asked for exactly when all three lists are empty |
| PoolObjects.SubprocessWorkerPool.Recover | kernelgym/worker/subprocess_pool.py:472-490 | the emergency worker joins the pool and the oldest idle worker is handed out |
| PoolObjects.SubprocessWorkerPool.ReturnWorker | kernelgym/worker/subprocess_pool.py:499-508 | the worker leaves the busy list and becomes idle only if alive, never twice |
| PoolObjects.SubprocessWorkerPool.RestartWorker | kernelgym/worker/subprocess_pool.py:510-565 | the old worker is retired and leaves all three lists; a new one is added only if its process starts |
| PoolSafety.InitialInv | kernelgym/worker/subprocess_pool.py:345-362 | the whole pool invariant holds after start-up |
| PoolSafety.StepInv | kernelgym/worker/subprocess_pool.py:364-565 | every coroutine step, child step, process death and expiry keeps the pool invariant |
| PoolSafety.RunInv | kernelgym/worker/subprocess_pool.py:364-565 | the pool invariant holds after every sequence of such steps |
| PoolResults.ReplyMatching | kernelgym/worker/subprocess_pool.py:194-219 | in every run a task is sent to at most one worker and run at most once, and a returned result is the one that run produced |
| PoolResults.NoForeignReply | kernelgym/worker/subprocess_pool.py:194-195 | when a call reads the result queue, its own reply is the only one there |
| PoolResults.IdleIsClean | kernelgym/worker/subprocess_pool.py:499-508 | an idle worker has both channels empty, a ready child, and room under its cap |
| PoolResults.QueueNeverFull | kernelgym/worker/subprocess_pool.py:188-192 | the "task queue is full" branch cannot be reached |
| PoolResults.PoolWellFormed | kernelgym/worker/subprocess_pool.py:453-565 | idle and busy are duplicate-free, disjoint parts of the workers, whose number never exceeds the pool size; no worker has two holders |
| PoolResults.NothingLeaks | kernelgym/worker/subprocess_pool.py:437-439 | when every call is over, no worker is busy and the lock is free |
| PoolResults.RetiredStaysOut | kernelgym/worker/subprocess_pool.py:510-565 | a worker dropped from the pool never re-enters it |
| PoolResults.DispatchAtMostOnce | kernelgym/worker/subprocess_pool.py:383-451 | a result means one dispatch, the final RuntimeError none, and no child is sent more than max(1, cap) tasks |
| PoolResults.TimeoutWithoutDispatch | kernelgym/worker/subprocess_pool.py:410-421 | a run that ends in TimeoutError although the task was never sent |
| PoolResults.TimeoutMeansSentExactly | kernelgym/worker/subprocess_pool.py:410-445 | in every run a TimeoutError means a dispatch, if and only if the worker ids do not contain the word "timeout" |
| PoolResults.StepAttempt | kernelgym/worker/subprocess_pool.py:383-436 | a step keeps a call in its attempt or moves it to the next; a finished call stays as it is |
| PoolResults.AttemptsAreBounded | kernelgym/worker/subprocess_pool.py:383-451 | an unfinished call is in one of its max_retries + 1 attempts |
| PoolAttempts.AttemptFollows | kernelgym/worker/subprocess_pool.py:383-436 | a failed attempt (no worker in time, or a refused task) is followed by the next while there are retries left; the RuntimeError comes from the failure of the last one and from nothing else |
| PoolAttempts.GivesUpAfterAllAttempts | kernelgym/worker/subprocess_pool.py:383-451 | a call that ends in the RuntimeError has made max_retries + 1 attempts, none if that is negative; any other has had fewer fail |
| PoolAttempts.PollingDecides | kernelgym/worker/subprocess_pool.py:461-497 | polling drops the idle workers that died, hands out the live one idle longest, and otherwise recovers exactly a pool without workers |
| PoolAttempts.SendingDecides | kernelgym/worker/subprocess_pool.py:185-192 | a task is sent exactly when the process lives; a refusal is a timeout only for an id that contains that word |
| PoolAttempts.WaitingDecides | kernelgym/worker/subprocess_pool.py:194-232 | a wait ends with the reply of that very call, or expires and retires the worker |
| PoolAttempts.SettlingDecides | kernelgym/worker/subprocess_pool.py:401-426 | a worker goes back without a restart exactly when it answered, is not retired and lives |
| PoolAttempts.EndingDecides | kernelgym/worker/subprocess_pool.py:398-451 | whatever else happens, a call that got a reply can only return it, and one whose wait expired can only raise the TimeoutError |
| PoolAttempts.RestartReplaces | kernelgym/worker/subprocess_pool.py:510-565 | after a restart the old worker is in no list and retired with the exit command queued, and the new one, if it started, is listed, idle and fresh |
| PoolAttempts.ChildObeys | kernelgym/worker/subprocess_pool.py:661-748 | a child takes its messages in order, exits on the exit command or a device error, and then takes nothing more |
| PoolResults.StrandedForever | kernelgym/worker/subprocess_pool.py:461-490 | workers listed but none idle and alive: no later run ever sends a task again |
| PoolResults.ServesExactly | kernelgym/worker/subprocess_pool.py:461-490 | a pool at rest can serve a new call if and only if it lists no worker or has a live idle one |
| PoolResults.OneDeathStrands | kernelgym/worker/subprocess_pool.py:461-490 | one idle process dying leaves a pool of one worker unable to run anything |
| QueueSpec.TimedOutMeans | kernelgym/server/task_manager.py:163-189 | the monitor's decision about its own worker's task: never stale, and overdue exactly when it is pending and has waited longer than the positive wait its own fields ask for, cut to a positive timeout |
| QueueSpec.LimitsMean | kernelgym/server/task_manager.py:163-189 | timeout and wait limit in terms of the task's four fields: the second key counts only where the first is missing, and anything but a number means the default |
| QueueSpec.JudgeMeans | kernelgym/server/task_manager.py:256-289 | the decision about any hash: when the assignment is stale, and when a waiting time counts from the assignment or else the submission |
| QueueSpec.UnassignMeans | kernelgym/server/task_manager.py:200-220 | what a requeue writes: no owner, the reason and the time, all else as it was, and the priority class it goes to |
| QueueSpec.SubmitMeans | kernelgym/server/task_manager.py:312-363 | in terms of the request's fields and the settings: when it is rejected or already known, what hash is stored, and into which queue the id goes |
| QueueObjects.TaskManager.SubmitTask | kernelgym/server/task_manager.py:312-367 | unknown toolkit, backend or priority is rejected, a known id is left alone, anything else is stored with defaults and queued once |
| QueueObjects.TaskManager.GetNextTask | kernelgym/server/task_manager.py:369-412 | the oldest task of the worker's own queue, else of the high, else the normal, else the low class, is handed out and marked processing; nothing, and nothing changes, only if all four are empty |
| QueueObjects.TaskManager.CompleteTask | kernelgym/server/task_manager.py:414-427 | the result is stored and the task marked completed |
| QueueObjects.TaskManager.FailTask | kernelgym/server/task_manager.py:429-449 | the error is stored beside any result and the task marked failed |
| QueueObjects.TaskManager.CancelTask | kernelgym/server/task_manager.py:508-518 | cancelling succeeds exactly for a known task that is neither completed nor failed, and touches no queue |
| QueueObjects.TaskManager.RequeueTask | kernelgym/server/task_manager.py:191-222 | the assignment is cleared and the id pushed into its priority queue |
| QueueObjects.TaskManager.ScanQueue | kernelgym/server/task_manager.py:245-289 | the popped ids are kept, to be requeued, or dropped as `ScanLine` says, within the scan limit |
| QueueObjects.TaskManager.PutBack | kernelgym/server/task_manager.py:291-292 | the kept ids return to the front of the worker queue in their order |
| QueueObjects.TaskManager.MonitorPass | kernelgym/server/task_manager.py:239-299 | one worker's turn of the monitor is `PassOver` |
| QueueObjects.ServedInOrder | kernelgym/server/task_manager.py:374-409 | the oldest id of the first non-empty queue leaves it, all queues before it are empty, all others untouched |
| QueueObjects.ServedByPriority | kernelgym/server/task_manager.py:369-412 | the same with the four queues spelled out: own, high, normal, low |
| QueueOrder.TriesInOrder | kernelgym/server/task_manager.py:369-386 | over any interleaving, a worker takes from a class only after it found its own queue and every higher class empty, and leaves with nothing only after it found all four empty |
| QueueOrder.DeliveredAsRequested | kernelgym/server/task_manager.py:312-363 | a delivered task is one accepted earlier, in the fields of its request and with the defaults of the settings for empty ones |
| QueueOrder.QueuedAsRequested | kernelgym/server/task_manager.py:329-363 | a queued task is in the queue of the worker or the class its request names, a requeued one in its class |
| QueueOrder.PassRequeuesExactly | kernelgym/server/task_manager.py:245-289 | in any reachable state a pass requeues exactly those of the first scan-limit tasks that are pending and have waited longer than their own fields allow |
| QueueOrder.DroppedItems | kernelgym/server/task_manager.py:259-287 | each requeued task is noted with the hash it was judged by and the reason |
| QueueAlone.TakingAloneIsGetNext | kernelgym/server/task_manager.py:369-412 | the interleaved protocol, run without interruption, computes what the object does |
| QueueAlone.WatchingAloneIsPassOver | kernelgym/server/task_manager.py:239-299 | a monitor of the protocol, run without interruption, leaves Redis as the object's pass does |
| QueueObjects.PassOverKeepsOrder | kernelgym/server/task_manager.py:245-296 | a pass judges the first ids of the line, as many as the scan limit and the line allow, keeps some of them in order before the part never looked at, and puts the others behind their priority queues oldest first |
| QueueObjects.EmptyIdVanishes | kernelgym/server/task_manager.py:249-251 | a pass drops the empty id from the worker queue without putting it anywhere |
| QueueSafety.StepInv | kernelgym/server/task_manager.py:191-449 | every Redis call of every agent keeps the queue invariant |
| QueueSafety.RunInv | kernelgym/server/task_manager.py:191-449 | the queue invariant holds after every interleaving |
| QueueSafety.StepForward | kernelgym/server/task_manager.py:191-412 | no step takes a task back to a worker queue or a monitor |
| QueueResults.ExactlyOnePlace | kernelgym/server/task_manager.py:191-412 | in every reachable state an accepted id is in exactly one queue, hand or delivery, once; only the empty id can be lost |
| QueueResults.EmptyIdIsLost | kernelgym/server/task_manager.py:249-251 | a submitted task with the empty id, assigned to a worker, is in no queue, hand or delivery after one pop by the monitor |
| QueueResults.LostExactly | kernelgym/server/task_manager.py:249-251 | over all runs an id is never lost, if and only if it is not the empty one |
| QueueResults.DeliveredAtMostOnce | kernelgym/server/task_manager.py:369-412 | no id is delivered twice; the payload is the submitted one but for assignment and timeout fields; an assigned task reaches another worker only after a requeue |
| QueueResults.RequeuedOnceAndOverdue | kernelgym/server/task_manager.py:253-289 | an id is requeued at most once, and only when pending and waiting longer than the positive limit its fields ask for; the stale branch is never the reason |
| QueueResults.NeverBack | kernelgym/server/task_manager.py:219-220 | once past the worker queues a task never returns to one |
| QueueResults.ClassIsFifo | kernelgym/server/task_manager.py:219-220 | per priority class, what was popped followed by what is queued is what was ever pushed, in order |
| QueueResults.StepResults | kernelgym/server/task_manager.py:414-449 | only a completion changes the stored result of a task, only a failure its error |
| QueueResults.AnswerIsLatest | kernelgym/server/task_manager.py:451-506 | after any events the answer for a task is its latest result, else its latest error; the status is that of the latest result, failed if there is only an error, and otherwise that of the hash |
| QueueResults.OwnTaskIsDelivered | kernelgym/server/task_manager.py:369-412 | a worker that asks gets the oldest task of its own queue, whatever its status |
| QueueAlone.CancelledIsStillDelivered | kernelgym/server/task_manager.py:508-518 | a run: a task submitted to an empty system and cancelled is delivered to the next worker that asks and may have it, and marked processing |
| QueueTerminal.StepEnds | kernelgym/server/task_manager.py:369-449 | a terminal status survives an event exactly when the event is not a worker marking that task |
| QueueTerminal.DeliverableExactly | kernelgym/server/task_manager.py:369-412 | in any reachable state a known task is delivered by some later run, if and only if it is in a queue or a hand |
| QueueTerminal.EndedForGoodExactly | kernelgym/server/task_manager.py:414-449 | a terminal status survives every later run, if and only if the task is in no queue and no hand |
| QueueTerminal.SettledByStatus | kernelgym/server/task_manager.py:369-412 | a task that has not ended is in no queue and no hand exactly when its status is processing (or it is the empty id, lost) |
| QueueTerminal.CancelIsFinalExactly | kernelgym/server/task_manager.py:508-518 | after any events an accepted cancel is final, never reopened and never delivered after, if and only if the status was processing when cancelled (or it was the empty id, lost) |
| QueueTerminal.CancelledCanBeDelivered | kernelgym/server/task_manager.py:508-518 | any other accepted cancel is followed, in some run, by a delivery that marks the task processing and leaves its answer as cancelled |
| QueuePass.StepLine | kernelgym/server/task_manager.py:245-296 | any step appends an arrival to the monitored line, drops the judged id, or leaves the line as it is |
| QueuePass.RunLine | kernelgym/server/task_manager.py:245-296 | over any undisturbed events the line is merged from what stays and what is requeued |
| QueuePass.RunRequeues | kernelgym/server/task_manager.py:294-296 | requeued ids are enqueued in the order they were decided on |
| QueuePass.PassKeepsOrder | kernelgym/server/task_manager.py:245-296 | a whole pass, with submissions interleaved, judges at most scan-limit ids, all of the line if it is shorter: the requeued ones leave in order, and the rest of them stay in order before the part never looked at, which is untouched |
| LoadBalancer.WorkerLoadBalancer.GetNextWorker | kernelgym/server/task_manager.py:63-81 | the worker next in turn among those online and heard of within 30 seconds; none only if there is no such worker |
| LoadBalancer.WorkerLoadBalancer.GetNextWorkers | kernelgym/server/task_manager.py:63-81 | calls in a row return the rotation `Picks` |
| LoadBalancer.WorkerLoadBalancer.GetFairly | kernelgym/server/task_manager.py:63-81 | with one table entry per worker, calls in a row return only fresh workers, with counts that differ by at most one, and n calls over n fresh workers return each once |
| LoadBalancer.FreshMembers | kernelgym/server/task_manager.py:65-74 | the fresh workers are exactly those with an entry that is online and heard of within 30 seconds |
| LoadBalancer.FreshIsDistinct | kernelgym/server/task_manager.py:65-74 | no worker is listed twice when the table has one entry per worker |
| LoadBalancer.FreshInOrder | kernelgym/server/task_manager.py:67-74 | fresh workers keep the order in which they registered |
| LoadBalancer.CountIsHits | kernelgym/server/task_manager.py:78-81 | how often each worker is selected in k calls from any starting index |
| LoadBalancer.EachExactlyOnce | kernelgym/server/task_manager.py:78-81 | n calls over n fresh workers return each exactly once, from any starting index |
| LoadBalancer.CountsStayClose | kernelgym/server/task_manager.py:78-81 | after any number of calls two selection counts differ by at most one |
| MethodPatch.TritonKernelLaunchHook.PatchMethod | kernelgym/toolkit/kernelbench/triton_detect.py:172-185 | a missing, None, marked or unwritable method is left alone; otherwise it is wrapped and the original stacked |
| MethodPatch.TritonKernelLaunchHook.Enter | kernelgym/toolkit/kernelbench/triton_detect.py:240-539 | entering patches exactly the planned pairs, in order; afterwards every launch method of every resolved class, by name, is missing, None, marked, or on a class that cannot be written |
| MethodPatch.TritonKernelLaunchHook.Exit | kernelgym/toolkit/kernelbench/triton_detect.py:541-551 | exiting undoes the stack from the top and empties it; without enter it does nothing |
| MethodPatch.RunDetection | kernelgym/toolkit/kernelbench/triton_detect.py:591-608 | one detection run leaves the attributes of `Restored`; every lookup is as before under single inheritance and, in any hierarchy, wherever the exact condition holds |
| MethodPatch.DetectTritonUsage | kernelgym/toolkit/kernelbench/triton_detect.py:610-633 | a whole detection, two runs that resolve the classes anew, leaves every lookup as before under single inheritance and, in any hierarchy, wherever the exact condition for two runs holds |
| MethodPatch.LookupIsMarkedOrOriginal | kernelgym/toolkit/kernelbench/triton_detect.py:172-185 | while patched, every lookup is marked or original |
| MethodPatch.PatchAllInv | kernelgym/toolkit/kernelbench/triton_detect.py:172-185 | no pair is stacked twice and what is stacked is the lookup from before the hook |
| MethodPatch.SettledByPlan | kernelgym/toolkit/kernelbench/triton_detect.py:240-539 | after entering, every planned method is missing, unpatchable or patched as seen from its class |
| MethodPatch.PlanCovers | kernelgym/toolkit/kernelbench/triton_detect.py:280-539 | the same for any attributes the hook starts from |
| MethodPatch.RestoredLookup | kernelgym/toolkit/kernelbench/triton_detect.py:541-551 | in any hierarchy, a lookup afterwards is the old lookup of the first class in the order that defined or was patched for the method |
| MethodPatch.ExitRestoresLookup | kernelgym/toolkit/kernelbench/triton_detect.py:172-185 | with single inheritance, exit restores every lookup on every class, for any patches in any order |
| MethodPatch.ExitRestoresExactly | kernelgym/toolkit/kernelbench/triton_detect.py:541-551 | in any hierarchy, decided before the hook: exit restores a lookup whatever was patched, if and only if every inherited method that could be patched ahead of its definition resolves alike |
| MethodPatch.TwoExitsRestoreExactly | kernelgym/toolkit/kernelbench/triton_detect.py:625-626 | in any hierarchy, decided before the first hook: two runs restore a lookup whatever each patched, if and only if it stays alike |
| MethodPatch.StrayPatchShows | kernelgym/toolkit/kernelbench/triton_detect.py:625-626 | a method left behind by the first run makes a class patchable that was not, and the second run then changes a lookup |
| MethodPatch.SecondRunLosesLookup | kernelgym/toolkit/kernelbench/triton_detect.py:625-626 | a hierarchy in which no single run changes a lookup and two runs do |
| MethodPatch.ExitRestoresAttributesExactly | kernelgym/toolkit/kernelbench/triton_detect.py:541-551 | the class attributes themselves are restored exactly when no inherited method was patched |
| MethodPatch.AttributesSurviveExactly | kernelgym/toolkit/kernelbench/triton_detect.py:172-185 | decided before the hook: the attributes survive every detection if and only if no class could have an inherited method patched |
| MethodPatch.DiamondLosesLookup | kernelgym/toolkit/kernelbench/triton_detect.py:541-551 | a diamond in which exit changes a lookup |
| WorkerMonitor.Monitor.CheckWorker | kernelgym/worker/worker_monitor.py:134-241 | one check records and decides as `Remember` and `Judge`; an unparsable heartbeat changes nothing and raises |
| WorkerMonitor.Monitor.CheckWorkers | kernelgym/worker/worker_monitor.py:116-248 | a cycle over the workers is `CheckAll` |
| WorkerMonitor.Monitor.PickRestart | kernelgym/worker/worker_monitor.py:337-345 | the oldest request is taken |
| WorkerMonitor.Monitor.FinishRestart | kernelgym/worker/worker_monitor.py:352-375 | a failed restart is queued again; either way the worker is unmarked |
| WorkerMonitor.StaleSinceExact | kernelgym/worker/worker_monitor.py:148-161 | progress_stale_since is t exactly when t is the first check of the longest current run without progress |
| WorkerMonitor.JudgedExactly | kernelgym/worker/worker_monitor.py:163-215 | a restart is judged necessary exactly for the CUDA flag, a late heartbeat or a wedge, in this order and if enforced; never for being offline |
| WorkerMonitor.OfflineIsNeverRestarted | kernelgym/worker/worker_monitor.py:180-188 | an offline worker without heartbeat is never found in need of a restart |
| WorkerMonitor.OfflineRule | kernelgym/worker/worker_monitor.py:180-188 | what the dead rule would decide about a time stored by an earlier check |
| WorkerMonitor.WedgeIsFoundInTime | kernelgym/worker/worker_monitor.py:148-210 | a worker stuck from s is found by s + timeout + 3 gaps |
| WorkerMonitor.RecordsAreSeparate | kernelgym/worker/worker_monitor.py:234-240 | after a cycle over any workers, raising or not, each worker's record is that of its own checks among those looked at |
| WorkerMonitor.LookedAtExactly | kernelgym/worker/worker_monitor.py:116-178 | a worker is looked at exactly when neither its check nor an earlier one of the cycle raises |
| WorkerMonitor.MalformedBlindsTheRest | kernelgym/worker/worker_monitor.py:173-178 | what the raising worker and all after it reported changes no record and no request |
| WorkerMonitor.CycleMarksExactly | kernelgym/worker/worker_monitor.py:212-240 | a worker is marked after a cycle exactly when it was marked before or one of its checks that are looked at finds it in need of a restart |
| WorkerMonitor.RestartsAreTracked | kernelgym/worker/worker_monitor.py:337-375 | a marked worker has an open request; while no restart has failed, exactly one |
| WorkerMonitor.StepDoublesExactly | kernelgym/worker/worker_monitor.py:212-232 | an event doubles an open request exactly when a check flags an unmarked worker whose request is open |
| WorkerMonitor.OneRequestEachExactly | kernelgym/worker/worker_monitor.py:212-375 | all along a run each worker has at most one open request, if and only if no event of the run is such a check |
| WorkerMonitor.RestartsInOrder | kernelgym/worker/worker_monitor.py:337-375 | over any run the restarts begun, followed by the queue, are the requests ever queued, in order |
| WorkerMonitor.FailureCanQueueTwice | kernelgym/worker/worker_monitor.py:368-375 | after one failed restart a worker can be queued twice and be due again after a success |
| Replies.Median | kernelgym/toolkit/kernelbench/toolkit.py:214-228 | the middle of three timings: one of them, with two on either side |
| WorkflowObjects.InMemoryReferenceCache.Get | kernelgym/workflow/kernelbench_helpers.py:44-47 | a lookup by uuid, code hash and validation state; nothing without a uuid |
| WorkflowObjects.InMemoryReferenceCache.Put | kernelgym/workflow/kernelbench_helpers.py:49-52 | stores the runtime under that key only |
| WorkflowObjects.KernelBenchWorkflowController.ValidateInputs | kernelgym/workflow/kernelbench.py:284-317 | no errors exactly for a valid request; the first error is the reported one |
| WorkflowObjects.KernelBenchWorkflowController.HandleRequest | kernelgym/workflow/kernelbench.py:46-216 | outcome, cache and submitted subtasks of a request are those of `Handle` |
| Verdicts.ValidExactly | kernelgym/workflow/kernelbench.py:284-308 | which requests are taken: GPUs, uuid, and the class each code has to declare |
| Verdicts.FirstErrorMeans | kernelgym/workflow/kernelbench.py:58-62 | which error is reported for any other request |
| Verdicts.AsksExactly | kernelgym/workflow/kernelbench.py:98-184 | for which requests a kernel is run and a reference timed |
| Verdicts.WithoutCache | kernelgym/workflow/kernelbench.py:148-206 | a request that is not to use the cache neither depends on it nor changes it |
| Verdicts.HitExactly | kernelgym/workflow/kernelbench_helpers.py:44-47 | a cached runtime is used exactly for the uuid, reference code and validation state it was stored under, by requests that use the cache |
| Verdicts.AnswersSay | kernelgym/workflow/kernelbench.py:57-146 | every answered request repeats the flags and runtime of a complete kernel reply, with status, message and code if there is no comparison, and failed otherwise |
| Verdicts.ComparisonsSay | kernelgym/schema/result.py:200-243 | runtimes, ratio, status, message and code of every comparison, from the two replies or the cache |
| Verdicts.RaisesExactly | kernelgym/workflow/kernelbench.py:195-213 | a request raises exactly for an incomplete reference reply or one of another evaluation |
| Verdicts.RunIsReported | kernelgym/schema/result.py:117-149 | from running a kernel to the evaluation: its flags and runtime, and what it is blamed for |
| Verdicts.FailureIsReported | kernelgym/worker/gpu_worker.py:353-441 | from a kernel task that did not come to a run to the evaluation: what was in the way, in words and code |
| Verdicts.ReferenceAnswers | kernelgym/toolkit/kernelbench/toolkit.py:184-267 | what a worker answers for a reference: the middle one of three timings, or the failure in words and code |
| WorkflowResults.WorkerKernel | kernelgym/schema/result.py:72-149 | a kernel reply built by a worker has every field, belongs to the request, and completed exactly if it compiled |
| WorkflowResults.WorkerReference | kernelgym/toolkit/kernelbench/toolkit.py:184-267 | a reference reply built by a worker has every field and, unless completed, no positive runtime |
| WorkflowResults.CombineMeans | kernelgym/schema/result.py:200-243 | when a speedup is non-zero and what it is; completed exactly when both halves are |
| WorkflowResults.SpeedupExactly | kernelgym/workflow/kernelbench.py:110-216 | for any replies, a non-zero speedup is the true ratio, and is reported as completed exactly when kernel and reference replies say so |
| WorkflowResults.FailedIsNeverSlow | kernelgym/workflow/kernelbench.py:57-216 | with replies built by workers a request never raises, and a non-zero speedup means completed, compiled, correct, positive runtimes |
| WorkflowResults.FailedWithSpeedup | kernelgym/schema/result.py:204-229 | a failed reference reply with a positive runtime makes a failed evaluation with a speedup |
| WorkflowResults.HandleCaches | kernelgym/workflow/kernelbench.py:148-206 | one request changes the cached runtime of a problem only by filling it with what it timed |
| WorkflowResults.CacheIsWriteOnce | kernelgym/workflow/kernelbench_helpers.py:40-52 | over any sequential run the cache holds the first runtime timed per uuid, reference and validation state |
| WorkflowResults.ReportsFirstTimed | kernelgym/workflow/kernelbench.py:148-213 | a cache-enabled request that reaches combination reports that first runtime |
| WorkflowResults.DenominatorIsFixed | kernelgym/workflow/kernelbench.py:148-213 | all such requests with the same key report the same reference runtime |
| WorkflowResults.FailedReferenceIsReused | kernelgym/workflow/kernelbench.py:193-206 | a failed reference is cached too: later good kernels get speedup 0 and count as completed |
| WorkflowResults.FillsIsFirstTimer | kernelgym/workflow/kernelbench.py:193-206 | over any sequential run the request that fills the cache for a problem is the first that timed its reference |
| WorkflowResults.CachedFromCompletedExactly | kernelgym/workflow/kernelbench.py:193-206 | the cached runtime comes from a completed run exactly when the first request that timed the reference got a completed reply |
| WorkflowResults.WritesFirstCompletedExactly | kernelgym/workflow/kernelbench.py:193-206 | the first completed run is what is cached, if and only if the first timing of the reference did not fail |
| WorkflowResults.FirstRunDecides | kernelgym/workflow/kernelbench.py:148-213 | a combined kernel gets a non-zero speedup exactly when its runtime and the first timed one are positive, and against the cache it completes exactly when its own half did |
| GpuWorker.AnswerIsNormalised | kernelgym/worker/gpu_worker.py:413-441 | the stored status is completed or failed, completed exactly if the pool run said so, and a failure carries a message and a code |
| GpuWorker.FailureHasShape | kernelgym/worker/gpu_worker.py:443-500 | a task that raised is answered in the shape of its type, with every runtime -1 |
| GpuWorker.GPUWorker.ProcessToolkitTask | kernelgym/worker/gpu_worker.py:413-441 | one normalised answer and one count, or an exception and neither |
| GpuWorker.GPUWorker.ProcessTask | kernelgym/worker/gpu_worker.py:353-411 | every taken task gets exactly one answer and one count, and the counters stay those of the answers |
| GpuWorker.GPUWorker.ProcessAll | kernelgym/worker/gpu_worker.py:353-411 | tasks are answered one by one in order, completed + failed = processed throughout |
| Aggregation.FoldDecides | evals/agg_eval.py:107-115 | the fold over a sample decides exactly whether a correct turn reaches a positive threshold; failed turns never count |
| Aggregation.FoldNeedsPositiveThreshold | evals/agg_eval.py:107-115 | the fold decides that for every list of turns, if and only if the threshold is positive |
| Aggregation.PerProblemDecides | evals/agg_eval.py:92-116 | a problem's list says whether some sample in some turn was correct, or fast |
| Aggregation.CollectPerProblem | evals/agg_eval.py:92-116 | the table of the samples, `PerProblem` |
| Aggregation.SummarizeRun | evals/agg_eval.py:119-142 | the counts of a table |
| Aggregation.AggregateRun | evals/agg_eval.py:92-142 | from samples to summary: problems, samples, problems with a correct turn, and problems with a correct turn at 1.2 or more |
| Aggregation.DirectoryOrderIrrelevant | evals/agg_eval.py:102-116 | the summary does not depend on directory order |
| Aggregation.TurnOrderIrrelevant | evals/agg_eval.py:109-114 | nor on the order of the turns |
| Aggregation.RatesAreOrdered | evals/agg_eval.py:139-142 | 0 <= fast@1.2 <= pass1_best <= 100, and sample_solve lies between 0 and 100 |
| AggregationCheck.BuildProblems | evals/compare_gs_eval.py:17-31 | the nested dictionary of the files, `Nest` |
| AggregationCheck.NestHolds | evals/compare_gs_eval.py:30 | the nested dictionary holds exactly the files |
| AggregationCheck.BestOfIsFast | evals/compare_gs_eval.py:45-46 | its best-of set is the set of problems with a correct turn at the threshold |
| AggregationCheck.AggregatorsAgree | evals/compare_gs_eval.py:45-47 | both aggregators count the same fast problems, and agree on the rate where every problem has a turn |
| AggregationCheck.Pass1AgreesExactly | evals/compare_gs_eval.py:55-57 | the two pass1_best counts agree exactly when no problem is solved only below speedup 1 |
| AggregationCheck.SinglePassMeans | evals/compare_gs_eval.py:39-41 | a sample is counted exactly when its last turn is fast and not numbered 0 |
| AggregationCheck.SingleCountsExactly | evals/compare_gs_eval.py:38-41 | the single-pass count is the number of samples whose last turn is fast, if and only if every fast turn 0 is followed by another turn of its sample; never more |
| Coverage.ComputeTritonKernelCoverage | kernelgym/toolkit/kernelbench/profiling.py:28-65 | the lists, counts and times, with "not in profiling" tested against all profiler kernels |
| Coverage.MatchedSuffice | kernelgym/toolkit/kernelbench/profiling.py:50-56 | testing names against the matched kernels only gives the same list as testing against all |
| Coverage.MatchedTimes | kernelgym/toolkit/kernelbench/profiling.py:41-48 | matched kernels are at most all, their CUDA time at most the CUDA time |
| Coverage.CoverageReport | kernelgym/toolkit/kernelbench/profiling.py:17-65 | the partition of names and kernels, custom count <= total, custom CUDA time <= total time |
| Coverage.MatchesExactly | kernelgym/toolkit/kernelbench/profiling.py:20-27 | two names match exactly when, letter case aside, one is within the other |
| Coverage.LowerMeans | kernelgym/toolkit/kernelbench/profiling.py:21-22 | lowering changes exactly the 26 capitals |
| Coverage.FirstWordMeans | kernelgym/toolkit/kernelbench/profiling.py:31 | the captured name is what stands before the first space |
| JsonSafe.FixedExactly | kernelgym/schema/serialization.py:12-29 | a value is left alone exactly when it is JSON data within the depth limit |
| JsonSafe.SafeExactly | kernelgym/schema/serialization.py:12-29 | the output is safe exactly when the enumeration members reached hold safe values |
| JsonSafe.IdempotentExactly | kernelgym/schema/serialization.py:12-29 | normalising twice is normalising once, at any depth, exactly under that condition |
| JsonSafe.EnumKeepsItsTuple | kernelgym/schema/serialization.py:18-19 | a member that holds a tuple is returned as the tuple |
| JsonSafe.NestingIsBoundedExactly | kernelgym/schema/serialization.py:12-29 | output nesting is bounded by the depth limit exactly when the values of the members reached are |
| JsonSafe.EnumNestsDeeper | kernelgym/schema/serialization.py:18-19 | for every depth beyond the bound, a member whose output is that deep |
| JsonPaths.PathsSurvive | kernelgym/schema/serialization.py:12-29 | down to ten levels, at every path that meets no enumeration member the output has what the input has there, normalised, and nothing else |
| JsonPaths.EndOfPath | kernelgym/schema/serialization.py:14-29 | what becomes of each kind of value at the end of a path |
| JsonSafe.CodesMean | kernelgym/schema/serialization.py:32-53 | how codes are read back and written, by their text |
| JsonSafe.CodeStableExactly | kernelgym/schema/serialization.py:32-53 | a serialised error code survives coercion and serialisation exactly when it is not a member whose value is a member |
| JsonSafe.WireFormStableExactly | kernelgym/schema/result.py:166-178 | to_dict(from_dict(to_dict(r))) = to_dict(r), exactly when metadata members hold safe values and the code is not a member whose value is a member |
| JsonSafe.DeclaredCodesAreStable | kernelgym/schema/serialization.py:32-53 | codes of the declared types always are, and ErrorCode members round-trip |

## Left out

- Torch, CUDA, Triton and profiler calls: running a kernel is an outcome chosen by the environment.
- HTTP routes, request models, settings and logging.
- Killing processes, resetting GPUs and starting workers in the monitor: a restart succeeds or fails.
- The persistent-mode search for missing processes, except that it flags workers like any other check.
- Error classification and code search by regular expressions; the classifier is a parameter.
- Legacy key prefixes, Redis expiry, crashes between steps, and retry bookkeeping.
- The capturing wrappers themselves, and descriptors such as class methods, which `setattr` of the looked-up
  value would not restore.
- The metadata dictionaries of results, except for their normalisation, and the timing fields of replies.
- Non-ASCII letter case in kernel names, and the order of keys in a normalised dictionary when two keys
  become equal.
- File discovery, parsing and printing in the aggregation scripts.
- WorkflowResults.DenominatorIsFixed: requests are handled one after another and the key hash is injective,
  because concurrent misses overwrite each other in the source.
- MethodPatch.ExitRestoresLookup: single inheritance only; for other hierarchies MethodPatch.ExitRestoresExactly
  has the exact condition, because the promise is false for diamonds.
- WorkerMonitor.RestartsAreTracked: one open request per worker only while no restart has failed, because a
  failed one is queued again and then unmarked; WorkerMonitor.OneRequestEachExactly has the exact condition.
- QueuePass.PassKeepsOrder: other agents may submit and work on other queues but not consume from the scanned
  one, and the empty id is excluded, because a pass drops it.
