/**
 The worker pool as a state machine: any number of `execute_task` coroutines, child
 processes that take, finish or die at any moment, and an environment that decides when
 waits expire and whether processes start. One event is what happens between two
 interleaving points; an event that is not enabled changes nothing.
 */
module PoolProtocol {
  import opened Common
  import opened PoolSpec

  type WorkerId = nat

  /** What the executor thread brought back. `Expired` ends the retry loop, `Refused` does not. */
  datatype Ending = Replied(reply: Reply) | Expired | Refused

  datatype CallResult = Returned(reply: Reply, via: WorkerId) | TimeoutRaised | RuntimeRaised

  datatype Phase =
    | Acquiring(retries: nat)                              // polling in _get_idle_worker
    | Recovering(retries: nat)                             // emergency sleep, lock held
    | Assigned(retries: nat, w: WorkerId)                  // handed to the executor
    | Waiting(retries: nat, w: WorkerId)                   // task sent, waiting for a reply
    | Settling(retries: nat, w: WorkerId, end: Ending)     // back on the event loop
    | Restarting(retries: nat, w: WorkerId, end: Ending)   // waiting for the lock to restart w
    | Returning(retries: nat, w: WorkerId, end: Ending)    // the finally clause
    | Done(result: CallResult)
  {
    predicate Holding() { Assigned? || Waiting? || Settling? || Restarting? || Returning? }
  }

  /** One run of a task by a child, to its end. */
  datatype Execution = Execution(via: WorkerId, outcome: Outcome)

  /** `sentTo` and `runs` are history: every worker whose queue received this call's task, and
      every run of it by a child, in order. The source keeps neither. */
  datatype Call = Call(maxRetries: int, phase: Phase, sentTo: seq<WorkerId>, runs: seq<Execution>)

  datatype Pool = Pool(
    size: nat,
    cap: int,
    lists: Lists<WorkerId>,
    worker: map<WorkerId, Worker>,    // every PersistentWorker ever created
    calls: map<CallId, Call>,
    lock: Option<CallId>)             // holder of the asyncio lock across an await

  datatype Event =
    | Start(c: CallId, maxRetries: int)
    | Poll(c: CallId)
    | StopPolling(c: CallId)
    | Recover(c: CallId, started: Option<WorkerId>)
    | SendTask(c: CallId)
    | ReceiveReply(c: CallId)
    | Expire(c: CallId)
    | Settle(c: CallId)
    | Restart(c: CallId, killed: bool, started: Option<WorkerId>)
    | Return(c: CallId)
    | ChildTakes(w: WorkerId)
    | ChildFinishes(w: WorkerId, outcome: Outcome)
    | ProcessDies(w: WorkerId)

  /** `_init_workers`: attempt i succeeds iff started[i]. The ids of those that came up. */
  function StartedIds(started: seq<bool>): seq<WorkerId> {
    if started == [] then []
    else
      var n := |started| - 1;
      StartedIds(started[..n]) + (if started[n] then [n] else [])
  }

  /** The pool right after its constructor; the constructor raises unless some worker started
      (or no worker was asked for). */
  function Initial(started: seq<bool>, cap: int, namesTimeout: bool): Pool {
    var ids := StartedIds(started);
    Pool(|started|, cap, Lists(ids, ids, []),
         map w: nat | w in ids :: NewWorker(cap, namesTimeout),
         map[], None)
  }

  function PhaseOf(s: Pool, c: CallId): Phase
    requires c in s.calls
  {
    s.calls[c].phase
  }

  /** Call c runs, and the worker it holds, if any, is one that was created. */
  predicate Known(s: Pool, c: CallId) {
    c in s.calls && (PhaseOf(s, c).Holding() ==> PhaseOf(s, c).w in s.worker)
  }

  function GoTo(s: Pool, c: CallId, p: Phase): Pool
    requires c in s.calls
  {
    s.(calls := s.calls[c := s.calls[c].(phase := p)])
  }

  predicate IsFresh(s: Pool, started: Option<WorkerId>) {
    started.Some? ==> started.value !in s.worker
  }

  predicate Enabled(s: Pool, e: Event) {
    match e
    case Start(c, _) => c !in s.calls
    case Poll(c) => Known(s, c) && PhaseOf(s, c).Acquiring? && s.lock.None?
    case StopPolling(c) => Known(s, c) && PhaseOf(s, c).Acquiring?
    case Recover(c, started) => Known(s, c) && PhaseOf(s, c).Recovering? && IsFresh(s, started)
    case SendTask(c) => Known(s, c) && PhaseOf(s, c).Assigned?
    case ReceiveReply(c) =>
      Known(s, c) && PhaseOf(s, c).Waiting? && s.worker[PhaseOf(s, c).w].replies != []
    case Expire(c) => Known(s, c) && PhaseOf(s, c).Waiting?
    case Settle(c) => Known(s, c) && PhaseOf(s, c).Settling?
    case Restart(c, _, started) =>
      Known(s, c) && PhaseOf(s, c).Restarting? && s.lock.None? && IsFresh(s, started)
    case Return(c) => Known(s, c) && PhaseOf(s, c).Returning? && s.lock.None?
    case ChildTakes(w) => w in s.worker && CanTake(s.worker[w])
    case ChildFinishes(w, _) =>
      w in s.worker && CanFinish(s.worker[w]) && s.worker[w].child.call in s.calls
    case ProcessDies(w) => w in s.worker
  }

  /** After an attempt without an answer: loop while retry_count <= max_retries. */
  function NextAttempt(maxRetries: int, retries: nat): Phase {
    if retries + 1 <= maxRetries then Acquiring(retries + 1) else Done(RuntimeRaised)
  }

  function LiveIds(s: Pool): set<WorkerId> {
    set w | w in s.worker && Alive(s.worker[w])
  }

  /** The body of the lock-protected block of `_get_idle_worker`, up to its await or its exit. */
  function PollStep(s: Pool, c: CallId): Pool
    requires Known(s, c) && PhaseOf(s, c).Acquiring?
  {
    var r := PhaseOf(s, c).retries;
    var lists := Prune(s.lists, LiveIds(s));
    if NoWorkers(lists) then GoTo(s.(lists := lists, lock := Some(c)), c, Recovering(r))
    else if lists.idle != [] then
      GoTo(s.(lists := TakeIdle(lists)), c, Assigned(r, lists.idle[0]))
    else s.(lists := lists)
  }

  /** The rest of that block after the emergency sleep. */
  function RecoverStep(s: Pool, c: CallId, started: Option<WorkerId>): Pool
    requires Known(s, c) && PhaseOf(s, c).Recovering? && IsFresh(s, started)
  {
    var r := PhaseOf(s, c).retries;
    match started
    case None =>
      if s.lists.idle != [] then
        GoTo(s.(lists := TakeIdle(s.lists), lock := None), c, Assigned(r, s.lists.idle[0]))
      else GoTo(s.(lock := None), c, Acquiring(r))
    case Some(w) =>
      var lists := AddFresh(s.lists, w);
      GoTo(s.(worker := s.worker[w := NewWorker(s.cap, false)], lists := TakeIdle(lists), lock := None),
           c, Assigned(r, lists.idle[0]))
  }

  function SendStep(s: Pool, c: CallId): Pool
    requires Known(s, c) && PhaseOf(s, c).Assigned?
  {
    var p := PhaseOf(s, c);
    var (v, status) := Send(s.worker[p.w], c);
    if status.Sent? then
      s.(worker := s.worker[p.w := v],
         calls := s.calls[c := s.calls[c].(phase := Waiting(p.retries, p.w), sentTo := s.calls[c].sentTo + [p.w])])
    else
      // The error text starts with the worker id and is searched for the word "timeout".
      GoTo(s, c, Settling(p.retries, p.w, if v.namesTimeout then Expired else Refused))
  }

  /** The worker is shut down and struck off the lists... */
  function RetireStep(s: Pool, c: CallId, killed: bool): Pool
    requires Known(s, c) && PhaseOf(s, c).Restarting?
  {
    var p := PhaseOf(s, c);
    GoTo(s.(worker := s.worker[p.w := ShutDown(s.worker[p.w], killed)], lists := Drop(s.lists, p.w)),
         c, Returning(p.retries, p.w, p.end))
  }

  /** ...and a worker with the same kind of name takes its place if its process starts. */
  function RestartStep(s: Pool, c: CallId, killed: bool, started: Option<WorkerId>): Pool
    requires Known(s, c) && PhaseOf(s, c).Restarting? && IsFresh(s, started)
  {
    var retired := RetireStep(s, c, killed);
    match started
    case None => retired
    case Some(w) => AddWorker(retired, w, s.worker[PhaseOf(s, c).w].namesTimeout)
  }

  function AddWorker(s: Pool, w: WorkerId, namesTimeout: bool): Pool {
    s.(worker := s.worker[w := NewWorker(s.cap, namesTimeout)], lists := AddFresh(s.lists, w))
  }

  function ReturnStep(s: Pool, c: CallId): Pool
    requires Known(s, c) && PhaseOf(s, c).Returning?
  {
    var p := PhaseOf(s, c);
    var next := match p.end
      case Replied(reply) => Done(Returned(reply, p.w))
      case Expired => Done(TimeoutRaised)
      case Refused => NextAttempt(s.calls[c].maxRetries, p.retries);
    GoTo(s.(lists := Release(s.lists, p.w, Alive(s.worker[p.w]))), c, next)
  }

  function Apply(s: Pool, e: Event): Pool
    requires Enabled(s, e)
  {
    match e
    case Start(c, maxRetries) =>
      s.(calls := s.calls[c := Call(maxRetries, if maxRetries < 0 then Done(RuntimeRaised) else Acquiring(0), [], [])])
    case Poll(c) => PollStep(s, c)
    case StopPolling(c) => GoTo(s, c, NextAttempt(s.calls[c].maxRetries, PhaseOf(s, c).retries))
    case Recover(c, started) => RecoverStep(s, c, started)
    case SendTask(c) => SendStep(s, c)
    case ReceiveReply(c) =>
      var p := PhaseOf(s, c);
      GoTo(s.(worker := s.worker[p.w := Receive(s.worker[p.w])]), c,
           Settling(p.retries, p.w, Replied(s.worker[p.w].replies[0])))
    case Expire(c) =>
      var p := PhaseOf(s, c);
      GoTo(s.(worker := s.worker[p.w := GiveUp(s.worker[p.w])]), c, Settling(p.retries, p.w, Expired))
    case Settle(c) =>
      var p := PhaseOf(s, c);
      if p.end.Replied? && Alive(s.worker[p.w]) then GoTo(s, c, Returning(p.retries, p.w, p.end))
      else GoTo(s, c, Restarting(p.retries, p.w, p.end))
    case Restart(c, killed, started) => RestartStep(s, c, killed, started)
    case Return(c) => ReturnStep(s, c)
    case ChildTakes(w) => s.(worker := s.worker[w := Take(s.worker[w])])
    case ChildFinishes(w, outcome) =>
      var c := s.worker[w].child.call;
      s.(worker := s.worker[w := Finish(s.worker[w], outcome)],
         calls := s.calls[c := s.calls[c].(runs := s.calls[c].runs + [Execution(w, outcome)])])
    case ProcessDies(w) => s.(worker := s.worker[w := Die(s.worker[w])])
  }

  function Step(s: Pool, e: Event): Pool {
    if Enabled(s, e) then Apply(s, e) else s
  }

  function Run(s: Pool, events: seq<Event>): Pool
    decreases |events|
  {
    if events == [] then s else Run(Step(s, events[0]), events[1..])
  }
}
