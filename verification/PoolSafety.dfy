/**
 What every run of the worker pool keeps: exclusive holding, clean channels, reply
 matching, at-most-once dispatch and execution, the size bound and the task cap.
 */
module PoolSafety {
  import opened Common
  import opened PoolSpec
  import opened PoolProtocol

  // ---- the invariant ----

  predicate Quiet(v: Worker) {
    && v.flag && v.tasks == [] && v.replies == [] && v.child.Ready?
    && v.sent == v.processed && v.processed < TaskAllowance(v.cap)
  }

  /** Exactly one trace of c's task is in the channels of its worker: queued, running, or answered. */
  predicate Outstanding(c: CallId, call: Call, w: WorkerId, v: Worker) {
    && v.flag && v.sent == v.processed + 1 && v.processed < TaskAllowance(v.cap)
    && (|| (v.tasks == [Execute(c)] && v.child.Ready? && v.replies == [])
        || (v.tasks == [] && v.child == Running(c) && v.replies == [])
        || (&& v.tasks == [] && |v.replies| == 1 && v.replies[0].call == c
            && v.child == (if v.replies[0].Exiting() then Exited else Ready)
            && call.runs == [Execution(w, v.replies[0].outcome)]))
  }

  ghost predicate ListsOk(s: Pool) {
    && WellFormed(s.lists)
    && |s.lists.workers| <= (if s.size < 1 then 1 else s.size)
    && (forall w :: w in s.lists.workers ==> w in s.worker)
  }

  ghost predicate LockOk(s: Pool) {
    && (s.lock.Some? ==> s.lock.value in s.calls && PhaseOf(s, s.lock.value).Recovering?)
    && (forall c :: c in s.calls && PhaseOf(s, c).Recovering? ==> s.lock == Some(c) && NoWorkers(s.lists))
  }

  predicate HoldOk(s: Pool, c: CallId)
    requires c in s.calls
  {
    var p := PhaseOf(s, c);
    p.Holding() ==>
      && p.w in s.worker && p.w !in s.lists.idle
      && (p.w in s.lists.workers ==> p.w in s.lists.busy)
      && (p.w !in s.lists.workers ==> p.Returning? && !s.worker[p.w].flag)
  }

  ghost predicate HoldsOk(s: Pool) { forall c {:trigger HoldOk(s, c)} :: c in s.calls ==> HoldOk(s, c) }

  /** No worker is held by two calls. */
  ghost predicate Exclusive(s: Pool) {
    forall c, d | c in s.calls && d in s.calls && PhaseOf(s, c).Holding() && PhaseOf(s, d).Holding() ::
      PhaseOf(s, c).w == PhaseOf(s, d).w ==> c == d
  }

  ghost predicate Held(s: Pool, w: WorkerId) {
    exists c :: c in s.calls && PhaseOf(s, c).Holding() && PhaseOf(s, c).w == w
  }

  ghost predicate BusyHeld(s: Pool) { forall w {:trigger Held(s, w)} :: w in s.lists.busy ==> Held(s, w) }

  /** The reply was produced by the child of w while running c's task, which was sent to w alone. */
  predicate Matches(c: CallId, call: Call, w: WorkerId, reply: Reply) {
    reply.call == c && call.runs == [Execution(w, reply.outcome)] && call.sentTo == [w]
  }

  predicate Unsent(call: Call) { call.sentTo == [] && call.runs == [] }

  predicate EndingOk(named: bool, c: CallId, call: Call, w: WorkerId, end: Ending) {
    match end
    case Replied(reply) => Matches(c, call, w, reply)
    case Expired => call.sentTo == [w] || (named && Unsent(call))
    case Refused => Unsent(call)
  }

  /** The phase of a call that holds worker w, whose value is v. */
  predicate HolderOk(named: bool, c: CallId, call: Call, w: WorkerId, v: Worker) {
    match call.phase
    case Assigned(r, _) => r <= call.maxRetries && Unsent(call) && Quiet(v)
    case Waiting(r, _) => r <= call.maxRetries && call.sentTo == [w] && Outstanding(c, call, w, v)
    case Settling(r, _, end) => r <= call.maxRetries && EndingOk(named, c, call, w, end) && (v.flag ==> Quiet(v))
    case Restarting(r, _, end) => r <= call.maxRetries && EndingOk(named, c, call, w, end) && (v.flag ==> Quiet(v))
    case Returning(r, _, end) => r <= call.maxRetries && EndingOk(named, c, call, w, end) && (v.flag ==> Quiet(v))
    case _ => true
  }

  /** The phase of a call that holds no worker. */
  predicate FreeOk(named: bool, c: CallId, call: Call) {
    match call.phase
    case Acquiring(r) => r <= call.maxRetries && Unsent(call)
    case Recovering(r) => r <= call.maxRetries && Unsent(call)
    case Done(Returned(reply, w)) => Matches(c, call, w, reply)
    case Done(TimeoutRaised) => |call.sentTo| == 1 || (named && Unsent(call))
    case Done(RuntimeRaised) => Unsent(call)
    case _ => true
  }

  predicate CallOk(s: Pool, named: bool, c: CallId)
    requires c in s.calls
  {
    var call := s.calls[c];
    && (call.phase.Holding() ==>
          call.phase.w in s.worker && HolderOk(named, c, call, call.phase.w, s.worker[call.phase.w]))
    && (!call.phase.Holding() ==> FreeOk(named, c, call))
    && |call.runs| <= |call.sentTo| <= 1
    && (call.runs != [] ==> call.sentTo == [call.runs[0].via])
  }

  ghost predicate CallsOk(s: Pool, named: bool) {
    forall c {:trigger CallOk(s, named, c)} :: c in s.calls ==> CallOk(s, named, c)
  }

  predicate Token(s: Pool, w: WorkerId, c: CallId) {
    c in s.calls && s.calls[c].sentTo == [w] && s.calls[c].runs == []
  }

  /** A task still queued at or running in w was sent to w alone and has never been run. */
  predicate WorkerOk(s: Pool, named: bool, w: WorkerId)
    requires w in s.worker
  {
    var v := s.worker[w];
    && v.cap == s.cap && v.sent <= TaskAllowance(s.cap) && (v.namesTimeout ==> named)
    && (forall i :: 1 <= i < |v.tasks| ==> v.tasks[i].Shutdown?)
    && (v.tasks != [] && v.tasks[0].Execute? ==>
          Token(s, w, v.tasks[0].call) && v.child != Running(v.tasks[0].call))
    && (v.child.Running? ==> Token(s, w, v.child.call))
  }

  ghost predicate WorkersOk(s: Pool, named: bool) {
    && (forall w {:trigger WorkerOk(s, named, w)} :: w in s.worker ==> WorkerOk(s, named, w))
    && (forall w :: w in s.lists.idle ==> w in s.worker && Quiet(s.worker[w]))
  }

  /** Who holds what, and where it is listed. */
  ghost predicate ListSide(s: Pool) {
    ListsOk(s) && LockOk(s) && HoldsOk(s) && Exclusive(s) && BusyHeld(s)
  }

  /** What the channels and the histories contain. */
  ghost predicate ValueSide(s: Pool, named: bool) { WorkersOk(s, named) && CallsOk(s, named) }

  ghost predicate Inv(s: Pool, named: bool) { ListSide(s) && ValueSide(s, named) }

  // ---- it holds initially ----

  lemma {:induction false} StartedIdsDistinct(started: seq<bool>)
    ensures Distinct(StartedIds(started)) && |StartedIds(started)| <= |started|
    ensures forall w :: w in StartedIds(started) <==> 0 <= w < |started| && started[w]
  {
    if started != [] {
      var n := |started| - 1;
      StartedIdsDistinct(started[..n]);
      assert n !in StartedIds(started[..n]);
    }
  }

  lemma InitialInv(started: seq<bool>, cap: int, namesTimeout: bool)
    ensures Inv(Initial(started, cap, namesTimeout), namesTimeout)
  {
    var s := Initial(started, cap, namesTimeout);
    StartedIdsDistinct(started);
    forall w | w in s.worker ensures WorkerOk(s, namesTimeout, w) {
    }
    assert s.calls == map[];
    assert ListSide(s) && CallsOk(s, namesTimeout);
  }

  // ---- the list side of every step ----

  /** A step that moves no worker between lists and makes no call start or stop holding one. */
  lemma SameLists(s: Pool, t: Pool)
    requires ListSide(s)
    requires t.size == s.size && t.lists == s.lists && t.lock == s.lock && t.worker.Keys == s.worker.Keys
    requires s.calls.Keys <= t.calls.Keys
    requires forall d :: d in t.calls && d !in s.calls ==> !PhaseOf(t, d).Holding() && !PhaseOf(t, d).Recovering?
    requires forall d :: d in s.calls ==>
               && (PhaseOf(t, d).Holding() <==> PhaseOf(s, d).Holding())
               && (PhaseOf(t, d).Recovering? <==> PhaseOf(s, d).Recovering?)
               && (PhaseOf(s, d).Returning? ==> PhaseOf(t, d).Returning?)
               && (PhaseOf(s, d).Holding() ==> PhaseOf(t, d).w == PhaseOf(s, d).w)
    requires forall w :: w in s.worker && t.worker[w].flag ==> s.worker[w].flag
    ensures ListSide(t)
  {
    forall d | d in t.calls ensures HoldOk(t, d) {
      assert d in s.calls ==> HoldOk(s, d);
    }
    forall w | w in t.lists.busy ensures Held(t, w) {
      assert Held(s, w);
      var d :| d in s.calls && PhaseOf(s, d).Holding() && PhaseOf(s, d).w == w;
      assert PhaseOf(t, d).Holding() && PhaseOf(t, d).w == w;
    }
  }

  /** Pruning the idle list. */
  lemma PruneLists(s: Pool)
    requires ListSide(s)
    ensures ListSide(s.(lists := Prune(s.lists, LiveIds(s))))
  {
    var t := s.(lists := Prune(s.lists, LiveIds(s)));
    PruneWellFormed(s.lists, LiveIds(s));
    forall d | d in t.calls ensures HoldOk(t, d) {
      assert HoldOk(s, d);
    }
    forall w | w in t.lists.busy ensures Held(t, w) {
      assert Held(s, w);
      var d :| d in s.calls && PhaseOf(s, d).Holding() && PhaseOf(s, d).w == w;
      assert PhaseOf(t, d).Holding() && PhaseOf(t, d).w == w;
    }
  }

  /** Handing the first idle worker to c. */
  lemma TakeLists(s: Pool, c: CallId, w0: WorkerId)
    requires ListSide(s) && c in s.calls && !PhaseOf(s, c).Holding() && !PhaseOf(s, c).Recovering?
    requires s.lists.idle != [] && s.lists.idle[0] == w0
    ensures ListSide(GoTo(s.(lists := TakeIdle(s.lists)), c, Assigned(0, w0)))
  {
    var t := GoTo(s.(lists := TakeIdle(s.lists)), c, Assigned(0, w0));
    TakeIdleWellFormed(s.lists);
    forall d | d in t.calls
      ensures HoldOk(t, d) && (d != c && PhaseOf(t, d).Holding() ==> PhaseOf(t, d).w != w0)
    {
      assert HoldOk(s, d);
    }
    forall w | w in t.lists.busy ensures Held(t, w) {
      assert PhaseOf(t, c).Holding() && PhaseOf(t, c).w == w0;
      if w != w0 {
        assert Held(s, w);
        var d :| d in s.calls && PhaseOf(s, d).Holding() && PhaseOf(s, d).w == w;
        assert PhaseOf(t, d).Holding() && PhaseOf(t, d).w == w;
      }
    }
  }

  lemma PollLists(s: Pool, c: CallId)
    requires ListSide(s) && Enabled(s, Poll(c))
    ensures ListSide(Apply(s, Poll(c)))
  {
    var t := Apply(s, Poll(c));
    var p := s.(lists := Prune(s.lists, LiveIds(s)));
    PruneLists(s);
    if NoWorkers(p.lists) {
      forall d | d in t.calls ensures HoldOk(t, d) {
        assert HoldOk(p, d);
      }
    } else if p.lists.idle != [] {
      var w0 := p.lists.idle[0];
      TakeLists(p, c, w0);
      SameLists(GoTo(p.(lists := TakeIdle(p.lists)), c, Assigned(0, w0)), t);
    }
  }

  /** In the emergency sleep there is no worker at all; afterwards there is at most the new one. */
  lemma RecoverLists(s: Pool, c: CallId, started: Option<WorkerId>)
    requires ListSide(s) && Enabled(s, Recover(c, started))
    ensures ListSide(Apply(s, Recover(c, started)))
  {
    var t := Apply(s, Recover(c, started));
    assert NoWorkers(s.lists);
    forall d | d in t.calls
      ensures HoldOk(t, d)
      ensures d != c && PhaseOf(t, d).Holding() ==> PhaseOf(t, d).w in s.worker
    {
      assert HoldOk(s, d);
    }
    forall w | w in t.lists.busy ensures Held(t, w) {
      assert PhaseOf(t, c).Holding() && PhaseOf(t, c).w == w;
    }
  }

  /** Dropping the worker c is about to restart. */
  lemma DropLists(s: Pool, t: Pool, c: CallId)
    requires ListSide(s) && Known(s, c) && PhaseOf(s, c).Restarting? && s.lock.None?
    requires t == GoTo(s.(worker := s.worker[PhaseOf(s, c).w := ShutDown(s.worker[PhaseOf(s, c).w], true)],
                          lists := Drop(s.lists, PhaseOf(s, c).w)),
                       c, Returning(PhaseOf(s, c).retries, PhaseOf(s, c).w, PhaseOf(s, c).end))
    ensures ListSide(t)
    ensures |t.lists.workers| < (if s.size < 1 then 1 else s.size)
  {
    var w := PhaseOf(s, c).w;
    assert HoldOk(s, c);
    DropWellFormed(s.lists, w);
    forall d | d in t.calls ensures HoldOk(t, d) {
      assert HoldOk(s, d);
    }
    forall x | x in t.lists.busy ensures Held(t, x) {
      assert Held(s, x);
      var d :| d in s.calls && PhaseOf(s, d).Holding() && PhaseOf(s, d).w == x;
      assert PhaseOf(t, d).Holding() && PhaseOf(t, d).w == x;
    }
  }

  /** Listing a worker that has just been created. */
  lemma FreshLists(s: Pool, w: WorkerId, v: Worker)
    requires ListSide(s) && s.lock.None? && w !in s.worker
    requires |s.lists.workers| < (if s.size < 1 then 1 else s.size)
    ensures ListSide(s.(worker := s.worker[w := v], lists := AddFresh(s.lists, w)))
  {
    var t := s.(worker := s.worker[w := v], lists := AddFresh(s.lists, w));
    AddFreshWellFormed(s.lists, w);
    forall d | d in t.calls ensures HoldOk(t, d) {
      assert HoldOk(s, d);
    }
    forall x | x in t.lists.busy ensures Held(t, x) {
      assert Held(s, x);
      var d :| d in s.calls && PhaseOf(s, d).Holding() && PhaseOf(s, d).w == x;
      assert PhaseOf(t, d).Holding() && PhaseOf(t, d).w == x;
    }
  }

  lemma RestartLists(s: Pool, c: CallId, killed: bool, started: Option<WorkerId>)
    requires ListSide(s) && Enabled(s, Restart(c, killed, started))
    ensures ListSide(Apply(s, Restart(c, killed, started)))
  {
    var p := PhaseOf(s, c);
    var dropped := GoTo(s.(worker := s.worker[p.w := ShutDown(s.worker[p.w], true)], lists := Drop(s.lists, p.w)),
                        c, Returning(p.retries, p.w, p.end));
    DropLists(s, dropped, c);
    var left := dropped.(worker := s.worker[p.w := ShutDown(s.worker[p.w], killed)]);
    SameLists(dropped, left);
    if started.Some? {
      FreshLists(left, started.value, NewWorker(s.cap, s.worker[p.w].namesTimeout));
    }
  }

  lemma ReturnLists(s: Pool, c: CallId)
    requires ListSide(s) && Enabled(s, Return(c))
    ensures ListSide(Apply(s, Return(c)))
  {
    var t := Apply(s, Return(c));
    var w := PhaseOf(s, c).w;
    assert HoldOk(s, c);
    ReleaseWellFormed(s.lists, w, Alive(s.worker[w]));
    forall d | d in t.calls ensures HoldOk(t, d) {
      assert HoldOk(s, d);
    }
    forall x | x in t.lists.busy ensures Held(t, x) {
      assert Held(s, x);
      var d :| d in s.calls && PhaseOf(s, d).Holding() && PhaseOf(s, d).w == x;
      assert PhaseOf(t, d).Holding() && PhaseOf(t, d).w == x;
    }
  }

  lemma StartLists(s: Pool, e: Event)
    requires ListSide(s) && Enabled(s, e) && (e.Start? || e.StopPolling?)
    ensures ListSide(Apply(s, e))
  {
    SameLists(s, Apply(s, e));
  }

  lemma HolderLists(s: Pool, e: Event)
    requires ListSide(s) && Enabled(s, e)
    requires e.SendTask? || e.ReceiveReply? || e.Expire? || e.Settle?
    ensures ListSide(Apply(s, e))
  {
    SameLists(s, Apply(s, e));
  }

  lemma ChildLists(s: Pool, e: Event)
    requires ListSide(s) && Enabled(s, e) && (e.ChildTakes? || e.ChildFinishes? || e.ProcessDies?)
    ensures ListSide(Apply(s, e))
  {
    SameLists(s, Apply(s, e));
  }

  lemma StepLists(s: Pool, e: Event)
    requires ListSide(s) && Enabled(s, e)
    ensures ListSide(Apply(s, e))
  {
    match e
    case Poll(c) => PollLists(s, c);
    case Recover(c, started) => RecoverLists(s, c, started);
    case Restart(c, killed, started) => RestartLists(s, c, killed, started);
    case Return(c) => ReturnLists(s, c);
    case Start(_, _) => StartLists(s, e);
    case StopPolling(_) => StartLists(s, e);
    case ChildTakes(_) => ChildLists(s, e);
    case ChildFinishes(_, _) => ChildLists(s, e);
    case ProcessDies(_) => ChildLists(s, e);
    case _ => HolderLists(s, e);
  }

  // ---- the value side of every step ----

  /** The calls other than c, when only the worker c holds (or a new one) changes. */
  lemma OtherCalls(s: Pool, t: Pool, named: bool, c: CallId)
    requires HoldsOk(s) && Exclusive(s) && CallsOk(s, named)
    requires t.calls.Keys == s.calls.Keys + {c}
    requires forall d :: d in s.calls && d != c ==> t.calls[d] == s.calls[d]
    requires forall x :: x in s.worker ==> x in t.worker
    requires forall x :: x in s.worker && !(c in s.calls && PhaseOf(s, c).Holding() && PhaseOf(s, c).w == x)
                         ==> t.worker[x] == s.worker[x]
    ensures forall d {:trigger CallOk(t, named, d)} :: d in t.calls && d != c ==> CallOk(t, named, d)
  {
    forall d | d in t.calls && d != c ensures CallOk(t, named, d) {
      assert HoldOk(s, d) && CallOk(s, named, d);
    }
  }

  /** The workers other than w, when no history shrinks or changes owner. */
  lemma OtherWorkers(s: Pool, t: Pool, named: bool, w: WorkerId)
    requires WorkersOk(s, named) && t.cap == s.cap && s.calls.Keys <= t.calls.Keys
    requires forall x :: x in t.worker && x != w ==> x in s.worker && t.worker[x] == s.worker[x]
    requires forall d :: d in s.calls ==> t.calls[d].runs == s.calls[d].runs
    requires forall d :: d in s.calls && s.calls[d].sentTo != [] ==> t.calls[d].sentTo == s.calls[d].sentTo
    ensures forall x {:trigger WorkerOk(t, named, x)} :: x in t.worker && x != w ==> WorkerOk(t, named, x)
  {
    forall x | x in t.worker && x != w ensures WorkerOk(t, named, x) {
      assert WorkerOk(s, named, x);
    }
  }

  /** Events that touch neither a worker nor a history: only c's phase and the lists. */
  lemma PhaseValues(s: Pool, t: Pool, named: bool, c: CallId)
    requires HoldsOk(s) && Exclusive(s) && ValueSide(s, named)
    requires t.cap == s.cap && t.worker == s.worker && t.calls.Keys == s.calls.Keys + {c}
    requires forall d :: d in s.calls && d != c ==> t.calls[d] == s.calls[d]
    requires c in s.calls ==> t.calls[c].sentTo == s.calls[c].sentTo && t.calls[c].runs == s.calls[c].runs
    requires CallOk(t, named, c)
    requires forall w :: w in t.lists.idle ==> w in t.worker && Quiet(t.worker[w])
    ensures ValueSide(t, named)
  {
    OtherCalls(s, t, named, c);
    forall w | w in t.worker ensures WorkerOk(t, named, w) {
      assert WorkerOk(s, named, w);
    }
  }

  lemma PollValues(s: Pool, named: bool, c: CallId)
    requires ListsOk(s) && HoldsOk(s) && Exclusive(s) && ValueSide(s, named) && Enabled(s, Poll(c))
    ensures ValueSide(Apply(s, Poll(c)), named)
  {
    var t := Apply(s, Poll(c));
    PruneWellFormed(s.lists, LiveIds(s));
    assert CallOk(s, named, c);
    PhaseValues(s, t, named, c);
  }

  lemma RecoverWorkers(s: Pool, t: Pool, named: bool, c: CallId, started: Option<WorkerId>)
    requires WorkersOk(s, named) && Enabled(s, Recover(c, started)) && t == Apply(s, Recover(c, started))
    ensures forall x {:trigger WorkerOk(t, named, x)} :: x in t.worker ==> WorkerOk(t, named, x)
  {
    forall x | x in t.worker ensures WorkerOk(t, named, x) {
      assert x in s.worker ==> WorkerOk(s, named, x);
    }
  }

  lemma RecoverValues(s: Pool, named: bool, c: CallId, started: Option<WorkerId>)
    requires LockOk(s) && HoldsOk(s) && Exclusive(s) && ValueSide(s, named) && Enabled(s, Recover(c, started))
    ensures ValueSide(Apply(s, Recover(c, started)), named)
  {
    var t := Apply(s, Recover(c, started));
    assert NoWorkers(s.lists);
    assert CallOk(s, named, c);
    OtherCalls(s, t, named, c);
    RecoverWorkers(s, t, named, c, started);
  }

  lemma SendValues(s: Pool, named: bool, c: CallId)
    requires HoldsOk(s) && Exclusive(s) && ValueSide(s, named) && Enabled(s, SendTask(c))
    ensures ValueSide(Apply(s, SendTask(c)), named)
  {
    var t := Apply(s, SendTask(c));
    var w := PhaseOf(s, c).w;
    assert HoldOk(s, c) && CallOk(s, named, c) && WorkerOk(s, named, w);
    if Send(s.worker[w], c).1.Sent? {
      OtherCalls(s, t, named, c);
      OtherWorkers(s, t, named, w);
    } else {
      PhaseValues(s, t, named, c);
    }
  }

  lemma ReceiveValues(s: Pool, named: bool, c: CallId)
    requires HoldsOk(s) && Exclusive(s) && ValueSide(s, named) && Enabled(s, ReceiveReply(c))
    ensures ValueSide(Apply(s, ReceiveReply(c)), named)
  {
    var t := Apply(s, ReceiveReply(c));
    var w := PhaseOf(s, c).w;
    assert HoldOk(s, c) && CallOk(s, named, c) && WorkerOk(s, named, w);
    OtherCalls(s, t, named, c);
    OtherWorkers(s, t, named, w);
  }

  lemma ExpireValues(s: Pool, named: bool, c: CallId)
    requires HoldsOk(s) && Exclusive(s) && ValueSide(s, named) && Enabled(s, Expire(c))
    ensures ValueSide(Apply(s, Expire(c)), named)
  {
    var t := Apply(s, Expire(c));
    var w := PhaseOf(s, c).w;
    assert HoldOk(s, c) && CallOk(s, named, c) && WorkerOk(s, named, w);
    OtherCalls(s, t, named, c);
    OtherWorkers(s, t, named, w);
  }

  lemma SettleValues(s: Pool, named: bool, c: CallId)
    requires HoldsOk(s) && Exclusive(s) && ValueSide(s, named) && Enabled(s, Settle(c))
    ensures ValueSide(Apply(s, Settle(c)), named)
  {
    assert CallOk(s, named, c);
    PhaseValues(s, Apply(s, Settle(c)), named, c);
  }

  /** The retired worker keeps what is promised of its queue. */
  lemma ShutDownOk(s: Pool, t: Pool, named: bool, w: WorkerId, killed: bool)
    requires w in s.worker && WorkerOk(s, named, w) && t.cap == s.cap && s.calls.Keys <= t.calls.Keys
    requires w in t.worker && t.worker[w] == ShutDown(s.worker[w], killed)
    requires forall d :: d in s.calls ==> t.calls[d].runs == s.calls[d].runs && t.calls[d].sentTo == s.calls[d].sentTo
    ensures WorkerOk(t, named, w)
  {
    assert s.worker[w].tasks != [] ==> t.worker[w].tasks[0] == s.worker[w].tasks[0];
  }

  lemma RetireWorkers(s: Pool, named: bool, c: CallId, killed: bool)
    requires WorkersOk(s, named) && Known(s, c) && PhaseOf(s, c).Restarting?
    ensures var t := RetireStep(s, c, killed);
      forall x {:trigger WorkerOk(t, named, x)} :: x in t.worker ==> WorkerOk(t, named, x)
  {
    var w, t := PhaseOf(s, c).w, RetireStep(s, c, killed);
    assert WorkerOk(s, named, w);
    OtherWorkers(s, t, named, w);
    ShutDownOk(s, t, named, w, killed);
  }

  /** The retired worker and the one that replaces it. */
  lemma RestartWorkers(s: Pool, t: Pool, named: bool, c: CallId, killed: bool, started: Option<WorkerId>)
    requires WorkersOk(s, named) && Enabled(s, Restart(c, killed, started))
    requires t == Apply(s, Restart(c, killed, started))
    ensures forall x {:trigger WorkerOk(t, named, x)} :: x in t.worker ==> WorkerOk(t, named, x)
  {
    assert WorkerOk(s, named, PhaseOf(s, c).w);
    RetireWorkers(s, named, c, killed);
    if started.Some? {
      AddedWorker(RetireStep(s, c, killed), named, started.value, s.worker[PhaseOf(s, c).w].namesTimeout);
    }
  }

  lemma AddedWorker(s: Pool, named: bool, w: WorkerId, namesTimeout: bool)
    requires w !in s.worker && (namesTimeout ==> named)
    requires forall x {:trigger WorkerOk(s, named, x)} :: x in s.worker ==> WorkerOk(s, named, x)
    ensures var t := AddWorker(s, w, namesTimeout);
      forall x {:trigger WorkerOk(t, named, x)} :: x in t.worker ==> WorkerOk(t, named, x)
  {
    var t := AddWorker(s, w, namesTimeout);
    forall x | x in t.worker ensures WorkerOk(t, named, x) {
      assert x in s.worker ==> WorkerOk(s, named, x);
    }
  }

  lemma RestartIdle(s: Pool, t: Pool, named: bool, c: CallId, killed: bool, started: Option<WorkerId>)
    requires ListsOk(s) && WorkersOk(s, named) && Enabled(s, Restart(c, killed, started))
    requires t == Apply(s, Restart(c, killed, started))
    ensures forall x :: x in t.lists.idle ==> x in t.worker && Quiet(t.worker[x])
  {
    var w := PhaseOf(s, c).w;
    assert WorkerOk(s, named, w);
    DropWellFormed(s.lists, w);
  }

  lemma RetireCalls(s: Pool, named: bool, c: CallId, killed: bool)
    requires HoldsOk(s) && Exclusive(s) && CallsOk(s, named) && Known(s, c) && PhaseOf(s, c).Restarting?
    ensures CallsOk(RetireStep(s, c, killed), named)
  {
    assert CallOk(s, named, c);
    OtherCalls(s, RetireStep(s, c, killed), named, c);
  }

  lemma RestartCalls(s: Pool, t: Pool, named: bool, c: CallId, killed: bool, started: Option<WorkerId>)
    requires HoldsOk(s) && Exclusive(s) && CallsOk(s, named) && Enabled(s, Restart(c, killed, started))
    requires t == Apply(s, Restart(c, killed, started))
    ensures CallsOk(t, named)
  {
    RetireCalls(s, named, c, killed);
    if started.Some? {
      AddedCalls(RetireStep(s, c, killed), named, started.value, s.worker[PhaseOf(s, c).w].namesTimeout);
    }
  }

  lemma AddedCalls(s: Pool, named: bool, w: WorkerId, namesTimeout: bool)
    requires w !in s.worker && CallsOk(s, named)
    ensures CallsOk(AddWorker(s, w, namesTimeout), named)
  {
    var t := AddWorker(s, w, namesTimeout);
    forall d | d in t.calls ensures CallOk(t, named, d) {
      assert CallOk(s, named, d);
    }
  }

  lemma RestartValues(s: Pool, named: bool, c: CallId, killed: bool, started: Option<WorkerId>)
    requires Inv(s, named) && Enabled(s, Restart(c, killed, started))
    ensures ValueSide(Apply(s, Restart(c, killed, started)), named)
  {
    var t := Apply(s, Restart(c, killed, started));
    RestartWorkers(s, t, named, c, killed, started);
    RestartIdle(s, t, named, c, killed, started);
    RestartCalls(s, t, named, c, killed, started);
  }

  lemma ReturnValues(s: Pool, named: bool, c: CallId)
    requires ListsOk(s) && HoldsOk(s) && Exclusive(s) && ValueSide(s, named) && Enabled(s, Return(c))
    ensures ValueSide(Apply(s, Return(c)), named)
  {
    var w := PhaseOf(s, c).w;
    assert HoldOk(s, c) && CallOk(s, named, c);
    ReleaseWellFormed(s.lists, w, Alive(s.worker[w]));
    PhaseValues(s, Apply(s, Return(c)), named, c);
  }

  lemma DiesValues(s: Pool, named: bool, w: WorkerId)
    requires ValueSide(s, named) && Enabled(s, ProcessDies(w))
    ensures ValueSide(Apply(s, ProcessDies(w)), named)
  {
    var t := Apply(s, ProcessDies(w));
    forall x | x in t.worker ensures WorkerOk(t, named, x) {
      assert WorkerOk(s, named, x);
    }
    forall d | d in t.calls ensures CallOk(t, named, d) {
      assert CallOk(s, named, d);
    }
  }

  lemma TakesValues(s: Pool, named: bool, w: WorkerId)
    requires ValueSide(s, named) && Enabled(s, ChildTakes(w))
    ensures ValueSide(Apply(s, ChildTakes(w)), named)
  {
    var t := Apply(s, ChildTakes(w));
    assert WorkerOk(s, named, w);
    forall x | x in t.worker ensures WorkerOk(t, named, x) {
      assert WorkerOk(s, named, x);
    }
    forall d | d in t.calls ensures CallOk(t, named, d) {
      assert CallOk(s, named, d);
    }
  }

  lemma FinishesCalls(s: Pool, named: bool, w: WorkerId, outcome: Outcome)
    requires ValueSide(s, named) && Enabled(s, ChildFinishes(w, outcome))
    ensures CallsOk(Apply(s, ChildFinishes(w, outcome)), named)
  {
    var t := Apply(s, ChildFinishes(w, outcome));
    var c := s.worker[w].child.call;
    assert WorkerOk(s, named, w);
    FinishesOwnCall(s, named, w, outcome);
    forall d | d in t.calls && d != c ensures CallOk(t, named, d) {
      assert CallOk(s, named, d);
    }
  }

  /** The call whose task ran holds w, if it still holds a worker, and waits for the reply. */
  lemma FinishesOwnCall(s: Pool, named: bool, w: WorkerId, outcome: Outcome)
    requires ValueSide(s, named) && Enabled(s, ChildFinishes(w, outcome)) && WorkerOk(s, named, w)
    ensures CallOk(Apply(s, ChildFinishes(w, outcome)), named, s.worker[w].child.call)
  {
    assert CallOk(s, named, s.worker[w].child.call);
  }

  lemma FinishesValues(s: Pool, named: bool, w: WorkerId, outcome: Outcome)
    requires ValueSide(s, named) && Enabled(s, ChildFinishes(w, outcome))
    ensures ValueSide(Apply(s, ChildFinishes(w, outcome)), named)
  {
    var t := Apply(s, ChildFinishes(w, outcome));
    FinishesCalls(s, named, w, outcome);
    assert WorkerOk(s, named, w);
    forall x | x in t.worker ensures WorkerOk(t, named, x) {
      assert WorkerOk(s, named, x);
    }
  }

  lemma StepValues(s: Pool, named: bool, e: Event)
    requires Inv(s, named) && Enabled(s, e)
    ensures ValueSide(Apply(s, e), named)
  {
    match e
    case Start(c, _) => PhaseValues(s, Apply(s, e), named, c);
    case StopPolling(c) =>
      assert CallOk(s, named, c);
      PhaseValues(s, Apply(s, e), named, c);
    case Poll(c) => PollValues(s, named, c);
    case Recover(c, started) => RecoverValues(s, named, c, started);
    case SendTask(c) => SendValues(s, named, c);
    case ReceiveReply(c) => ReceiveValues(s, named, c);
    case Expire(c) => ExpireValues(s, named, c);
    case Settle(c) => SettleValues(s, named, c);
    case Restart(c, killed, started) => RestartValues(s, named, c, killed, started);
    case Return(c) => ReturnValues(s, named, c);
    case ChildTakes(w) => TakesValues(s, named, w);
    case ChildFinishes(w, outcome) => FinishesValues(s, named, w, outcome);
    case ProcessDies(w) => DiesValues(s, named, w);
  }

  lemma StepInv(s: Pool, named: bool, e: Event)
    requires Inv(s, named)
    ensures Inv(Step(s, e), named)
  {
    if Enabled(s, e) {
      StepLists(s, e);
      StepValues(s, named, e);
    }
  }

  lemma {:induction false} RunInv(s: Pool, named: bool, events: seq<Event>)
    requires Inv(s, named)
    ensures Inv(Run(s, events), named)
    decreases |events|
  {
    if events != [] {
      StepInv(s, named, events[0]);
      RunInv(Step(s, events[0]), named, events[1..]);
    }
  }
}
