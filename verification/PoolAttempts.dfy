/**
 How a pool call goes from one attempt to the next and how it ends: which events end an attempt without an
 answer, how many of them there are in a call that gives up, and what decides the result of any other.
 */
module PoolAttempts {
  import opened Common
  import opened PoolSpec
  import opened PoolProtocol
  import opened PoolSafety
  import opened PoolResults

  // ---- failed attempts ----

  /** The event ends an attempt of c without an answer: no worker was free in time, or it took no task. */
  predicate Fails(s: Pool, e: Event, c: CallId) {
    || (e == StopPolling(c) && Enabled(s, e))
    || (e == Return(c) && Enabled(s, e) && PhaseOf(s, c).end.Refused?)
  }

  lemma FailedStep(s: Pool, named: bool, c: CallId, e: Event)
    requires Inv(s, named) && c in s.calls && Fails(s, e, c)
    ensures var p, t := PhaseOf(s, c), Step(s, e);
      && !p.Done? && c in t.calls && t.calls[c].maxRetries == s.calls[c].maxRetries
      && (p.retries < s.calls[c].maxRetries ==> PhaseOf(t, c) == Acquiring(p.retries + 1))
      && (p.retries >= s.calls[c].maxRetries ==> PhaseOf(t, c) == Done(RuntimeRaised))
  {
    if e.Return? { assert Step(s, e) == ReturnStep(s, c); }
  }

  /** The events of other calls, of children and of the environment. */
  predicate Elsewhere(e: Event, c: CallId) { e.ChildTakes? || e.ChildFinishes? || e.ProcessDies? || e.c != c }

  lemma ElsewhereStays(s: Pool, c: CallId, e: Event)
    requires c in s.calls && Elsewhere(e, c)
    ensures var t := Step(s, e);
      c in t.calls && PhaseOf(t, c) == PhaseOf(s, c) && t.calls[c].maxRetries == s.calls[c].maxRetries
  {
  }

  lemma OwnStep(s: Pool, c: CallId, e: Event)
    requires c in s.calls && !Elsewhere(e, c) && !Fails(s, e, c) && !PhaseOf(s, c).Done?
    ensures var t := Step(s, e);
      && c in t.calls && t.calls[c].maxRetries == s.calls[c].maxRetries && PhaseOf(t, c) != Done(RuntimeRaised)
      && (!PhaseOf(t, c).Done? ==> PhaseOf(t, c).retries == PhaseOf(s, c).retries)
  {
    if Enabled(s, e) {
      match e
      case Poll(_) => assert Step(s, e) == PollStep(s, c);
      case Recover(_, started) => assert Step(s, e) == RecoverStep(s, c, started);
      case SendTask(_) => assert Step(s, e) == SendStep(s, c);
      case Restart(_, killed, started) => assert Step(s, e) == RestartStep(s, c, killed, started);
      case Return(_) => assert Step(s, e) == ReturnStep(s, c);
      case _ =>
    }
  }

  /** A failed attempt is followed by the next one, until max_retries + 1 of them have failed; the
      RuntimeError is raised by the failure of the last one, and by nothing else. */
  lemma AttemptFollows(s: Pool, named: bool, c: CallId, e: Event)
    requires Inv(s, named) && c in s.calls && !PhaseOf(s, c).Done?
    ensures var p, t := PhaseOf(s, c), Step(s, e);
      && c in t.calls && t.calls[c].maxRetries == s.calls[c].maxRetries && p.retries <= s.calls[c].maxRetries
      && (Fails(s, e, c) && p.retries < s.calls[c].maxRetries ==> PhaseOf(t, c) == Acquiring(p.retries + 1))
      && (Fails(s, e, c) && p.retries == s.calls[c].maxRetries <==> PhaseOf(t, c) == Done(RuntimeRaised))
      && (!Fails(s, e, c) && !PhaseOf(t, c).Done? ==> PhaseOf(t, c).retries == p.retries)
  {
    assert CallOk(s, named, c);
    if Fails(s, e, c) {
      FailedStep(s, named, c, e);
    } else if Elsewhere(e, c) {
      ElsewhereStays(s, c, e);
    } else {
      OwnStep(s, c, e);
    }
  }

  lemma DoneStays(s: Pool, c: CallId, e: Event)
    requires c in s.calls && PhaseOf(s, c).Done?
    ensures c in Step(s, e).calls && PhaseOf(Step(s, e), c) == PhaseOf(s, c) && !Fails(s, e, c)
  {
  }

  /** The attempts of c that fail in a run. */
  function Failures(s: Pool, events: seq<Event>, c: CallId): nat
    decreases |events|
  {
    if events == [] then 0
    else (if Fails(s, events[0], c) then 1 else 0) + Failures(Step(s, events[0]), events[1..], c)
  }

  lemma {:induction false} DoneForGood(s: Pool, events: seq<Event>, c: CallId)
    requires c in s.calls && PhaseOf(s, c).Done?
    ensures c in Run(s, events).calls && PhaseOf(Run(s, events), c) == PhaseOf(s, c) && Failures(s, events, c) == 0
    decreases |events|
  {
    if events != [] {
      DoneStays(s, c, events[0]);
      DoneForGood(Step(s, events[0]), events[1..], c);
    }
  }

  /** From any state on, the failed attempts are exactly the attempts left behind. */
  lemma {:induction false} FailuresCount(s: Pool, named: bool, events: seq<Event>, c: CallId)
    requires Inv(s, named) && c in s.calls && !PhaseOf(s, c).Done?
    ensures var t := Run(s, events);
      var before := PhaseOf(s, c).retries + Failures(s, events, c);
      && c in t.calls
      && (!PhaseOf(t, c).Done? ==> PhaseOf(t, c).retries == before <= s.calls[c].maxRetries)
      && (PhaseOf(t, c) == Done(RuntimeRaised) ==> before == s.calls[c].maxRetries + 1)
      && (PhaseOf(t, c).Done? && PhaseOf(t, c) != Done(RuntimeRaised) ==> before <= s.calls[c].maxRetries)
    decreases |events|
  {
    assert CallOk(s, named, c);
    if events != [] {
      var u := Step(s, events[0]);
      AttemptFollows(s, named, c, events[0]);
      StepInv(s, named, events[0]);
      if PhaseOf(u, c).Done? {
        DoneForGood(u, events[1..], c);
      } else {
        FailuresCount(u, named, events[1..], c);
      }
    }
  }

  /** A call started in any reachable state that ends in the RuntimeError has made max_retries + 1 attempts,
      all of them failed; one that ends otherwise, or goes on, has had fewer fail. With a negative
      max_retries it makes none. */
  lemma GivesUpAfterAllAttempts(started: seq<bool>, cap: int, named: bool, before: seq<Event>, c: CallId,
                                maxRetries: int, events: seq<Event>)
    requires c !in After(started, cap, named, before).calls
    ensures var s := Step(After(started, cap, named, before), Start(c, maxRetries));
      var t := Run(s, events);
      && c in t.calls
      && (PhaseOf(t, c) == Done(RuntimeRaised) ==> Failures(s, events, c) == if maxRetries < 0 then 0 else maxRetries + 1)
      && (PhaseOf(t, c) != Done(RuntimeRaised) ==> Failures(s, events, c) <= maxRetries)
  {
    AfterInv(started, cap, named, before);
    var s := Step(After(started, cap, named, before), Start(c, maxRetries));
    StepInv(After(started, cap, named, before), named, Start(c, maxRetries));
    if maxRetries < 0 {
      DoneForGood(s, events, c);
    } else {
      FailuresCount(s, named, events, c);
    }
  }

  // ---- what an attempt comes to ----

  /** Polling forgets the idle workers that have died. It hands out the one that has been idle longest of
      those that live; if there is none, it recovers a pool without workers and leaves any other to be polled
      again. */
  lemma PollingDecides(s: Pool, named: bool, c: CallId)
    requires Inv(s, named) && Enabled(s, Poll(c))
    ensures var r, t := PhaseOf(s, c).retries, Step(s, Poll(c));
      && c in t.calls && t.lists.workers == s.lists.workers && t.worker == s.worker
      && (forall x :: x in s.lists.idle ==> x in s.worker)
      && (PhaseOf(t, c).Assigned? ==>
            var w := PhaseOf(t, c).w;
            && PhaseOf(t, c).retries == r && t.lists.busy == s.lists.busy + [w] && t.lock == s.lock
            && IsFirstLive(s, w) && (forall x :: x in t.lists.idle <==> x in s.lists.idle && Lives(s, x) && x != w))
      && (!PhaseOf(t, c).Assigned? ==>
            && (forall x :: x in s.lists.idle ==> !Lives(s, x)) && t.lists.idle == [] && t.lists.busy == s.lists.busy
            && (PhaseOf(t, c) == Recovering(r) <==> s.lists.workers == [] && s.lists.busy == [])
            && (PhaseOf(t, c) == Recovering(r) || (PhaseOf(t, c) == Acquiring(r) && t.lock == s.lock)))
  {
    PruneWellFormed(s.lists, LiveIds(s));
    var pruned := Keep(s.lists.idle, LiveIds(s));
    KeptFirst(s.lists.idle, LiveIds(s));
    if pruned != [] {
      assert pruned == [pruned[0]] + pruned[1..];
      assert pruned[0] !in pruned[1..];
    }
  }

  predicate Lives(s: Pool, w: WorkerId) { w in s.worker && s.worker[w].flag && s.worker[w].process }

  /** It lives, and no worker ahead of it in the idle list does. */
  predicate IsFirstLive(s: Pool, w: WorkerId) {
    exists i :: 0 <= i < |s.lists.idle| && s.lists.idle[i] == w && Lives(s, w) && forall j :: 0 <= j < i ==> !Lives(s, s.lists.idle[j])
  }

  lemma {:induction false} KeptFirst<T>(l: seq<T>, live: set<T>)
    ensures Keep(l, live) == [] ==> forall x :: x in l ==> x !in live
    ensures Keep(l, live) != [] ==>
              exists i :: 0 <= i < |l| && l[i] == Keep(l, live)[0] && l[i] in live && forall j :: 0 <= j < i ==> l[j] !in live
  {
    if l != [] {
      KeptFirst(l[1..], live);
      if l[0] !in live && Keep(l[1..], live) != [] {
        var i :| 0 <= i < |l[1..]| && l[1..][i] == Keep(l[1..], live)[0] && l[1..][i] in live
                 && forall j :: 0 <= j < i ==> l[1..][j] !in live;
        assert forall j :: 0 < j < i + 1 ==> l[j] == l[1..][j - 1];
        assert l[i + 1] == Keep(l, live)[0];
      }
    }
  }

  /** A task is on its way exactly when the process of the worker lives; a refusal counts as a timeout
      only if the worker's id contains that word. */
  lemma SendingDecides(s: Pool, named: bool, c: CallId)
    requires Inv(s, named) && Enabled(s, SendTask(c))
    ensures var r, w := PhaseOf(s, c).retries, PhaseOf(s, c).w;
      var v, t := s.worker[w], Step(s, SendTask(c));
      && w in s.worker && w in t.worker && c in t.calls
      && (v.process ==> PhaseOf(t, c) == Waiting(r, w) && t.calls[c].sentTo == [w] && t.worker[w].tasks == [Execute(c)])
      && (!v.process ==> t.calls[c].sentTo == []
                         && PhaseOf(t, c) == Settling(r, w, if v.namesTimeout then Expired else Refused))
  {
    assert CallOk(s, named, c) && HoldOk(s, c);
  }

  /** A waiting call ends its wait with the reply of its own run, or with the expiry and a retired worker. */
  lemma WaitingDecides(s: Pool, named: bool, c: CallId, e: Event)
    requires Inv(s, named) && c in s.calls && PhaseOf(s, c).Waiting?
    ensures var r, w, t := PhaseOf(s, c).retries, PhaseOf(s, c).w, Step(s, e);
      && w in s.worker && w in t.worker && c in t.calls
      && (e == ReceiveReply(c) && s.worker[w].replies != [] ==>
            PhaseOf(t, c) == Settling(r, w, Replied(s.worker[w].replies[0])) && s.worker[w].replies[0].call == c)
      && (e == Expire(c) ==> PhaseOf(t, c) == Settling(r, w, Expired) && !t.worker[w].flag)
      && (e != Expire(c) && (e != ReceiveReply(c) || s.worker[w].replies == []) ==> PhaseOf(t, c) == PhaseOf(s, c))
  {
    assert CallOk(s, named, c) && HoldOk(s, c);
  }

  /** A worker goes back without a restart exactly when it answered, is not retired and lives. */
  lemma SettlingDecides(s: Pool, named: bool, c: CallId)
    requires Inv(s, named) && Enabled(s, Settle(c))
    ensures var p, t := PhaseOf(s, c), Step(s, Settle(c));
      && p.w in s.worker && c in t.calls
      && PhaseOf(t, c) == if p.end.Replied? && s.worker[p.w].flag && s.worker[p.w].process
                          then Returning(p.retries, p.w, p.end) else Restarting(p.retries, p.w, p.end)
  {
    assert CallOk(s, named, c) && HoldOk(s, c);
  }

  /** The call is between its wait and its result, which this ending of its attempt decides. */
  predicate Ending(s: Pool, c: CallId, w: WorkerId, end: PoolProtocol.Ending) {
    && c in s.calls
    && (PhaseOf(s, c).Settling? || PhaseOf(s, c).Restarting? || PhaseOf(s, c).Returning?)
    && PhaseOf(s, c).w == w && PhaseOf(s, c).end == end
  }

  lemma StepEnding(s: Pool, c: CallId, w: WorkerId, end: PoolProtocol.Ending, e: Event)
    requires Ending(s, c, w, end) && !end.Refused?
    ensures var t := Step(s, e);
      || Ending(t, c, w, end)
      || (c in t.calls && PhaseOf(t, c) == Done(if end.Replied? then Returned(end.reply, w) else TimeoutRaised))
  {
  }

  /** Whatever else happens, a call that got a reply can only return that reply, and one whose wait has
      expired can only raise the TimeoutError: neither is tried again. */
  lemma {:induction false} EndingDecides(s: Pool, c: CallId, w: WorkerId, end: PoolProtocol.Ending, events: seq<Event>)
    requires Ending(s, c, w, end) && !end.Refused?
    ensures var t := Run(s, events);
      || Ending(t, c, w, end)
      || (c in t.calls && PhaseOf(t, c) == Done(if end.Replied? then Returned(end.reply, w) else TimeoutRaised))
    decreases |events|
  {
    if events != [] {
      var u := Step(s, events[0]);
      StepEnding(s, c, w, end, events[0]);
      if PhaseOf(u, c).Done? {
        DoneForGood(u, events[1..], c);
      } else {
        EndingDecides(u, c, w, end, events[1..]);
      }
    }
  }

  /** The three phases lead to the result: each of the events enabled in them moves on. */
  lemma ReturningEnds(s: Pool, c: CallId, w: WorkerId, end: PoolProtocol.Ending)
    requires Ending(s, c, w, end) && Enabled(s, Return(c)) && !end.Refused?
    ensures var t := Step(s, Return(c));
      c in t.calls && PhaseOf(t, c) == Done(if end.Replied? then Returned(end.reply, w) else TimeoutRaised)
  {
  }

  // ---- what a restart leaves ----

  /** A restart strikes the old worker off and retires it for good, with the command to exit behind
      whatever it still has to do, if its queue has room; the worker started in its place, if any, is listed, idle and new. */
  lemma RestartReplaces(s: Pool, named: bool, c: CallId, killed: bool, started: Option<WorkerId>)
    requires Inv(s, named) && Enabled(s, Restart(c, killed, started))
    ensures var w := PhaseOf(s, c).w;
      var t := Step(s, Restart(c, killed, started));
      && w in s.worker && w in t.worker && started != Some(w)
      && t.worker[w] == s.worker[w].(tasks := if |s.worker[w].tasks| < 10 then s.worker[w].tasks + [Shutdown] else s.worker[w].tasks, flag := false,
                                         process := s.worker[w].process && !killed)
      && (forall x :: x in t.lists.workers <==> (x in s.lists.workers && x != w) || started == Some(x))
      && (forall x :: x in t.lists.idle <==> (x in s.lists.idle && x != w) || started == Some(x))
      && (forall x :: x in t.lists.busy <==> x in s.lists.busy && x != w)
      && (started.Some? ==> started.value in t.worker
                            && t.worker[started.value] == Worker(true, true, [], [], Ready, 0, 0, s.cap, s.worker[w].namesTimeout))
  {
    var w := PhaseOf(s, c).w;
    assert HoldOk(s, c) && CallOk(s, named, c) && WorkerOk(s, named, w);
    DropWellFormed(s.lists, w);
    if started.Some? { AddFreshWellFormed(Drop(s.lists, w), started.value); }
  }

  /** A child runs its tasks in the order they were queued, one at a time, until it is told to exit or its
      device fails; after that it takes nothing any more. */
  lemma ChildObeys(s: Pool, w: WorkerId, e: Event)
    requires w in s.worker
    ensures var v, t := s.worker[w], Step(s, e);
      && w in t.worker
      && (e == ChildTakes(w) && v.process && v.child.Ready? && v.tasks != [] ==>
            && t.worker[w].tasks == v.tasks[1..]
            && t.worker[w].child == if v.tasks[0].Shutdown? then Exited else Running(v.tasks[0].call))
      && (e.ChildFinishes? && e.w == w && Enabled(s, e) ==>
            && t.worker[w].replies == v.replies + [Reply(v.child.call, e.outcome)]
            && t.worker[w].child == if e.outcome.DeviceError? then Exited else Ready)
      && (v.child == Exited ==> t.worker[w].child == Exited)
  {
  }
}
