/** The pool's promises over whole runs, and the two places where the code does not keep them. */
module PoolResults {
  import opened Common
  import opened PoolSpec
  import opened PoolProtocol
  import opened PoolSafety

  /** Every state the pool can be in: any start-up, then any events in any order. */
  function After(started: seq<bool>, cap: int, named: bool, events: seq<Event>): Pool {
    Run(Initial(started, cap, named), events)
  }

  lemma AfterInv(started: seq<bool>, cap: int, named: bool, events: seq<Event>)
    ensures Inv(After(started, cap, named, events), named)
    ensures After(started, cap, named, events).size == |started|
    ensures After(started, cap, named, events).cap == cap
  {
    InitialInv(started, cap, named);
    RunInv(Initial(started, cap, named), named, events);
    RunKeepsSize(Initial(started, cap, named), events);
  }

  lemma {:induction false} RunKeepsSize(s: Pool, events: seq<Event>)
    ensures Run(s, events).size == s.size && Run(s, events).cap == s.cap
    decreases |events|
  {
    if events != [] { RunKeepsSize(Step(s, events[0]), events[1..]); }
  }

  // ---- reply matching ----

  /** A returned result came from the one child run of that very call, on the only worker it was
      sent to; no task is ever run twice, whatever timed out or was restarted. */
  lemma ReplyMatching(started: seq<bool>, cap: int, named: bool, events: seq<Event>, c: CallId)
    requires c in After(started, cap, named, events).calls
    ensures var call := After(started, cap, named, events).calls[c];
      && |call.runs| <= |call.sentTo| <= 1
      && (call.runs != [] ==> call.runs[0].via == call.sentTo[0])
      && (call.phase.Done? && call.phase.result.Returned? ==>
            && call.phase.result.reply.call == c
            && call.runs == [Execution(call.phase.result.via, call.phase.result.reply.outcome)])
  {
    AfterInv(started, cap, named, events);
    assert CallOk(After(started, cap, named, events), named, c);
  }

  /** A waiting call can only read its own reply, and nobody else's is left for it to find. */
  lemma NoForeignReply(started: seq<bool>, cap: int, named: bool, events: seq<Event>, c: CallId)
    requires Enabled(After(started, cap, named, events), ReceiveReply(c))
    ensures var s := After(started, cap, named, events);
      var v := s.worker[PhaseOf(s, c).w];
      |v.replies| == 1 && v.replies[0].call == c && v.tasks == [] && !v.child.Running?
  {
    AfterInv(started, cap, named, events);
    assert CallOk(After(started, cap, named, events), named, c);
  }

  /** An idle worker whose process lives is ready, with both queues empty and room under the cap. */
  lemma IdleIsClean(started: seq<bool>, cap: int, named: bool, events: seq<Event>, w: WorkerId)
    requires w in After(started, cap, named, events).lists.idle
    ensures var s := After(started, cap, named, events);
      && w in s.worker && s.worker[w].tasks == [] && s.worker[w].replies == []
      && s.worker[w].child.Ready? && s.worker[w].sent < TaskAllowance(cap)
  {
    AfterInv(started, cap, named, events);
    assert WorkerOk(After(started, cap, named, events), named, w);
  }

  /** The "task queue is full" branch of `PersistentWorker.execute_task` cannot be taken. */
  lemma QueueNeverFull(started: seq<bool>, cap: int, named: bool, events: seq<Event>, c: CallId)
    requires Enabled(After(started, cap, named, events), SendTask(c))
    ensures var s := After(started, cap, named, events);
      Send(s.worker[PhaseOf(s, c).w], c).1 == if s.worker[PhaseOf(s, c).w].process then Sent else NotAlive
  {
    AfterInv(started, cap, named, events);
    assert CallOk(After(started, cap, named, events), named, c);
  }

  // ---- well-formedness ----

  /** The lists are duplicate-free, idle and busy are disjoint parts of workers, at most
      max(1, pool_size) workers are listed, no worker has two holders, busy ones have one. */
  lemma PoolWellFormed(started: seq<bool>, cap: int, named: bool, events: seq<Event>)
    ensures var s := After(started, cap, named, events);
      && WellFormed(s.lists)
      && |s.lists.workers| <= (if |started| == 0 then 1 else |started|)
      && Exclusive(s)
      && (forall w :: w in s.lists.busy ==> Held(s, w))
      && (forall c :: c in s.calls && PhaseOf(s, c).Holding() ==> PhaseOf(s, c).w !in s.lists.idle)
  {
    AfterInv(started, cap, named, events);
    var s := After(started, cap, named, events);
    forall c | c in s.calls && PhaseOf(s, c).Holding() ensures PhaseOf(s, c).w !in s.lists.idle {
      assert HoldOk(s, c);
    }
  }

  lemma HeadIn(ws: seq<WorkerId>)
    ensures ws == [] || ws[0] in ws
  {
  }

  /** When every call is over, every listed worker has been given back. */
  lemma NothingLeaks(started: seq<bool>, cap: int, named: bool, events: seq<Event>)
    requires forall c :: c in After(started, cap, named, events).calls ==>
               PhaseOf(After(started, cap, named, events), c).Done?
    ensures After(started, cap, named, events).lists.busy == []
    ensures After(started, cap, named, events).lock.None?
  {
    AfterInv(started, cap, named, events);
    var s := After(started, cap, named, events);
    assert forall w :: w in s.lists.busy ==> Held(s, w);
    HeadIn(s.lists.busy);
  }

  /** The ids that can join the list of workers in one event: of a worker started by it. */
  predicate Joins(e: Event, w: WorkerId) { (e.Recover? || e.Restart?) && e.started == Some(w) }

  lemma StepListed(s: Pool, e: Event, w: WorkerId)
    requires ListsOk(s) && Enabled(s, e) && w !in s.lists.workers && !Joins(e, w)
    ensures w !in Apply(s, e).lists.workers
  {
    if e.Restart? {
      DropWellFormed(s.lists, PhaseOf(s, e.c).w);
    } else if !e.Recover? {
      assert Apply(s, e).lists.workers == s.lists.workers;
    }
  }

  lemma StepKnows(s: Pool, e: Event, w: WorkerId)
    requires Enabled(s, e) && w in s.worker
    ensures w in Apply(s, e).worker && !Joins(e, w)
  {
  }

  /** A worker that has left the pool never re-enters it. */
  lemma {:induction false} RetiredStaysOut(s: Pool, named: bool, events: seq<Event>, w: WorkerId)
    requires Inv(s, named) && w in s.worker && w !in s.lists.workers
    ensures w in Run(s, events).worker && w !in Run(s, events).lists.workers
    decreases |events|
  {
    if events != [] {
      StepInv(s, named, events[0]);
      if Enabled(s, events[0]) {
        StepKnows(s, events[0], w);
        StepListed(s, events[0], w);
      }
      RetiredStaysOut(Step(s, events[0]), named, events[1..], w);
    }
  }

  // ---- dispatch ----

  /** A result means one dispatch, the final RuntimeError none, and no child gets more than its share. */
  lemma DispatchAtMostOnce(started: seq<bool>, cap: int, named: bool, events: seq<Event>, c: CallId)
    requires c in After(started, cap, named, events).calls
    requires PhaseOf(After(started, cap, named, events), c).Done?
    ensures var call := After(started, cap, named, events).calls[c];
      match call.phase.result
      case Returned(_, w) => call.sentTo == [w]
      case TimeoutRaised => |call.sentTo| == 1 || (named && call.sentTo == [])
      case RuntimeRaised => call.sentTo == []
    ensures forall w :: w in After(started, cap, named, events).worker ==>
              After(started, cap, named, events).worker[w].sent <= TaskAllowance(cap)
  {
    AfterInv(started, cap, named, events);
    var s := After(started, cap, named, events);
    assert CallOk(s, named, c);
    forall w | w in s.worker ensures s.worker[w].sent <= TaskAllowance(cap) {
      assert WorkerOk(s, named, w);
    }
  }

  ghost predicate TimeoutMeansSent(s: Pool) {
    forall c :: c in s.calls && PhaseOf(s, c) == Done(TimeoutRaised) ==> |s.calls[c].sentTo| == 1
  }

  lemma RunThen(s: Pool, e: Event, rest: seq<Event>)
    ensures Run(s, [e] + rest) == Run(Step(s, e), rest)
  {
    assert ([e] + rest)[1..] == rest;
  }

  lemma OneWorker(cap: int, named: bool)
    ensures Initial([true], cap, named) ==
            Pool(1, cap, Lists([0], [0], []), map[0 := NewWorker(cap, named)], map[], None)
  {
    assert [true][..0] == [];
    assert StartedIds([]) == [] && StartedIds([true]) == [0];
  }

  /** A pool of one worker hands it to its first call. */
  lemma FirstPoll(cap: int, named: bool, c: CallId, maxRetries: nat)
    ensures Run(Initial([true], cap, named), [Start(c, maxRetries)] + [Poll(c)]) ==
            Pool(1, cap, Lists([0], [], [0]), map[0 := NewWorker(cap, named)],
                 map[c := Call(maxRetries, Assigned(0, 0), [], [])], None)
  {
    OneWorker(cap, named);
    var s0 := Initial([true], cap, named);
    var s1 := Step(s0, Start(c, maxRetries));
    RunThen(s0, Start(c, maxRetries), [Poll(c)]);
    RunThen(s1, Poll(c), []);
    assert 0 in LiveIds(s1);
    assert [0][1..] == [] && Keep([0], LiveIds(s1)) == [0];
    assert Run(s1, [Poll(c)] + []) == Run(s1, [Poll(c)]);
    assert Step(s1, Poll(c)).lists == Lists([0], [], [0]);
  }

  /** The call whose worker dies before the task is sent, and whose worker is not replaced. */
  lemma RefusedByTimeoutName(s: Pool, c: CallId, rest: seq<Event>)
    requires s == Pool(1, 100, Lists([0], [], [0]), map[0 := NewWorker(100, true)],
                       map[c := Call(2, Assigned(0, 0), [], [])], None)
    requires rest == [ProcessDies(0)] + ([SendTask(c)] + ([Settle(c)] + ([Restart(c, true, None)] + ([Return(c)] + []))))
    ensures c in Run(s, rest).calls && Run(s, rest).calls[c] == Call(2, Done(TimeoutRaised), [], [])
  {
    var s1 := Step(s, ProcessDies(0));
    var s2 := Step(s1, SendTask(c));
    var s3 := Step(s2, Settle(c));
    var s4 := Step(s3, Restart(c, true, None));
    assert s2.calls[c].phase == Settling(0, 0, Expired);
    assert s4.calls[c].phase == Returning(0, 0, Expired);
    RunThen(s4, Return(c), []);
    RunThen(s3, Restart(c, true, None), [Return(c)] + []);
    RunThen(s2, Settle(c), [Restart(c, true, None)] + ([Return(c)] + []));
    RunThen(s1, SendTask(c), [Settle(c)] + ([Restart(c, true, None)] + ([Return(c)] + [])));
    RunThen(s, ProcessDies(0), [SendTask(c)] + ([Settle(c)] + ([Restart(c, true, None)] + ([Return(c)] + []))));
  }

  lemma NeverSent(s: Pool, c: CallId, rest: seq<Event>)
    requires s == Pool(1, 100, Lists([0], [], [0]), map[0 := NewWorker(100, true)],
                       map[c := Call(2, Assigned(0, 0), [], [])], None)
    requires rest == [ProcessDies(0)] + ([SendTask(c)] + ([Settle(c)] + ([Restart(c, true, None)] + ([Return(c)] + []))))
    ensures !TimeoutMeansSent(Run(s, rest))
  {
    RefusedByTimeoutName(s, c, rest);
    assert PhaseOf(Run(s, rest), c) == Done(TimeoutRaised);
  }

  lemma {:induction false} RunConcat(s: Pool, a: seq<Event>, b: seq<Event>)
    ensures Run(s, a + b) == Run(Run(s, a), b)
    decreases |a|
  {
    if a == [] {
      assert a + b == b;
    } else {
      assert (a + b)[0] == a[0] && (a + b)[1..] == a[1..] + b;
      RunConcat(Step(s, a[0]), a[1..], b);
    }
  }

  /** One worker whose id contains "timeout" and whose process dies before the task is sent. */
  lemma TimeoutWithoutDispatch()
    ensures exists events: seq<Event> :: !TimeoutMeansSent(After([true], 100, true, events))
  {
    var a := [Start(7, 2)] + [Poll(7)];
    var b := [ProcessDies(0)] + ([SendTask(7)] + ([Settle(7)] + ([Restart(7, true, None)] + ([Return(7)] + []))));
    FirstPoll(100, true, 7, 2);
    RunConcat(Initial([true], 100, true), a, b);
    NeverSent(Run(Initial([true], 100, true), a), 7, b);
    assert !TimeoutMeansSent(After([true], 100, true, a + b));
  }

  /** In every run a TimeoutError means that the task was sent, if and only if the worker ids do
      not themselves contain the word "timeout". */
  lemma TimeoutMeansSentExactly(named: bool)
    ensures (forall started, cap, events :: TimeoutMeansSent(After(started, cap, named, events))) <==> !named
  {
    if named {
      TimeoutWithoutDispatch();
    } else {
      forall started, cap, events ensures TimeoutMeansSent(After(started, cap, named, events)) {
        AfterInv(started, cap, named, events);
        var s := After(started, cap, named, events);
        forall c | c in s.calls && PhaseOf(s, c) == Done(TimeoutRaised) ensures |s.calls[c].sentTo| == 1 {
          assert CallOk(s, named, c);
        }
      }
    }
  }

  // ---- attempts ----

  function Attempt(p: Phase): nat
    requires !p.Done?
  {
    p.retries + 1
  }

  /** A step keeps the attempt of a call or moves to the next; a finished call stays as it is. */
  lemma StepAttempt(s: Pool, c: CallId, e: Event)
    requires c in s.calls
    ensures c in Step(s, e).calls && Step(s, e).calls[c].maxRetries == s.calls[c].maxRetries
    ensures PhaseOf(s, c).Done? ==> PhaseOf(Step(s, e), c) == PhaseOf(s, c)
    ensures !PhaseOf(s, c).Done? && !PhaseOf(Step(s, e), c).Done? ==>
              Attempt(PhaseOf(s, c)) <= Attempt(PhaseOf(Step(s, e), c)) <= Attempt(PhaseOf(s, c)) + 1
  {
  }

  /** An unfinished call is in one of its max_retries + 1 attempts, before and after any step. */
  lemma AttemptsAreBounded(started: seq<bool>, cap: int, named: bool, events: seq<Event>, c: CallId, e: Event)
    requires c in After(started, cap, named, events).calls
    ensures var s := After(started, cap, named, events);
      var t := Step(s, e);
      && c in t.calls
      && (PhaseOf(s, c).Done? ==> PhaseOf(t, c) == PhaseOf(s, c))
      && (!PhaseOf(s, c).Done? ==> Attempt(PhaseOf(s, c)) <= s.calls[c].maxRetries + 1)
      && (!PhaseOf(s, c).Done? && !PhaseOf(t, c).Done? ==>
            Attempt(PhaseOf(s, c)) <= Attempt(PhaseOf(t, c)) <= Attempt(PhaseOf(s, c)) + 1)
  {
    AfterInv(started, cap, named, events);
    assert CallOk(After(started, cap, named, events), named, c);
    StepAttempt(After(started, cap, named, events), c, e);
  }

  // ---- stranding ----

  /** No call is inside the pool's critical phases. */
  ghost predicate AtRest(s: Pool) {
    s.lock.None? && forall c :: c in s.calls ==> PhaseOf(s, c).Acquiring? || PhaseOf(s, c).Done?
  }

  /** Workers are listed, but none that is idle is alive: nothing will ever replace them. */
  ghost predicate Stranded(s: Pool) {
    && AtRest(s) && s.lists.workers != []
    && (forall w :: w in s.lists.idle ==> w in s.worker && !Alive(s.worker[w]))
  }

  lemma StrandedStep(s: Pool, e: Event)
    requires Stranded(s)
    ensures Stranded(Step(s, e))
    ensures forall c :: c in s.calls ==> c in Step(s, e).calls && Step(s, e).calls[c].sentTo == s.calls[c].sentTo
    ensures forall c :: c in Step(s, e).calls && c !in s.calls ==> Step(s, e).calls[c].sentTo == []
  {
    if Enabled(s, e) && e.Poll? {
      NothingKept(s.lists.idle, LiveIds(s));
    }
  }

  lemma {:induction false} NothingKept(ws: seq<WorkerId>, live: set<WorkerId>)
    requires forall w :: w in ws ==> w !in live
    ensures Keep(ws, live) == []
  {
    if ws != [] { NothingKept(ws[1..], live); }
  }

  /** Once stranded, always stranded: no task is ever sent again. */
  lemma {:induction false} StrandedForever(s: Pool, events: seq<Event>)
    requires Stranded(s)
    ensures Stranded(Run(s, events))
    ensures forall c :: c in s.calls ==>
              c in Run(s, events).calls && Run(s, events).calls[c].sentTo == s.calls[c].sentTo
    ensures forall c :: c in Run(s, events).calls && c !in s.calls ==> Run(s, events).calls[c].sentTo == []
    decreases |events|
  {
    if events != [] {
      StrandedStep(s, events[0]);
      StrandedForever(Step(s, events[0]), events[1..]);
    }
  }

  lemma FreshId(ids: set<nat>) returns (w: nat)
    ensures w !in ids
  {
    if ids == {} {
      w := 0;
    } else {
      var m := MaxOf(ids);
      w := m + 1;
    }
  }

  lemma MaxOf(ids: set<nat>) returns (m: nat)
    requires ids != {}
    ensures m in ids && forall x :: x in ids ==> x <= m
    decreases |ids|
  {
    var x :| x in ids;
    if ids == {x} {
      m := x;
    } else {
      var rest := MaxOf(ids - {x});
      m := if rest < x then x else rest;
      forall y | y in ids ensures y <= m {
        assert y == x || y in ids - {x};
      }
    }
  }

  /** Some continuation hands a worker to a call that starts now. */
  ghost predicate CanServe(s: Pool, c: CallId) {
    exists events: seq<Event> :: var t := Run(s, [Start(c, 0)] + events);
      c in t.calls && PhaseOf(t, c).Assigned?
  }

  lemma ServedByPolling(s: Pool, named: bool, c: CallId)
    requires Inv(s, named) && AtRest(s) && c !in s.calls && !Stranded(s)
    ensures CanServe(s, c)
  {
    var s1 := Step(s, Start(c, 0));
    var s2 := Step(s1, Poll(c));
    if s.lists.workers == [] {
      HeadIn(s.lists.idle);
      HeadIn(s.lists.busy);
      assert PhaseOf(s2, c).Recovering?;
      var w := FreshId(s2.worker.Keys);
      var e := [Poll(c), Recover(c, Some(w))];
      assert PhaseOf(Step(s2, e[1]), c).Assigned?;
      var all := [Start(c, 0)] + e;
      assert all[1..] == e && e[1..] == [e[1]] && [e[1]][1..] == [];
      assert Run(s2, [e[1]]) == Step(s2, e[1]);
      assert Run(s, all) == Step(s2, e[1]);
    } else {
      KeepMembers(s.lists.idle, LiveIds(s1));
      var w :| w in s.lists.idle && (w !in s.worker || Alive(s.worker[w]));
      assert w in Keep(s.lists.idle, LiveIds(s1));
      assert PhaseOf(s2, c).Assigned?;
      var e := [Poll(c)];
      var all := [Start(c, 0)] + e;
      assert all[1..] == e && e[1..] == [];
      assert Run(s1, e) == Run(s2, []);
      assert Run(s, all) == s2;
    }
  }

  /** A pool at rest can serve a new call if and only if it lists no worker at all or has a live
      idle one: emergency recovery asks for an empty list, and pruning never shortens it. */
  lemma ServesExactly(s: Pool, named: bool, c: CallId)
    requires Inv(s, named) && AtRest(s) && c !in s.calls
    ensures CanServe(s, c) <==>
            (s.lists.workers == [] || exists w :: w in s.lists.idle && w in s.worker && Alive(s.worker[w]))
  {
    if Stranded(s) {
      forall events: seq<Event>
        ensures var t := Run(s, [Start(c, 0)] + events); c in t.calls ==> !PhaseOf(t, c).Assigned?
      {
        StrandedForever(s, [Start(c, 0)] + events);
      }
    } else {
      ServedByPolling(s, named, c);
    }
  }

  /** One idle process dying is enough: a pool of one worker never runs anything again. */
  lemma OneDeathStrands(cap: int, named: bool, events: seq<Event>, c: CallId)
    requires c in After([true], cap, named, [ProcessDies(0)] + events).calls
    ensures After([true], cap, named, [ProcessDies(0)] + events).calls[c].sentTo == []
  {
    var s0 := Initial([true], cap, named);
    OneWorker(cap, named);
    var all := [ProcessDies(0)] + events;
    assert all[1..] == events;
    StrandedForever(Step(s0, ProcessDies(0)), events);
  }
}
