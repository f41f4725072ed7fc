/**
 The health monitor of kernelgym/worker/worker_monitor.py: what one check of one worker records
 and decides, what a history of checks therefore means, and the restart queue. All the clock
 readings inside one check of one worker are taken as one.
 */
module WorkerMonitor {
  import opened Common

  type WorkerName = string

  datatype Heartbeat = NoHeartbeat | At(t: real) | Malformed

  datatype Online = Yes | No | Other

  /** The worker hash as the monitor reads it; an unreadable tasks_processed is 0. */
  datatype Report = Report(cudaShutdown: bool, heartbeat: Heartbeat, online: Online, onTask: bool, processed: int)

  /** The entry in `monitored_workers`; the offline branch writes one of its own kind. */
  datatype Record = Checked(processed: int, staleSince: Option<real>) | Offline(since: real)

  datatype Reason = CudaError | HeartbeatTimeout | WorkerOffline | NoProgress

  datatype Settings = Settings(heartbeatTimeout: int, progressTimeout: int, persistent: bool)

  /** One check: when, what was read, and whether the worker is in the expected set. */
  datatype Check = Check(now: real, report: Report, expected: bool)

  // ---- one check ----

  function StaleSince(prev: Option<Record>, c: Check): Option<real> {
    if c.report.online.Yes? && c.report.onTask && prev.Some? && prev.value.Checked?
       && c.report.processed == prev.value.processed
    then Some(if prev.value.staleSince.Some? then prev.value.staleSince.value else c.now)
    else None
  }

  /** The if/elif chain on the CUDA flag, the heartbeat and the offline mark. */
  function FirstReason(cfg: Settings, prev: Option<Record>, c: Check): Option<Reason> {
    if c.report.cudaShutdown then Some(CudaError)
    else if !c.report.heartbeat.NoHeartbeat? then
      if c.report.heartbeat.At? && c.now - c.report.heartbeat.t > cfg.heartbeatTimeout as real then Some(HeartbeatTimeout)
      else None
    else if c.report.online.No? && prev.Some? && prev.value.Offline? && c.now - prev.value.since > 60.0 then
      Some(WorkerOffline)
    else None
  }

  function Judge(cfg: Settings, prev: Option<Record>, c: Check): Option<Reason> {
    var first := FirstReason(cfg, prev, c);
    var stale := StaleSince(prev, c);
    var reason := if first.None? && stale.Some? && c.now - stale.value > cfg.progressTimeout as real
                  then Some(NoProgress) else first;
    if cfg.persistent && !c.expected then None else reason
  }

  /** A heartbeat that cannot be parsed raises, unless the CUDA flag is looked at first. */
  predicate Raises(c: Check) { !c.report.cudaShutdown && c.report.heartbeat.Malformed? }

  function Remember(prev: Option<Record>, c: Check): Record { Checked(c.report.processed, StaleSince(prev, c)) }

  // ---- a history of checks of one worker ----

  // A history lists the checks of a worker that completed; one that raises leaves no record.

  function RecordAfter(checks: seq<Check>): Option<Record> {
    if checks == [] then None
    else Some(Remember(RecordAfter(checks[..|checks| - 1]), checks[|checks| - 1]))
  }

  function Verdict(cfg: Settings, checks: seq<Check>, i: nat): Option<Reason>
    requires i < |checks|
  {
    Judge(cfg, RecordAfter(checks[..i]), checks[i])
  }

  /** At check i the worker is online, on a task, and has processed no more than at check i - 1. */
  predicate Flat(checks: seq<Check>, i: nat)
    requires i < |checks|
  {
    0 < i && checks[i].report.online.Yes? && checks[i].report.onTask
    && checks[i].report.processed == checks[i - 1].report.processed
  }

  /** Check k starts the longest run of flat checks that reaches the last check. */
  ghost predicate RunStartsAt(checks: seq<Check>, k: nat) {
    0 < k < |checks| && (forall j :: k <= j < |checks| ==> Flat(checks, j)) && !Flat(checks, k - 1)
  }

  lemma RunStartIsFirst(checks: seq<Check>, k: nat, j: nat)
    requires RunStartsAt(checks, k) && 0 < j < |checks| && forall x :: j <= x < |checks| ==> Flat(checks, x)
    ensures k <= j
  {
    assert !Flat(checks, k - 1);
  }

  lemma OneRunStart(checks: seq<Check>, k: nat, l: nat)
    requires RunStartsAt(checks, k) && RunStartsAt(checks, l)
    ensures k == l
  {
    RunStartIsFirst(checks, k, l);
    RunStartIsFirst(checks, l, k);
  }

  lemma NoRun(checks: seq<Check>)
    requires checks != [] && !Flat(checks, |checks| - 1)
    ensures forall k: nat :: !RunStartsAt(checks, k)
  {
  }

  /** The record in terms of the run: its first check if there is one. */
  lemma {:induction false} RecordIsRunStart(checks: seq<Check>) returns (k: nat)
    requires checks != []
    ensures RecordAfter(checks).value.Checked? && RecordAfter(checks).value.processed == checks[|checks| - 1].report.processed
    ensures Flat(checks, |checks| - 1) ==>
              RunStartsAt(checks, k) && RecordAfter(checks).value.staleSince == Some(checks[k].now)
    ensures !Flat(checks, |checks| - 1) ==> RecordAfter(checks).value.staleSince == None
    decreases |checks|
  {
    var n := |checks| - 1;
    k := 0;
    if n > 0 {
      k := RecordIsRunStart(checks[..n]);
      assert checks[..n][n - 1] == checks[n - 1];
      if Flat(checks, n) {
        if Flat(checks, n - 1) {
          assert Flat(checks[..n], n - 1);
          forall j | k <= j < |checks| ensures Flat(checks, j) {
            assert j < n ==> Flat(checks[..n], j);
          }
          assert !Flat(checks[..n], k - 1);
        } else {
          assert !Flat(checks[..n], n - 1);
          k := n;
        }
      }
    }
  }

  /** `progress_stale_since` is t exactly when t is the time of the first check of the longest
      current run of checks that are online, on a task and without progress. */
  lemma StaleSinceExact(checks: seq<Check>, t: real)
    requires checks != []
    ensures RecordAfter(checks).value.Checked?
    ensures RecordAfter(checks).value.staleSince == Some(t) <==> exists k: nat :: RunStartsAt(checks, k) && checks[k].now == t
  {
    var k := RecordIsRunStart(checks);
    forall l | RunStartsAt(checks, l) ensures l == k {
      assert Flat(checks, |checks| - 1);
      OneRunStart(checks, k, l);
    }
  }

  // ---- what is judged, and when ----

  predicate HeartbeatLate(cfg: Settings, c: Check) {
    c.report.heartbeat.At? && c.now - c.report.heartbeat.t > cfg.heartbeatTimeout as real
  }

  /** The worker has been flat, check after check, for longer than the progress timeout. */
  ghost predicate Wedged(cfg: Settings, checks: seq<Check>) {
    exists k: nat :: RunStartsAt(checks, k) && checks[|checks| - 1].now - checks[k].now > cfg.progressTimeout as real
  }

  /** A worker is found in need of a restart exactly when the monitor may enforce it and the CUDA flag
      is up, its heartbeat is late, or it is wedged. Being offline is never a reason: the time the
      offline branch would compare with is overwritten by the same check that stores it. */
  lemma JudgedExactly(cfg: Settings, checks: seq<Check>)
    requires checks != []
    ensures var c := checks[|checks| - 1];
      var verdict := Verdict(cfg, checks, |checks| - 1);
      && (verdict.Some? <==> (cfg.persistent ==> c.expected)
                             && (c.report.cudaShutdown || HeartbeatLate(cfg, c) || Wedged(cfg, checks)))
      && (verdict.Some? ==> verdict == Some(if c.report.cudaShutdown then CudaError
                                             else if HeartbeatLate(cfg, c) then HeartbeatTimeout else NoProgress))
      && verdict != Some(WorkerOffline)
      && (verdict == Some(NoProgress) ==> Wedged(cfg, checks) && !c.report.cudaShutdown && !HeartbeatLate(cfg, c))
  {
    var n := |checks| - 1;
    var prev := RecordAfter(checks[..n]);
    if n > 0 { var _ := RecordIsRunStart(checks[..n]); }
    assert RecordAfter(checks) == Some(Remember(prev, checks[n]));
    var k := RecordIsRunStart(checks);
    assert prev.Some? ==> prev.value.Checked?;
    if Wedged(cfg, checks) {
      var l: nat :| RunStartsAt(checks, l) && checks[n].now - checks[l].now > cfg.progressTimeout as real;
      assert Flat(checks, n);
      OneRunStart(checks, k, l);
    }
  }

  /** The offline rule is dead: a worker that is offline and sends no heartbeat is never restarted by
      these checks, however long it stays so. */
  lemma OfflineIsNeverRestarted(cfg: Settings, checks: seq<Check>, i: nat)
    requires i < |checks|
    requires checks[i].report.online.No? && checks[i].report.heartbeat.NoHeartbeat? && !checks[i].report.cudaShutdown
    ensures Verdict(cfg, checks, i).None?
  {
    assert checks[..i + 1][..i] == checks[..i];
    JudgedExactly(cfg, checks[..i + 1]);
    assert !Flat(checks[..i + 1], i);
    NoRun(checks[..i + 1]);
  }

  /** What the rule would do with a time stored by an earlier check: wait a minute, then restart. */
  lemma OfflineRule(cfg: Settings, since: real, c: Check)
    ensures Judge(cfg, Some(Offline(since)), c) == Some(WorkerOffline) <==>
            && c.report.online.No? && c.report.heartbeat.NoHeartbeat? && !c.report.cudaShutdown
            && c.now - since > 60.0 && (cfg.persistent ==> c.expected)
  {
  }

  // ---- how soon ----

  /** From time s on, every check finds the worker online, on a task and with the same count, and (in
      persistent mode) in the expected set. */
  ghost predicate StuckFrom(cfg: Settings, checks: seq<Check>, s: real) {
    forall i :: 0 <= i < |checks| && checks[i].now >= s ==>
      && checks[i].report.online.Yes? && checks[i].report.onTask
      && (cfg.persistent ==> checks[i].expected)
      && (forall j :: 0 <= j < |checks| && checks[j].now >= s ==> checks[i].report.processed == checks[j].report.processed)
  }

  ghost predicate Paced(checks: seq<Check>, gap: real) {
    forall i :: 0 < i < |checks| ==> checks[i - 1].now <= checks[i].now <= checks[i - 1].now + gap
  }

  lemma {:induction false} TimesGrow(checks: seq<Check>, gap: real, i: nat, j: nat)
    requires Paced(checks, gap) && i <= j < |checks|
    ensures checks[i].now <= checks[j].now
    decreases j - i
  {
    if i < j { TimesGrow(checks, gap, i, j - 1); }
  }

  /** The first check at or after x, not before check lo. */
  lemma {:induction false} FirstCheckAfter(checks: seq<Check>, gap: real, lo: nat, x: real) returns (i: nat)
    requires Paced(checks, gap) && lo < |checks| && x < checks[|checks| - 1].now && checks[lo].now <= x
    ensures lo < i < |checks| && x < checks[i].now <= x + gap
    decreases |checks| - lo
  {
    if x < checks[lo + 1].now {
      i := lo + 1;
    } else {
      i := FirstCheckAfter(checks, gap, lo + 1, x);
    }
  }

  lemma FlatInPrefix(checks: seq<Check>, n: nat, i: nat)
    requires i < n <= |checks|
    ensures Flat(checks[..n], i) == Flat(checks, i)
  {
  }

  /** A run that includes check j began no later than j. */
  lemma RunBegins(checks: seq<Check>, j: nat) returns (k: nat)
    requires 0 < j < |checks| && forall x :: j <= x < |checks| ==> Flat(checks, x)
    ensures RunStartsAt(checks, k) && k <= j
  {
    k := RecordIsRunStart(checks);
    assert Flat(checks, |checks| - 1);
    RunStartIsFirst(checks, k, j);
  }

  lemma StuckIsFlat(cfg: Settings, checks: seq<Check>, s: real, gap: real, c: nat, x: nat)
    requires Paced(checks, gap) && StuckFrom(cfg, checks, s) && c < x < |checks| && s <= checks[c].now
    ensures Flat(checks, x)
  {
    TimesGrow(checks, gap, c, x);
    TimesGrow(checks, gap, c, x - 1);
  }

  /** Flat since check j and judged at the last check, longer than the timeout after j. */
  lemma FlatIsWedged(cfg: Settings, checks: seq<Check>, gap: real, j: nat)
    requires Paced(checks, gap) && 0 < j < |checks| && forall x :: j <= x < |checks| ==> Flat(checks, x)
    requires checks[|checks| - 1].now > checks[j].now + cfg.progressTimeout as real
    ensures Wedged(cfg, checks)
  {
    var k := RunBegins(checks, j);
    TimesGrow(checks, gap, k, j);
  }

  /** A worker stuck from time s is found in need of a restart by s + timeout + 3 * gap, when checks
      come at most gap apart, the first no later than s + gap, and go on long enough. */
  lemma WedgeIsFoundInTime(cfg: Settings, checks: seq<Check>, s: real, gap: real) returns (i: nat)
    requires 0.0 < gap && 0 <= cfg.progressTimeout && Paced(checks, gap) && StuckFrom(cfg, checks, s)
    requires checks != [] && checks[0].now <= s + gap
    requires s + cfg.progressTimeout as real + 3.0 * gap <= checks[|checks| - 1].now
    ensures i < |checks| && s <= checks[i].now <= s + cfg.progressTimeout as real + 3.0 * gap
    ensures Verdict(cfg, checks, i).Some?
  {
    var timeout := cfg.progressTimeout as real;
    var c1: nat := 0;
    if checks[0].now <= s { c1 := FirstCheckAfter(checks, gap, 0, s); }
    var c2 := c1 + 1;
    assert checks[c1].now <= checks[c2].now <= checks[c1].now + gap;
    i := FirstCheckAfter(checks, gap, c2, checks[c2].now + timeout);
    StuckIsJudged(cfg, checks, s, gap, c1, i);
  }

  lemma StuckIsJudged(cfg: Settings, checks: seq<Check>, s: real, gap: real, c: nat, i: nat)
    requires Paced(checks, gap) && StuckFrom(cfg, checks, s)
    requires c + 1 < i < |checks| && s <= checks[c].now
    requires checks[c + 1].now + cfg.progressTimeout as real < checks[i].now
    ensures Verdict(cfg, checks, i).Some?
  {
    var seen := checks[..i + 1];
    forall x | c + 1 <= x < |seen| ensures Flat(seen, x) {
      StuckIsFlat(cfg, checks, s, gap, c, x);
      FlatInPrefix(checks, i + 1, x);
    }
    FlatIsWedged(cfg, seen, gap, c + 1);
    TimesGrow(checks, gap, c, i);
    JudgedExactly(cfg, seen);
    assert seen[..i] == checks[..i];
  }

  // ---- the restart queue ----

  /** `queue` and `inProgress` are the monitor's; `hand` is the request the restart loop works on, and
      `failures` counts the restarts that failed so far. */
  datatype Restarts = Restarts(queue: seq<WorkerName>, inProgress: set<WorkerName>, hand: Option<WorkerName>, failures: nat)

  const NO_RESTARTS := Restarts([], {}, None, 0)

  datatype Event = Flagged(w: WorkerName) | Picked | Succeeded | Failed

  /** A check that finds w in need of a restart. */
  function Flag(s: Restarts, w: WorkerName): Restarts {
    if w in s.inProgress then s else s.(queue := s.queue + [w], inProgress := s.inProgress + {w})
  }

  function Pick(s: Restarts): Restarts {
    if s.hand.Some? || s.queue == [] then s else s.(queue := s.queue[1..], hand := Some(s.queue[0]))
  }

  function Finish(s: Restarts, success: bool): Restarts {
    if s.hand.None? then s
    else s.(queue := if success then s.queue else s.queue + [s.hand.value],
            inProgress := s.inProgress - {s.hand.value}, hand := None,
            failures := if success then s.failures else s.failures + 1)
  }

  function Step(s: Restarts, e: Event): Restarts {
    match e
    case Flagged(w) => Flag(s, w)
    case Picked => Pick(s)
    case Succeeded => Finish(s, true)
    case Failed => Finish(s, false)
  }

  function Run(s: Restarts, events: seq<Event>): Restarts
    decreases |events|
  {
    if events == [] then s else Run(Step(s, events[0]), events[1..])
  }

  /** The requests not yet dealt with, oldest first. */
  function Open(s: Restarts): seq<WorkerName> { (if s.hand.Some? then [s.hand.value] else []) + s.queue }

  ghost predicate RestartsOk(s: Restarts) {
    && (forall w :: w in s.inProgress ==> w in Open(s))
    && (s.failures == 0 ==> Distinct(Open(s)) && forall w :: w in Open(s) ==> w in s.inProgress)
  }

  lemma FlagRestarts(s: Restarts, w: WorkerName)
    requires RestartsOk(s)
    ensures RestartsOk(Flag(s, w))
  {
    if w !in s.inProgress {
      assert Open(Flag(s, w)) == Open(s) + [w];
      if s.failures == 0 { DistinctAppend(Open(s), w); }
    }
  }

  lemma FinishRestarts(s: Restarts, success: bool)
    requires RestartsOk(s) && s.hand.Some?
    ensures RestartsOk(Finish(s, success))
  {
    var h, t := s.hand.value, Finish(s, success);
    assert Open(s) == [h] + s.queue;
    forall w | w in t.inProgress ensures w in Open(t) {
      assert w in Open(s) && w != h;
    }
    if t.failures == 0 {
      assert Open(t) == Open(s)[1..] && Open(s)[0] == h;
      assert h !in Open(t);
    }
  }

  lemma StepRestarts(s: Restarts, e: Event)
    requires RestartsOk(s)
    ensures RestartsOk(Step(s, e))
  {
    match e
    case Flagged(w) => FlagRestarts(s, w);
    case Picked => assert Open(Pick(s)) == Open(s);
    case Succeeded => if s.hand.Some? { FinishRestarts(s, true); }
    case Failed => if s.hand.Some? { FinishRestarts(s, false); }
  }

  lemma {:induction false} RunRestarts(s: Restarts, events: seq<Event>)
    requires RestartsOk(s)
    ensures RestartsOk(Run(s, events))
    decreases |events|
  {
    if events != [] {
      StepRestarts(s, events[0]);
      RunRestarts(Step(s, events[0]), events[1..]);
    }
  }

  /** A worker is never shut out of detection without an open restart request; and as long as no
      restart has failed, it has at most one, exactly while it is marked in progress. */
  lemma RestartsAreTracked(events: seq<Event>, w: WorkerName)
    ensures var s := Run(NO_RESTARTS, events);
      && (w in s.inProgress ==> w in Open(s))
      && (s.failures == 0 ==> Distinct(Open(s)) && (w in Open(s) <==> w in s.inProgress))
  {
    RunRestarts(NO_RESTARTS, events);
  }

  /** A check finds a worker whose request is still open but whose mark is gone. */
  predicate Doubles(s: Restarts, e: Event) { e.Flagged? && e.w in Open(s) && e.w !in s.inProgress }

  /** One event makes a worker's request double exactly when it flags an unmarked worker whose
      request is still open. */
  lemma StepDoublesExactly(s: Restarts, e: Event)
    requires Distinct(Open(s))
    ensures Distinct(Open(Step(s, e))) <==> !Doubles(s, e)
  {
    match e
    case Flagged(w) =>
      if w !in s.inProgress {
        assert Open(Flag(s, w)) == Open(s) + [w];
        if w in Open(s) {
          var i :| 0 <= i < |Open(s)| && Open(s)[i] == w;
          assert Open(Flag(s, w))[i] == Open(Flag(s, w))[|Open(s)|];
        } else {
          DistinctAppend(Open(s), w);
        }
      }
    case Picked => assert Open(Pick(s)) == Open(s);
    case Succeeded => FinishKeepsDistinct(s, true);
    case Failed => FinishKeepsDistinct(s, false);
  }

  lemma FinishKeepsDistinct(s: Restarts, success: bool)
    requires Distinct(Open(s))
    ensures Distinct(Open(Finish(s, success)))
  {
    if s.hand.Some? {
      var h := s.hand.value;
      assert Open(s)[0] == h && Open(s)[1..] == s.queue;
      assert Distinct(s.queue) && h !in s.queue;
      if !success { DistinctAppend(s.queue, h); }
      assert Open(Finish(s, success)) == if success then s.queue else s.queue + [h];
    }
  }

  lemma {:induction false} RunSnoc(s: Restarts, events: seq<Event>, e: Event)
    ensures Run(s, events + [e]) == Step(Run(s, events), e)
    decreases |events|
  {
    if events == [] {
      assert [e][1..] == [];
    } else {
      assert (events + [e])[1..] == events[1..] + [e];
      RunSnoc(Step(s, events[0]), events[1..], e);
    }
  }

  lemma {:induction false} NoDoublesKeepDistinct(events: seq<Event>, n: nat)
    requires n <= |events| && forall i :: 0 <= i < n ==> !Doubles(Run(NO_RESTARTS, events[..i]), events[i])
    ensures Distinct(Open(Run(NO_RESTARTS, events[..n])))
  {
    if n > 0 {
      NoDoublesKeepDistinct(events, n - 1);
      assert events[..n] == events[..n - 1] + [events[n - 1]];
      RunSnoc(NO_RESTARTS, events[..n - 1], events[n - 1]);
      StepDoublesExactly(Run(NO_RESTARTS, events[..n - 1]), events[n - 1]);
    }
  }

  /** "At most one open request per worker" holds all along a run exactly when no check in it flags a
      worker that a failed restart left queued but unmarked. */
  lemma OneRequestEachExactly(events: seq<Event>)
    ensures (forall n :: 0 <= n <= |events| ==> Distinct(Open(Run(NO_RESTARTS, events[..n]))))
            <==> forall n :: 0 <= n < |events| ==> !Doubles(Run(NO_RESTARTS, events[..n]), events[n])
  {
    if forall n :: 0 <= n < |events| ==> !Doubles(Run(NO_RESTARTS, events[..n]), events[n]) {
      forall n | 0 <= n <= |events| ensures Distinct(Open(Run(NO_RESTARTS, events[..n]))) {
        NoDoublesKeepDistinct(events, n);
      }
    } else {
      var n :| 0 <= n < |events| && Doubles(Run(NO_RESTARTS, events[..n]), events[n]);
      var s := Run(NO_RESTARTS, events[..n]);
      if Distinct(Open(s)) {
        assert events[..n + 1] == events[..n] + [events[n]];
        RunSnoc(NO_RESTARTS, events[..n], events[n]);
        StepDoublesExactly(s, events[n]);
        assert !Distinct(Open(Run(NO_RESTARTS, events[..n + 1])));
      }
    }
  }

  /** The request an event puts into the queue: of a worker just flagged, or whose restart has just failed. */
  function Enqueues(s: Restarts, e: Event): seq<WorkerName> {
    if e.Flagged? && e.w !in s.inProgress then [e.w]
    else if e == Failed && s.hand.Some? then [s.hand.value]
    else []
  }

  /** The restart an event begins. */
  function Begins(s: Restarts, e: Event): seq<WorkerName> {
    if s.hand.None? && Step(s, e).hand.Some? then [Step(s, e).hand.value] else []
  }

  function Enqueued(s: Restarts, events: seq<Event>): seq<WorkerName>
    decreases |events|
  {
    if events == [] then [] else Enqueues(s, events[0]) + Enqueued(Step(s, events[0]), events[1..])
  }

  function Begun(s: Restarts, events: seq<Event>): seq<WorkerName>
    decreases |events|
  {
    if events == [] then [] else Begins(s, events[0]) + Begun(Step(s, events[0]), events[1..])
  }

  /** An event keeps the requests in line, and begins a restart only as the oldest of them. */
  lemma StepInOrder(s: Restarts, e: Event)
    ensures s.queue + Enqueues(s, e) == Begins(s, e) + Step(s, e).queue
    ensures e == Picked && s.hand.None? && s.queue != [] ==> Begins(s, e) == [s.queue[0]]
  {
  }

  lemma Spliced<T>(q: seq<T>, x: seq<T>, b: seq<T>, t: seq<T>, more: seq<T>, begun: seq<T>, rest: seq<T>)
    requires q + x == b + t && t + more == begun + rest
    ensures q + (x + more) == (b + begun) + rest
  {
    assert q + (x + more) == (q + x) + more;
    assert (b + t) + more == b + (t + more);
    assert b + (begun + rest) == (b + begun) + rest;
  }

  lemma {:induction false} RunInOrder(s: Restarts, events: seq<Event>)
    ensures s.queue + Enqueued(s, events) == Begun(s, events) + Run(s, events).queue
    decreases |events|
  {
    if events != [] {
      var t := Step(s, events[0]);
      StepInOrder(s, events[0]);
      RunInOrder(t, events[1..]);
      Spliced(s.queue, Enqueues(s, events[0]), Begins(s, events[0]), t.queue,
              Enqueued(t, events[1..]), Begun(t, events[1..]), Run(t, events[1..]).queue);
    }
  }

  /** Restarts are begun in the order they were asked for: over any run, those begun so far, followed by the
      queue, are the requests ever put into it. */
  lemma RestartsInOrder(events: seq<Event>)
    ensures Enqueued(NO_RESTARTS, events) == Begun(NO_RESTARTS, events) + Run(NO_RESTARTS, events).queue
  {
    RunInOrder(NO_RESTARTS, events);
    assert [] + Enqueued(NO_RESTARTS, events) == Enqueued(NO_RESTARTS, events);
  }

  /** After one failed restart the worker can be queued twice, so that a worker restarted with success
      is due for another restart. */
  lemma FailureCanQueueTwice(w: WorkerName)
    ensures var s := Run(NO_RESTARTS, [Flagged(w), Picked, Failed, Flagged(w)]);
      Open(s) == [w, w] && Open(Finish(Pick(s), true)) == [w]
  {
    var events := [Flagged(w), Picked, Failed, Flagged(w)];
    var s1 := Restarts([w], {w}, None, 0);
    assert Step(NO_RESTARTS, Flagged(w)) == s1;
    var s2 := Restarts([], {w}, Some(w), 0);
    assert Step(s1, Picked) == s2;
    var s3 := Restarts([w], {}, None, 1);
    assert Step(s2, Failed) == s3;
    assert events[1..] == [Picked, Failed, Flagged(w)] && events[2..] == [Failed, Flagged(w)] && events[3..] == [Flagged(w)];
    Unroll(NO_RESTARTS, events);
    Unroll(s1, events[1..]);
    Unroll(s2, events[2..]);
    Unroll(s3, events[3..]);
  }

  lemma Unroll(s: Restarts, events: seq<Event>)
    requires events != []
    ensures Run(s, events) == Run(Step(s, events[0]), events[1..])
  {
  }

  // ---- cycles over many workers ----

  function RecordIn(m: map<WorkerName, Record>, w: WorkerName): Option<Record> { if w in m then Some(m[w]) else None }

  function CheckOne(cfg: Settings, m: map<WorkerName, Record>, r: Restarts, w: WorkerName, c: Check)
    : (map<WorkerName, Record>, Restarts)
  {
    (m[w := Remember(RecordIn(m, w), c)], if Judge(cfg, RecordIn(m, w), c).Some? then Flag(r, w) else r)
  }

  function CheckAll(cfg: Settings, m: map<WorkerName, Record>, r: Restarts, found: seq<(WorkerName, Check)>)
    : (map<WorkerName, Record>, Restarts)
    decreases |found|
  {
    if found == [] || Raises(found[0].1) then (m, r)
    else
      var (m2, r2) := CheckOne(cfg, m, r, found[0].0, found[0].1);
      CheckAll(cfg, m2, r2, found[1..])
  }

  function ChecksOf(found: seq<(WorkerName, Check)>, w: WorkerName): seq<Check> {
    if found == [] then []
    else (if found[0].0 == w then [found[0].1] else []) + ChecksOf(found[1..], w)
  }

  lemma RecordSnoc(checks: seq<Check>, c: Check)
    ensures RecordAfter(checks + [c]) == Some(Remember(RecordAfter(checks), c))
  {
    assert (checks + [c])[..|checks|] == checks;
  }

  /** How many of the found workers are looked at before a heartbeat cannot be parsed. */
  function Completed(found: seq<(WorkerName, Check)>): (n: nat)
    ensures n <= |found|
  {
    if found == [] || Raises(found[0].1) then 0 else 1 + Completed(found[1..])
  }

  /** A worker is looked at exactly when neither its own check nor an earlier one raises. */
  lemma {:induction false} LookedAtExactly(found: seq<(WorkerName, Check)>, n: nat)
    requires n < |found|
    ensures n < Completed(found) <==> forall i :: 0 <= i <= n ==> !Raises(found[i].1)
    decreases |found|
  {
    if !Raises(found[0].1) {
      assert forall i :: 0 < i <= n ==> found[1..][i - 1] == found[i];
      if n > 0 { LookedAtExactly(found[1..], n - 1); }
    }
  }

  lemma LookedAtFirst(found: seq<(WorkerName, Check)>, w: WorkerName)
    requires found != [] && !Raises(found[0].1)
    ensures ChecksOf(found[..Completed(found)], w)
            == (if found[0].0 == w then [found[0].1] else []) + ChecksOf(found[1..][..Completed(found[1..])], w)
  {
    var looked := found[..Completed(found)];
    assert looked[0] == found[0] && looked[1..] == found[1..][..Completed(found[1..])];
  }

  /** The records after a cycle over any workers: each worker's record is the one of its own checks
      among those looked at, whatever the other workers reported. */
  lemma {:induction false} RecordsAreSeparate(cfg: Settings, m: map<WorkerName, Record>, r: Restarts,
                                              found: seq<(WorkerName, Check)>, w: WorkerName, history: seq<Check>)
    requires RecordAfter(history) == RecordIn(m, w)
    ensures RecordAfter(history + ChecksOf(found[..Completed(found)], w)) == RecordIn(CheckAll(cfg, m, r, found).0, w)
    decreases |found|
  {
    if found == [] || Raises(found[0].1) {
      assert history + ChecksOf(found[..0], w) == history;
    } else {
      var (v, c) := found[0];
      var own := if v == w then [c] else [];
      var rest := ChecksOf(found[1..][..Completed(found[1..])], w);
      RecordSnoc(history, c);
      assert v != w ==> history + own == history;
      var (m2, r2) := CheckOne(cfg, m, r, v, c);
      RecordsAreSeparate(cfg, m2, r2, found[1..], w, history + own);
      LookedAtFirst(found, w);
      assert history + (own + rest) == history + own + rest;
    }
  }

  /** An unparsable heartbeat blinds the cycle to its worker and every worker after it: what they
      reported changes neither a record nor the restart queue. */
  lemma {:induction false} MalformedBlindsTheRest(cfg: Settings, m: map<WorkerName, Record>, r: Restarts,
                                                  found: seq<(WorkerName, Check)>)
    ensures CheckAll(cfg, m, r, found) == CheckAll(cfg, m, r, found[..Completed(found)])
    decreases |found|
  {
    var n := Completed(found);
    if n > 0 {
      assert found[..n][1..] == found[1..][..n - 1] && found[..n][0] == found[0];
      var (m2, r2) := CheckOne(cfg, m, r, found[0].0, found[0].1);
      MalformedBlindsTheRest(cfg, m2, r2, found[1..]);
    }
  }

  /** A worker is marked for a restart by a cycle exactly when it was marked before, or one of its checks that
      are looked at, after all its earlier ones, finds it in need of a restart. */
  lemma {:induction false} CycleMarksExactly(cfg: Settings, m: map<WorkerName, Record>, r: Restarts,
                                             found: seq<(WorkerName, Check)>, w: WorkerName, history: seq<Check>)
    requires RecordAfter(history) == RecordIn(m, w)
    ensures w in CheckAll(cfg, m, r, found).1.inProgress <==>
            w in r.inProgress || NeedsRestart(cfg, history, ChecksOf(found[..Completed(found)], w))
    decreases |found|
  {
    if found == [] || Raises(found[0].1) {
      assert found[..0] == [];
    } else {
      var (v, c) := found[0];
      var own := if v == w then [c] else [];
      var rest := ChecksOf(found[1..][..Completed(found[1..])], w);
      RecordSnoc(history, c);
      assert v != w ==> history + own == history;
      var (m2, r2) := CheckOne(cfg, m, r, v, c);
      CycleMarksExactly(cfg, m2, r2, found[1..], w, history + own);
      LookedAtFirst(found, w);
      if v == w { NeedsFirst(cfg, history, c, rest); } else { assert own + rest == rest; }
    }
  }

  predicate Condemned(cfg: Settings, checks: seq<Check>, n: int) {
    0 <= n < |checks| && Verdict(cfg, checks, n).Some?
  }

  /** One of these checks, coming after the history and each other, finds the worker in need of a restart. */
  ghost predicate NeedsRestart(cfg: Settings, history: seq<Check>, checks: seq<Check>) {
    exists n :: |history| <= n && Condemned(cfg, history + checks, n)
  }

  lemma NeedsFirst(cfg: Settings, history: seq<Check>, c: Check, rest: seq<Check>)
    ensures NeedsRestart(cfg, history, [c] + rest) <==>
            Judge(cfg, RecordAfter(history), c).Some? || NeedsRestart(cfg, history + [c], rest)
  {
    var all := history + ([c] + rest);
    assert all == history + [c] + rest;
    assert all[..|history|] == history && all[|history|] == c;
    assert Condemned(cfg, all, |history|) <==> Judge(cfg, RecordAfter(history), c).Some?;
  }

  // ---- the object ----

  class Monitor {
    const cfg: Settings
    var monitored: map<WorkerName, Record>
    var restartQueue: seq<WorkerName>
    var inProgress: set<WorkerName>
    var hand: Option<WorkerName>
    ghost var failures: nat

    ghost function View(): Restarts
      reads this
    {
      Restarts(restartQueue, inProgress, hand, failures)
    }

    function RecordOf(w: WorkerName): Option<Record>
      reads this
    {
      RecordIn(monitored, w)
    }

    constructor (cfg: Settings)
      ensures this.cfg == cfg && monitored == map[] && View() == NO_RESTARTS
    {
      this.cfg, monitored, restartQueue, inProgress, hand, failures := cfg, map[], [], {}, None, 0;
    }

    /** One worker's turn in `_check_workers`; not ok when the heartbeat cannot be parsed. */
    method CheckWorker(w: WorkerName, c: Check) returns (ok: bool)
      modifies this
      ensures ok == !Raises(c)
      ensures ok <==> c.report.cudaShutdown || c.report.heartbeat != Malformed
      ensures !ok ==> monitored == old(monitored) && View() == old(View())
      ensures ok ==> monitored == old(monitored)[w := Remember(old(RecordOf(w)), c)]
      ensures ok ==> View() == if Judge(cfg, old(RecordOf(w)), c).Some? then Flag(old(View()), w) else old(View())
    {
      var prev := RecordOf(w);
      var staleSince: Option<real> := None;
      if c.report.online.Yes? && c.report.onTask && prev.Some? && prev.value.Checked?
         && c.report.processed == prev.value.processed {
        staleSince := if prev.value.staleSince.Some? then prev.value.staleSince else Some(c.now);
      }
      var needsRestart := false;
      if c.report.cudaShutdown {
        needsRestart := true;
      } else if !c.report.heartbeat.NoHeartbeat? {
        if c.report.heartbeat.Malformed? { return false; }
        if c.now - c.report.heartbeat.t > cfg.heartbeatTimeout as real { needsRestart := true; }
      } else if c.report.online.No? {
        if w in monitored {
          if monitored[w].Offline? && c.now - monitored[w].since > 60.0 { needsRestart := true; }
        } else {
          monitored := monitored[w := Offline(c.now)];
        }
      }
      if !needsRestart && staleSince.Some? && c.now - staleSince.value > cfg.progressTimeout as real {
        needsRestart := true;
      }
      if cfg.persistent && !c.expected { needsRestart := false; }
      if needsRestart && w !in inProgress {
        restartQueue := restartQueue + [w];
        inProgress := inProgress + {w};
      }
      monitored := monitored[w := Checked(c.report.processed, staleSince)];
      return true;
    }

    /** The workers of one `_check_workers` cycle in key order: an unparsable heartbeat ends
        the cycle, and the workers after that one are not looked at. */
    method CheckWorkers(found: seq<(WorkerName, Check)>)
      modifies this
      ensures (monitored, View()) == CheckAll(cfg, old(monitored), old(View()), found)
    {
      var i := 0;
      assert found[0..] == found;
      while i < |found|
        invariant 0 <= i <= |found|
        invariant CheckAll(cfg, monitored, View(), found[i..]) == CheckAll(cfg, old(monitored), old(View()), found)
      {
        assert found[i..][0] == found[i] && found[i..][1..] == found[i + 1..];
        var ok := CheckWorker(found[i].0, found[i].1);
        if !ok { return; }
        i := i + 1;
      }
    }

    /** The restart loop up to the restart itself. */
    method PickRestart() returns (w: Option<WorkerName>)
      requires hand.None?
      modifies this
      ensures View() == Pick(old(View())) && monitored == old(monitored)
      ensures w == hand
    {
      if restartQueue == [] { return None; }
      w := Some(restartQueue[0]);
      restartQueue := restartQueue[1..];
      hand := w;
    }

    /** The rest of the loop body: a failed restart is queued again, then unmarked. */
    method FinishRestart(success: bool)
      requires hand.Some?
      modifies this
      ensures View() == Finish(old(View()), success) && monitored == old(monitored)
    {
      if !success {
        restartQueue := restartQueue + [hand.value];
        failures := failures + 1;
      }
      inProgress := inProgress - {hand.value};
      hand := None;
    }
  }
}
