/**
 * The self-test orchestration of lines 113-187 as state transformers:
 * polling until no self-test is in progress, and starting short or
 * selective self-tests only once the drive reports none running.
 */
module Orchestrator {
  import opened Wrappers
  import opened Json
  import opened StatusReader
  import opened Ranges
  import opened World

  /** `get_selftest_status()`: one `smartctl -c` read. */
  function StatusStep(s: State): (Snapshot, State) {
    (SelftestStatus(NextResponse(s)), Consume(s))
  }

  /** The number of leading responses that report a self-test in progress. */
  function InProgressRun(rs: seq<Option<Json>>): (n: nat)
    ensures n <= |rs|
    decreases |rs|
  {
    if rs != [] && SelftestStatus(rs[0]).inProgress then 1 + InProgressRun(rs[1..]) else 0
  }

  function Drop<T>(rs: seq<T>, n: nat): seq<T> {
    if n >= |rs| then [] else rs[n..]
  }

  function Polls(n: nat): (t: seq<Event>)
    ensures |t| == n && forall i :: 0 <= i < n ==> t[i] == Sleep(PollInterval)
  {
    seq(n, _ => Sleep(PollInterval))
  }

  /**
   * `wait_for_selftest_completion()`: poll `-c`, sleeping after every read
   * that reports a test in progress; on the first that does not, read the
   * self-test log once (for display) and stop.
   */
  function WaitSpec(s: State): (r: State)
    decreases |s.responses|
  {
    if !SelftestStatus(NextResponse(s)).inProgress then Consume(Consume(s))
    else WaitSpec(Emit(Consume(s), Sleep(PollInterval)))
  }

  /** `ensure_no_active_selftest()`. */
  function EnsureIdleSpec(s: State): (r: State) {
    if SelftestStatus(NextResponse(s)).inProgress then WaitSpec(Consume(s)) else Consume(s)
  }

  /** `if START_PAUSE > 0: time.sleep(START_PAUSE)` */
  function PauseSpec(cfg: Config, s: State): (r: State) {
    if cfg.startPause then Emit(s, Sleep(StartPause)) else s
  }

  /** Issue one start command, pause, and wait for the test to finish. */
  function StartAndWait(cfg: Config, e: Event, s: State): (r: State) {
    WaitSpec(PauseSpec(cfg, Emit(s, e)))
  }

  /** `start_short_test()`. */
  function ShortTestSpec(cfg: Config, s: State): (r: State) {
    StartAndWait(cfg, StartShortTest, EnsureIdleSpec(s))
  }

  /** The loop of `start_selective_tests`: one test per range, in order. */
  function RunRanges(cfg: Config, ranges: seq<Range>, s: State): (r: State)
    decreases |ranges|
  {
    if ranges == [] then s
    else RunRanges(cfg, ranges[1..], StartAndWait(cfg, StartSelectiveTest(ranges[0]), s))
  }

  /** `start_selective_tests(ranges)`. */
  function SelectiveTestsSpec(cfg: Config, ranges: seq<Range>, s: State): (r: State) {
    RunRanges(cfg, ranges, EnsureIdleSpec(s))
  }

  /** Appending one self-test effect is orchestration. */
  lemma EmitOrchestrated(s: State, e: Event)
    requires TestEvent(e)
    ensures Orchestrated(s, Emit(s, e))
  {
  }

  /**
   * Waiting changes nothing but the responses read and the trace, and adds
   * only poll sleeps to the trace.
   */
  lemma {:induction false} WaitOrchestrated(s: State)
    ensures Orchestrated(s, WaitSpec(s))
    decreases |s.responses|
  {
    if SelftestStatus(NextResponse(s)).inProgress {
      var s1 := Emit(Consume(s), Sleep(PollInterval));
      EmitOrchestrated(Consume(s), Sleep(PollInterval));
      OrchestratedTrans(s, Consume(s), s1);
      WaitOrchestrated(s1);
      OrchestratedTrans(s, s1, WaitSpec(s1));
    } else {
      OrchestratedTrans(s, Consume(s), Consume(Consume(s)));
    }
  }

  lemma EnsureIdleOrchestrated(s: State)
    ensures Orchestrated(s, EnsureIdleSpec(s))
  {
    if SelftestStatus(NextResponse(s)).inProgress {
      WaitOrchestrated(Consume(s));
      OrchestratedTrans(s, Consume(s), WaitSpec(Consume(s)));
    }
  }

  lemma StartAndWaitOrchestrated(cfg: Config, e: Event, s: State)
    requires TestEvent(e)
    ensures Orchestrated(s, StartAndWait(cfg, e, s))
  {
    var s1 := Emit(s, e);
    var s2 := PauseSpec(cfg, s1);
    EmitOrchestrated(s, e);
    if cfg.startPause {
      EmitOrchestrated(s1, Sleep(StartPause));
      OrchestratedTrans(s, s1, s2);
    }
    WaitOrchestrated(s2);
    OrchestratedTrans(s, s2, WaitSpec(s2));
  }

  /** A short self-test only reads responses and adds self-test effects. */
  lemma ShortTestOrchestrated(cfg: Config, s: State)
    ensures Orchestrated(s, ShortTestSpec(cfg, s))
  {
    var s1 := EnsureIdleSpec(s);
    EnsureIdleOrchestrated(s);
    StartAndWaitOrchestrated(cfg, StartShortTest, s1);
    OrchestratedTrans(s, s1, StartAndWait(cfg, StartShortTest, s1));
  }

  lemma {:induction false} RunRangesOrchestrated(cfg: Config, ranges: seq<Range>, s: State)
    ensures Orchestrated(s, RunRanges(cfg, ranges, s))
    decreases |ranges|
  {
    if ranges != [] {
      var s1 := StartAndWait(cfg, StartSelectiveTest(ranges[0]), s);
      StartAndWaitOrchestrated(cfg, StartSelectiveTest(ranges[0]), s);
      RunRangesOrchestrated(cfg, ranges[1..], s1);
      OrchestratedTrans(s, s1, RunRanges(cfg, ranges[1..], s1));
    } else {
      assert TestTrace(s.trace, s.trace);
    }
  }

  /** Selective self-tests only read responses and add self-test effects. */
  lemma SelectiveOrchestrated(cfg: Config, ranges: seq<Range>, s: State)
    ensures Orchestrated(s, SelectiveTestsSpec(cfg, ranges, s))
  {
    var s1 := EnsureIdleSpec(s);
    EnsureIdleOrchestrated(s);
    RunRangesOrchestrated(cfg, ranges, s1);
    OrchestratedTrans(s, s1, RunRanges(cfg, ranges, s1));
  }

  /** The run of busy statuses ends at the first response that reports no test in progress. */
  lemma {:induction false} InProgressRunStopsAtIdle(rs: seq<Option<Json>>)
    ensures forall i :: 0 <= i < InProgressRun(rs) ==> SelftestStatus(rs[i]).inProgress
    ensures InProgressRun(rs) < |rs| ==> !SelftestStatus(rs[InProgressRun(rs)]).inProgress
    decreases |rs|
  {
    if rs != [] && SelftestStatus(rs[0]).inProgress {
      InProgressRunStopsAtIdle(rs[1..]);
      assert forall i :: 0 < i < |rs| ==> rs[i] == rs[1..][i - 1];
    }
  }

  /**
   * Waiting reads the busy statuses, then one idle status and the log, and
   * sleeps exactly once per busy status.
   */
  lemma {:induction false} WaitShape(s: State)
    ensures WaitSpec(s) == s.(responses := Drop(s.responses, InProgressRun(s.responses) + 2),
                              trace := s.trace + Polls(InProgressRun(s.responses)))
    decreases |s.responses|
  {
    var n := InProgressRun(s.responses);
    if !SelftestStatus(NextResponse(s)).inProgress {
      assert n == 0;
      assert s.trace + Polls(0) == s.trace;
      if |s.responses| >= 2 { assert s.responses[1..][1..] == s.responses[2..]; }
    } else {
      var s1 := Emit(Consume(s), Sleep(PollInterval));
      WaitShape(s1);
      assert InProgressRun(s1.responses) == n - 1;
      assert s1.trace + Polls(n - 1) == s.trace + Polls(n);
      if n + 1 < |s.responses| { assert s.responses[1..][n - 1 + 2..] == s.responses[n + 2..]; }
    }
  }

  /** Waiting starts no self-test and leaves the count of every start command as it was. */
  lemma {:induction false} PollsStartNothing(n: nat)
    ensures StartedRanges(Polls(n)) == [] && Repairs(Polls(n)) == []
    decreases n
  {
    if n > 0 {
      assert Polls(n)[..n - 1] == Polls(n - 1);
      PollsStartNothing(n - 1);
    }
  }

  /**
   * `ensure_no_active_selftest` reads statuses up to and including the first
   * idle one; when it had to wait it also reads the log and sleeps once per
   * busy status after the first.
   */
  lemma EnsureIdleShape(s: State)
    ensures var n := InProgressRun(s.responses);
            EnsureIdleSpec(s) == s.(responses := Drop(s.responses, if n == 0 then 1 else n + 2),
                                    trace := s.trace + Polls(if n == 0 then 0 else n - 1))
  {
    var n := InProgressRun(s.responses);
    if SelftestStatus(NextResponse(s)).inProgress {
      WaitShape(Consume(s));
      assert InProgressRun(Consume(s).responses) == n - 1;
      if n + 1 < |s.responses| { assert s.responses[1..][n - 1 + 2..] == s.responses[n + 2..]; }
    } else {
      assert s.trace + Polls(0) == s.trace;
      if |s.responses| >= 1 { assert s.responses[1..] == Drop(s.responses, 1); }
    }
  }

  /** One start command adds exactly its own range to the started ranges. */
  lemma StartAndWaitStarts(cfg: Config, r: Range, s: State)
    ensures StartedRanges(StartAndWait(cfg, StartSelectiveTest(r), s).trace) == StartedRanges(s.trace) + [r]
  {
    var s1 := Emit(s, StartSelectiveTest(r));
    var s2 := PauseSpec(cfg, s1);
    assert StartedRanges(s1.trace) == StartedRanges(s.trace) + [r] by {
      assert s1.trace[..|s1.trace| - 1] == s.trace;
    }
    assert StartedRanges(s2.trace) == StartedRanges(s1.trace) by {
      if cfg.startPause { assert s2.trace[..|s2.trace| - 1] == s1.trace; }
    }
    var n := InProgressRun(s2.responses);
    WaitShape(s2);
    PollsStartNothing(n);
    StartedRangesConcat(s2.trace, Polls(n));
    assert StartedRanges(s2.trace) + StartedRanges(Polls(n)) == StartedRanges(s2.trace);
  }

  /** A selective run starts exactly the given ranges, in the given order. */
  lemma {:induction false} RunRangesStartsInOrder(cfg: Config, ranges: seq<Range>, s: State)
    ensures StartedRanges(RunRanges(cfg, ranges, s).trace) == StartedRanges(s.trace) + ranges
    decreases |ranges|
  {
    if ranges == [] {
      assert StartedRanges(s.trace) + ranges == StartedRanges(s.trace);
    } else {
      var s3 := StartAndWait(cfg, StartSelectiveTest(ranges[0]), s);
      assert RunRanges(cfg, ranges, s) == RunRanges(cfg, ranges[1..], s3);
      StartAndWaitStarts(cfg, ranges[0], s);
      RunRangesStartsInOrder(cfg, ranges[1..], s3);
      var a := StartedRanges(s.trace);
      assert StartedRanges(RunRanges(cfg, ranges, s).trace) == (a + [ranges[0]]) + ranges[1..];
      assert (a + [ranges[0]]) + ranges[1..] == a + ranges;
    }
  }

  /** Waiting for the drive to become idle starts no selective test. */
  lemma EnsureIdleRanges(s: State)
    ensures StartedRanges(EnsureIdleSpec(s).trace) == StartedRanges(s.trace)
  {
    var n := InProgressRun(s.responses);
    EnsureIdleShape(s);
    PollsStartNothing(if n == 0 then 0 else n - 1);
    StartedRangesConcat(s.trace, Polls(if n == 0 then 0 else n - 1));
  }

  /** `start_selective_tests(ranges)` issues one start command per range, in input order. */
  lemma SelectiveStartsInOrder(cfg: Config, ranges: seq<Range>, s: State)
    ensures StartedRanges(SelectiveTestsSpec(cfg, ranges, s).trace) == StartedRanges(s.trace) + ranges
  {
    EnsureIdleRanges(s);
    RunRangesStartsInOrder(cfg, ranges, EnsureIdleSpec(s));
  }

  lemma {:induction false} PollsCountNothing(n: nat, e: Event)
    requires e != Sleep(PollInterval)
    ensures CountOf(Polls(n), e) == 0
    decreases n
  {
    if n > 0 {
      assert Polls(n)[..n - 1] == Polls(n - 1);
      PollsCountNothing(n - 1, e);
    }
  }

  /** What one start command and the wait after it append to the trace. */
  lemma StartAndWaitTrace(cfg: Config, e: Event, s: State)
    requires TestEvent(e)
    ensures var s2 := PauseSpec(cfg, Emit(s, e));
            StartAndWait(cfg, e, s).trace ==
              s.trace + [e] + (if cfg.startPause then [Sleep(StartPause)] else []) + Polls(InProgressRun(s2.responses))
  {
    WaitShape(PauseSpec(cfg, Emit(s, e)));
  }

  /** A start command other than `e`, a pause and polls leave the count of `e` alone. */
  lemma StartAndWaitCount(cfg: Config, e: Event, x: Event, s: State)
    requires TestEvent(e) && x != Sleep(PollInterval) && x != Sleep(StartPause)
    ensures CountOf(StartAndWait(cfg, e, s).trace, x) ==
              CountOf(s.trace, x) + (if e == x then 1 else 0)
  {
    var p: seq<Event> := if cfg.startPause then [Sleep(StartPause)] else [];
    var n := InProgressRun(PauseSpec(cfg, Emit(s, e)).responses);
    StartAndWaitTrace(cfg, e, s);
    CountOfConcat(s.trace + [e] + p, Polls(n), x);
    CountOfConcat(s.trace + [e], p, x);
    CountOfConcat(s.trace, [e], x);
    PollsCountNothing(n, x);
    assert [e][..0] == [];
    if cfg.startPause { assert p[..0] == []; }
  }

  /** Waiting for the drive to become idle issues no start command. */
  lemma EnsureIdleCount(s: State, x: Event)
    requires x != Sleep(PollInterval)
    ensures CountOf(EnsureIdleSpec(s).trace, x) == CountOf(s.trace, x)
  {
    var n := InProgressRun(s.responses);
    EnsureIdleShape(s);
    CountOfConcat(s.trace, Polls(if n == 0 then 0 else n - 1), x);
    PollsCountNothing(if n == 0 then 0 else n - 1, x);
  }

  /** Issuing `smartctl -t short` and waiting starts no selective test. */
  lemma ShortStartRanges(cfg: Config, s: State)
    ensures StartedRanges(StartAndWait(cfg, StartShortTest, s).trace) == StartedRanges(s.trace)
  {
    var p: seq<Event> := if cfg.startPause then [Sleep(StartPause)] else [];
    var m := InProgressRun(PauseSpec(cfg, Emit(s, StartShortTest)).responses);
    StartAndWaitTrace(cfg, StartShortTest, s);
    StartedRangesConcat(s.trace + [StartShortTest] + p, Polls(m));
    StartedRangesConcat(s.trace + [StartShortTest], p);
    StartedRangesConcat(s.trace, [StartShortTest]);
    PollsStartNothing(m);
    assert [StartShortTest][..0] == [];
    if cfg.startPause { assert p[..0] == []; }
  }

  /** `start_short_test()` issues exactly one `smartctl -t short` and no selective start. */
  lemma ShortTestStarts(cfg: Config, s: State)
    ensures CountOf(ShortTestSpec(cfg, s).trace, StartShortTest) == CountOf(s.trace, StartShortTest) + 1
    ensures StartedRanges(ShortTestSpec(cfg, s).trace) == StartedRanges(s.trace)
  {
    var s1 := EnsureIdleSpec(s);
    EnsureIdleCount(s, StartShortTest);
    StartAndWaitCount(cfg, StartShortTest, StartShortTest, s1);
    EnsureIdleRanges(s);
    ShortStartRanges(cfg, s1);
  }

  lemma {:induction false} RunRangesNoShort(cfg: Config, ranges: seq<Range>, s: State)
    ensures CountOf(RunRanges(cfg, ranges, s).trace, StartShortTest) == CountOf(s.trace, StartShortTest)
    decreases |ranges|
  {
    if ranges != [] {
      var s1 := StartAndWait(cfg, StartSelectiveTest(ranges[0]), s);
      StartAndWaitCount(cfg, StartSelectiveTest(ranges[0]), StartShortTest, s);
      RunRangesNoShort(cfg, ranges[1..], s1);
    }
  }

  /** `start_selective_tests(ranges)` issues no short self-test. */
  lemma SelectiveNoShort(cfg: Config, ranges: seq<Range>, s: State)
    ensures CountOf(SelectiveTestsSpec(cfg, ranges, s).trace, StartShortTest) == CountOf(s.trace, StartShortTest)
  {
    EnsureIdleCount(s, StartShortTest);
    RunRangesNoShort(cfg, ranges, EnsureIdleSpec(s));
  }
}
