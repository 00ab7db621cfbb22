/** `run_verify_selective_around` (lines 293-330): a retried selective self-test around one LBA. */
module Verification {
  import opened Wrappers
  import opened Json
  import opened Text
  import opened StatusReader
  import opened Ranges
  import opened World
  import opened Orchestrator
  import opened Repair

  /** The range of lines 298-301: [max(0, lba - delta), lba + delta]. */
  function ClampRange(lba: int, delta: int): (r: Range)
    ensures r.start >= 0 && r.end == lba + delta
    ensures r.start == if lba - delta < 0 then 0 else lba - delta
  {
    var start := lba - delta;
    Range(if start < 0 then 0 else start, lba + delta)
  }

  lemma ClampExamples()
    ensures ClampRange(100, 5) == Range(95, 105)
    ensures ClampRange(3, 5) == Range(0, 8)
  {
  }

  /** A status that makes the verify inconclusive (line 314). */
  predicate Inconclusive(status: string) {
    var s := Lower(status);
    Contains(s, "interrupted") || Contains(s, "aborted") || Contains(s, "host reset")
  }

  datatype VerifyOutcome =
    | Clear           // "clear": no failing LBA after the refresh
    | Failed          // "failed": a failing LBA is still known
    | Interrupted     // "interrupted": inconclusive on every allowed attempt
    | StatusNotText   // the log's status is not a str: `.lower()` raises
    | RefreshRaised   // the refresh raised (attribute 197's raw is not a dict)

  /**
   * One attempt (lines 307-311): a selective test on `range`, then a read of
   * the most recent self-test log entry.
   */
  function AttemptSpec(cfg: Config, range: Range, s: State): (r: (Entry, State)) {
    var s1 := SelectiveTestsSpec(cfg, [range], s);
    (LastSelftestEntry(NextResponse(s1)), Consume(s1))
  }

  /** An attempt starts exactly one selective test, on `range`, and changes no global. */
  lemma AttemptFacts(cfg: Config, range: Range, s: State)
    ensures Orchestrated(s, AttemptSpec(cfg, range, s).1)
    ensures StartedRanges(AttemptSpec(cfg, range, s).1.trace) == StartedRanges(s.trace) + [range]
  {
    var s1 := SelectiveTestsSpec(cfg, [range], s);
    SelectiveOrchestrated(cfg, [range], s);
    OrchestratedTrans(s, s1, Consume(s1));
    SelectiveStartsInOrder(cfg, [range], s);
  }

  /**
   * The loop of lines 303-330 after `attempts` finished attempts: the
   * outcome, the number of attempts made in all, and the final state.
   */
  function VerifyLoop(cfg: Config, range: Range, attempts: int, s: State): (r: (VerifyOutcome, int, State))
    requires Clamped(cfg) && 0 <= attempts <= cfg.verifyRetries
    ensures attempts < r.1 <= cfg.verifyRetries + 1
    ensures r.0 == Interrupted ==> r.1 == cfg.verifyRetries + 1
    ensures r.0 == Clear ==> r.2.sector == 0
    ensures r.0 == Failed ==> r.2.sector != 0
    decreases cfg.verifyRetries - attempts
  {
    var a := attempts + 1;
    var (e, s2) := AttemptSpec(cfg, range, s);
    if !e.status.JString? then (StatusNotText, a, s2)
    else if Inconclusive(e.status.s) then
      if a <= cfg.verifyRetries then VerifyLoop(cfg, range, a, Emit(s2, Sleep(RetryWait(cfg.verifyWait))))
      else (Interrupted, a, s2)
    else
      var (st, s3) := RefreshSpec(s2);
      if st == RawNotDict then (RefreshRaised, a, s3)
      else if s3.sector == 0 then (Clear, a, s3)
      else (Failed, a, s3)
  }

  /** `run_verify_selective_around(lba, delta)`. */
  function VerifySpec(cfg: Config, lba: int, delta: int, s: State): (VerifyOutcome, State)
    requires Clamped(cfg)
  {
    var r := VerifyLoop(cfg, ClampRange(lba, delta), 0, s);
    (r.0, r.2)
  }

  /** An inconclusive attempt with retries left leads to the next attempt after VERIFY_WAIT. */
  lemma RetryStep(cfg: Config, range: Range, attempts: int, s: State)
    requires Clamped(cfg) && 0 <= attempts < cfg.verifyRetries
    requires var x := AttemptSpec(cfg, range, s); x.0.status.JString? && Inconclusive(x.0.status.s)
    ensures VerifyLoop(cfg, range, attempts, s) ==
              VerifyLoop(cfg, range, attempts + 1,
                         Emit(AttemptSpec(cfg, range, s).1, Sleep(RetryWait(cfg.verifyWait))))
  {
  }

  /** An attempt that is not retried is the last: the loop ends with the state it left, refreshed or not. */
  lemma LastStep(cfg: Config, range: Range, attempts: int, s: State)
    requires Clamped(cfg) && 0 <= attempts <= cfg.verifyRetries
    requires var x := AttemptSpec(cfg, range, s);
             !(x.0.status.JString? && Inconclusive(x.0.status.s) && attempts < cfg.verifyRetries)
    ensures var x := AttemptSpec(cfg, range, s);
            var r := VerifyLoop(cfg, range, attempts, s);
            r.1 == attempts + 1 && r.2.trace == x.1.trace &&
            r.2.lastsector == x.1.lastsector && r.2.answers == x.1.answers
  {
  }

  /**
   * The outcome of the last attempt (lines 311-330): a status that is not a
   * str raises, an inconclusive one reports "interrupted", and a conclusive
   * one runs the refresh and reports "clear" exactly when it leaves no
   * failing sector and "failed" exactly when it leaves one.
   */
  lemma LastOutcome(cfg: Config, range: Range, attempts: int, s: State)
    requires Clamped(cfg) && 0 <= attempts <= cfg.verifyRetries
    requires var x := AttemptSpec(cfg, range, s);
             !(x.0.status.JString? && Inconclusive(x.0.status.s) && attempts < cfg.verifyRetries)
    ensures var x := AttemptSpec(cfg, range, s);
            var r := VerifyLoop(cfg, range, attempts, s);
            (!x.0.status.JString? ==> r == (StatusNotText, attempts + 1, x.1)) &&
            (x.0.status.JString? && Inconclusive(x.0.status.s) ==> r == (Interrupted, attempts + 1, x.1)) &&
            (x.0.status.JString? && !Inconclusive(x.0.status.s) ==>
               var (st, s3) := RefreshSpec(x.1);
               r.2 == s3 &&
               (st == RawNotDict <==> r.0 == RefreshRaised) &&
               (st != RawNotDict ==> (r.0 == Clear <==> s3.sector == 0) && (r.0 == Failed <==> s3.sector != 0)))
  {
  }

  function Repeat(range: Range, n: nat): (rs: seq<Range>)
    ensures |rs| == n
    ensures forall i :: 0 <= i < n ==> rs[i] == range
    decreases n
  {
    if n == 0 then [] else [range] + Repeat(range, n - 1)
  }

  lemma RepeatCons(a: seq<Range>, range: Range, k: nat)
    ensures (a + [range]) + Repeat(range, k) == a + Repeat(range, k + 1)
  {
    assert Repeat(range, k + 1) == [range] + Repeat(range, k);
  }

  /** Every attempt but the last is followed by exactly one VERIFY_WAIT sleep (line 316). */
  lemma {:induction false} VerifySleeps(cfg: Config, range: Range, attempts: int, s: State)
    requires Clamped(cfg) && 0 <= attempts <= cfg.verifyRetries
    ensures var r := VerifyLoop(cfg, range, attempts, s);
            CountOf(r.2.trace, Sleep(RetryWait(cfg.verifyWait))) ==
              CountOf(s.trace, Sleep(RetryWait(cfg.verifyWait))) + (r.1 - attempts - 1)
    decreases cfg.verifyRetries - attempts, 1
  {
    var x := AttemptSpec(cfg, range, s);
    if x.0.status.JString? && Inconclusive(x.0.status.s) && attempts < cfg.verifyRetries {
      VerifySleepsRetry(cfg, range, attempts, s);
    } else {
      VerifySleepsLast(cfg, range, attempts, s);
    }
  }

  lemma {:induction false} VerifySleepsRetry(cfg: Config, range: Range, attempts: int, s: State)
    requires Clamped(cfg) && 0 <= attempts < cfg.verifyRetries
    requires var x := AttemptSpec(cfg, range, s); x.0.status.JString? && Inconclusive(x.0.status.s)
    ensures var r := VerifyLoop(cfg, range, attempts, s);
            CountOf(r.2.trace, Sleep(RetryWait(cfg.verifyWait))) ==
              CountOf(s.trace, Sleep(RetryWait(cfg.verifyWait))) + (r.1 - attempts - 1)
    decreases cfg.verifyRetries - attempts, 0
  {
    var w := Sleep(RetryWait(cfg.verifyWait));
    var x := AttemptSpec(cfg, range, s);
    AttemptFacts(cfg, range, s);
    TestTraceKeepsRepairs(s.trace, x.1.trace, cfg.verifyWait);
    var s3 := Emit(x.1, w);
    RetryStep(cfg, range, attempts, s);
    VerifySleeps(cfg, range, attempts + 1, s3);
    assert s3.trace[..|s3.trace| - 1] == x.1.trace;
  }

  lemma VerifySleepsLast(cfg: Config, range: Range, attempts: int, s: State)
    requires Clamped(cfg) && 0 <= attempts <= cfg.verifyRetries
    requires var x := AttemptSpec(cfg, range, s);
             !(x.0.status.JString? && Inconclusive(x.0.status.s) && attempts < cfg.verifyRetries)
    ensures var r := VerifyLoop(cfg, range, attempts, s);
            CountOf(r.2.trace, Sleep(RetryWait(cfg.verifyWait))) ==
              CountOf(s.trace, Sleep(RetryWait(cfg.verifyWait))) + (r.1 - attempts - 1)
  {
    var x := AttemptSpec(cfg, range, s);
    AttemptFacts(cfg, range, s);
    TestTraceKeepsRepairs(s.trace, x.1.trace, cfg.verifyWait);
    LastStep(cfg, range, attempts, s);
  }

  /** Every attempt starts one selective self-test, always on the same clamped range. */
  lemma {:induction false} VerifyStarts(cfg: Config, range: Range, attempts: int, s: State)
    requires Clamped(cfg) && 0 <= attempts <= cfg.verifyRetries
    ensures var r := VerifyLoop(cfg, range, attempts, s);
            StartedRanges(r.2.trace) == StartedRanges(s.trace) + Repeat(range, r.1 - attempts)
    decreases cfg.verifyRetries - attempts, 1
  {
    var x := AttemptSpec(cfg, range, s);
    if x.0.status.JString? && Inconclusive(x.0.status.s) && attempts < cfg.verifyRetries {
      VerifyStartsRetry(cfg, range, attempts, s);
    } else {
      VerifyStartsLast(cfg, range, attempts, s);
    }
  }

  lemma {:induction false} VerifyStartsRetry(cfg: Config, range: Range, attempts: int, s: State)
    requires Clamped(cfg) && 0 <= attempts < cfg.verifyRetries
    requires var x := AttemptSpec(cfg, range, s); x.0.status.JString? && Inconclusive(x.0.status.s)
    ensures var r := VerifyLoop(cfg, range, attempts, s);
            StartedRanges(r.2.trace) == StartedRanges(s.trace) + Repeat(range, r.1 - attempts)
    decreases cfg.verifyRetries - attempts, 0
  {
    var x := AttemptSpec(cfg, range, s);
    AttemptFacts(cfg, range, s);
    var s3 := Emit(x.1, Sleep(RetryWait(cfg.verifyWait)));
    RetryStep(cfg, range, attempts, s);
    VerifyStarts(cfg, range, attempts + 1, s3);
    assert s3.trace[..|s3.trace| - 1] == x.1.trace;
    var rr := VerifyLoop(cfg, range, attempts + 1, s3);
    var k: nat := rr.1 - attempts - 1;
    assert StartedRanges(rr.2.trace) == StartedRanges(s3.trace) + Repeat(range, k);
    assert StartedRanges(s3.trace) == StartedRanges(s.trace) + [range];
    RepeatCons(StartedRanges(s.trace), range, k);
  }

  lemma VerifyStartsLast(cfg: Config, range: Range, attempts: int, s: State)
    requires Clamped(cfg) && 0 <= attempts <= cfg.verifyRetries
    requires var x := AttemptSpec(cfg, range, s);
             !(x.0.status.JString? && Inconclusive(x.0.status.s) && attempts < cfg.verifyRetries)
    ensures var r := VerifyLoop(cfg, range, attempts, s);
            StartedRanges(r.2.trace) == StartedRanges(s.trace) + Repeat(range, r.1 - attempts)
  {
    AttemptFacts(cfg, range, s);
    LastStep(cfg, range, attempts, s);
    assert Repeat(range, 1) == [range] + [];
  }

  /**
   * `run_verify_selective_around` as a whole: at most VERIFY_RETRIES + 1
   * selective tests, all on the clamped range, with VERIFY_WAIT slept
   * between consecutive ones; "interrupted" only once every retry is used.
   */
  lemma VerifyBounded(cfg: Config, lba: int, delta: int, s: State)
    requires Clamped(cfg)
    ensures StartedRanges(s.trace) <= StartedRanges(VerifyLoop(cfg, ClampRange(lba, delta), 0, s).2.trace)
    ensures var r := VerifyLoop(cfg, ClampRange(lba, delta), 0, s);
            var added := StartedRanges(r.2.trace)[|StartedRanges(s.trace)|..];
            1 <= |added| <= cfg.verifyRetries + 1 &&
            (forall i :: 0 <= i < |added| ==> added[i] == ClampRange(lba, delta)) &&
            CountOf(r.2.trace, Sleep(RetryWait(cfg.verifyWait))) ==
              CountOf(s.trace, Sleep(RetryWait(cfg.verifyWait))) + |added| - 1 &&
            (r.0 == Interrupted ==> |added| == cfg.verifyRetries + 1)
  {
    var range := ClampRange(lba, delta);
    VerifySleeps(cfg, range, 0, s);
    VerifyStarts(cfg, range, 0, s);
    var r := VerifyLoop(cfg, range, 0, s);
    var a := StartedRanges(s.trace);
    assert StartedRanges(r.2.trace)[|a|..] == Repeat(range, r.1);
  }

  /**
   * A verify that starts with a known failing sector never reports "clear":
   * the refresh at line 324 cannot reset `sector` to 0.
   */
  lemma {:induction false} NeverClearAfterFailure(cfg: Config, range: Range, attempts: int, s: State)
    requires Clamped(cfg) && 0 <= attempts <= cfg.verifyRetries
    requires s.sector > 0
    ensures VerifyLoop(cfg, range, attempts, s).0 != Clear
    ensures VerifyLoop(cfg, range, attempts, s).2.sector > 0
    decreases cfg.verifyRetries - attempts
  {
    var (e, s2) := AttemptSpec(cfg, range, s);
    AttemptFacts(cfg, range, s);
    if e.status.JString? && Inconclusive(e.status.s) && attempts + 1 <= cfg.verifyRetries {
      RetryStep(cfg, range, attempts, s);
      NeverClearAfterFailure(cfg, range, attempts + 1, Emit(s2, Sleep(RetryWait(cfg.verifyWait))));
    } else if e.status.JString? && !Inconclusive(e.status.s) {
      SectorStaysSet(s2);
    }
  }

  /** The verify runs no repair and leaves `lastsector` and the answers alone. */
  lemma {:induction false} VerifyRepairsNothing(cfg: Config, range: Range, attempts: int, s: State)
    requires Clamped(cfg) && 0 <= attempts <= cfg.verifyRetries
    ensures var r := VerifyLoop(cfg, range, attempts, s).2;
            Repairs(r.trace) == Repairs(s.trace) && r.lastsector == s.lastsector && r.answers == s.answers
    decreases cfg.verifyRetries - attempts, 1
  {
    var x := AttemptSpec(cfg, range, s);
    if x.0.status.JString? && Inconclusive(x.0.status.s) && attempts < cfg.verifyRetries {
      VerifyRepairsNothingRetry(cfg, range, attempts, s);
    } else {
      VerifyRepairsNothingLast(cfg, range, attempts, s);
    }
  }

  lemma {:induction false} VerifyRepairsNothingRetry(cfg: Config, range: Range, attempts: int, s: State)
    requires Clamped(cfg) && 0 <= attempts < cfg.verifyRetries
    requires var x := AttemptSpec(cfg, range, s); x.0.status.JString? && Inconclusive(x.0.status.s)
    ensures var r := VerifyLoop(cfg, range, attempts, s).2;
            Repairs(r.trace) == Repairs(s.trace) && r.lastsector == s.lastsector && r.answers == s.answers
    decreases cfg.verifyRetries - attempts, 0
  {
    var w := Sleep(RetryWait(cfg.verifyWait));
    var x := AttemptSpec(cfg, range, s);
    AttemptFacts(cfg, range, s);
    TestTraceKeepsRepairs(s.trace, x.1.trace, cfg.verifyWait);
    var s3 := Emit(x.1, w);
    RetryStep(cfg, range, attempts, s);
    RepairsConcat(x.1.trace, [w]);
    assert Repairs([w]) == [] by {
      assert [w][..0] == [];
    }
    VerifyRepairsNothing(cfg, range, attempts + 1, s3);
  }

  lemma VerifyRepairsNothingLast(cfg: Config, range: Range, attempts: int, s: State)
    requires Clamped(cfg) && 0 <= attempts <= cfg.verifyRetries
    requires var x := AttemptSpec(cfg, range, s);
             !(x.0.status.JString? && Inconclusive(x.0.status.s) && attempts < cfg.verifyRetries)
    ensures var r := VerifyLoop(cfg, range, attempts, s).2;
            Repairs(r.trace) == Repairs(s.trace) && r.lastsector == s.lastsector && r.answers == s.answers
  {
    var x := AttemptSpec(cfg, range, s);
    AttemptFacts(cfg, range, s);
    TestTraceKeepsRepairs(s.trace, x.1.trace, cfg.verifyWait);
    LastStep(cfg, range, attempts, s);
  }
}
