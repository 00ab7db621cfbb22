/** What `main` guarantees about repairs, verification and the way a run ends. */
module DriverProperties {
  import opened Wrappers
  import opened Json
  import opened Ranges
  import opened World
  import opened Orchestrator
  import opened Repair
  import opened Verification
  import opened RepairDriver

  /** No sector in `xs` repeats the one before it, the first one not `prev`. */
  predicate NoImmediateRepeat(prev: int, xs: seq<int>)
    decreases |xs|
  {
    xs == [] || (xs[0] != prev && NoImmediateRepeat(xs[0], xs[1..]))
  }

  function LastOr(prev: int, xs: seq<int>): int {
    if xs == [] then prev else xs[|xs| - 1]
  }

  /** A failing sector that stays reported is repaired at most once, however long the run. */
  lemma {:induction false} SameSectorRepairedOnce(prev: int, xs: seq<int>, x: int)
    requires NoImmediateRepeat(prev, xs)
    requires forall i :: 0 <= i < |xs| ==> xs[i] == x
    ensures |xs| <= 1
    ensures x == prev ==> xs == []
    decreases |xs|
  {
    if xs != [] {
      SameSectorRepairedOnce(xs[0], xs[1..], x);
    }
  }

  /**
   * The repair loop never reports "No new pending sectors to fix": once
   * `sector` is non-zero no refresh makes it 0 again. It stops for lack of
   * an LBA only when there was none to begin with.
   */
  lemma {:induction false} LoopNeverRunsDry(counter: real, s: State)
    ensures LoopSpec(counter, s).0 != NoNewSector
    ensures LoopSpec(counter, s).0 == NoLbaToRepair <==> counter > 0.0 && s.sector == 0
    ensures s.sector != 0 ==> LoopSpec(counter, s).2.sector != 0
    decreases Budget(counter)
  {
    if counter > 0.0 && s.sector != 0 {
      var s1 := FixSpec(s).1;
      var (st, s2) := RefreshSpec(s1);
      if st == Refreshed {
        LoopNeverRunsDry(counter - 1.0, s2);
      }
    }
  }

  /** One `fix_sector` call: no immediate repeat, and `lastsector` is the last repaired sector. */
  lemma FixChain(s: State)
    requires s.sector != 0
    ensures var r := FixSpec(s).1;
            Repairs(s.trace) <= Repairs(r.trace) &&
            var added := Repairs(r.trace)[|Repairs(s.trace)|..];
            |added| <= 1 && NoImmediateRepeat(s.lastsector, added) && r.lastsector == LastOr(s.lastsector, added)
  {
    FixRepairs(s);
    var r := FixSpec(s).1;
    if FixSpec(s).0 == Attempted {
      assert Repairs(r.trace)[|Repairs(s.trace)|..] == [s.sector];
      assert NoImmediateRepeat(s.sector, []);
    } else {
      assert Repairs(r.trace)[|Repairs(s.trace)|..] == [];
    }
  }

  lemma {:induction false} ChainConcat(prev: int, xs: seq<int>, ys: seq<int>)
    requires NoImmediateRepeat(prev, xs) && NoImmediateRepeat(LastOr(prev, xs), ys)
    ensures NoImmediateRepeat(prev, xs + ys) && LastOr(prev, xs + ys) == LastOr(LastOr(prev, xs), ys)
    decreases |xs|
  {
    if xs == [] {
      assert xs + ys == ys;
    } else {
      ChainConcat(xs[0], xs[1..], ys);
      assert (xs + ys)[1..] == xs[1..] + ys;
      assert LastOr(xs[0], xs[1..]) == LastOr(prev, xs);
    }
  }

  /**
   * Every `fix_sector` call of the loop runs hdparm at most once, and never
   * on the sector it repaired just before: a sector that stays reported is
   * skipped as "already attempted" on every later iteration.
   */
  lemma {:induction false} LoopRepairs(counter: real, s: State)
    ensures var r := LoopSpec(counter, s);
            Repairs(s.trace) <= Repairs(r.2.trace) &&
            var added := Repairs(r.2.trace)[|Repairs(s.trace)|..];
            |added| <= r.1 && NoImmediateRepeat(s.lastsector, added) && r.2.lastsector == LastOr(s.lastsector, added)
    decreases Budget(counter), 1
  {
    var r := LoopSpec(counter, s);
    if !(counter > 0.0) || s.sector == 0 {
      assert Repairs(r.2.trace)[|Repairs(s.trace)|..] == [];
    } else {
      var s1 := FixSpec(s).1;
      var (st, s2) := RefreshSpec(s1);
      if st == Refreshed && s2.sector != 0 {
        LoopRepairsStep(counter, s);
      } else {
        FixChain(s);
        assert r.2.trace == s1.trace && r.2.lastsector == s1.lastsector;
      }
    }
  }

  /** An iteration that goes on to the next: its repair, then those of the rest of the loop. */
  lemma {:induction false} LoopRepairsStep(counter: real, s: State)
    requires counter > 0.0 && s.sector != 0
    requires var r := RefreshSpec(FixSpec(s).1); r.0 == Refreshed && r.1.sector != 0
    ensures var r := LoopSpec(counter, s);
            Repairs(s.trace) <= Repairs(r.2.trace) &&
            var added := Repairs(r.2.trace)[|Repairs(s.trace)|..];
            |added| <= r.1 && NoImmediateRepeat(s.lastsector, added) && r.2.lastsector == LastOr(s.lastsector, added)
    decreases Budget(counter), 0
  {
    var s1 := FixSpec(s).1;
    var s2 := RefreshSpec(s1).1;
    var q := LoopSpec(counter - 1.0, s2);
    assert LoopSpec(counter, s) == (q.0, q.1 + 1, q.2);
    FixChain(s);
    LoopRepairs(counter - 1.0, s2);
    assert s2.trace == s1.trace && s2.lastsector == s1.lastsector;
    ChainJoin(Repairs(s.trace), Repairs(s1.trace), Repairs(q.2.trace), s.lastsector, s1.lastsector, q.2.lastsector, q.1);
  }

  /** Joining the repairs of one iteration with those of the iterations after it. */
  lemma ChainJoin(a: seq<int>, mid: seq<int>, fin: seq<int>, prev: int, last1: int, last2: int, n: int)
    requires a <= mid && |mid| - |a| <= 1
    requires NoImmediateRepeat(prev, mid[|a|..]) && last1 == LastOr(prev, mid[|a|..])
    requires mid <= fin && |fin| - |mid| <= n
    requires NoImmediateRepeat(last1, fin[|mid|..]) && last2 == LastOr(last1, fin[|mid|..])
    ensures a <= fin && |fin[|a|..]| <= n + 1
    ensures NoImmediateRepeat(prev, fin[|a|..]) && last2 == LastOr(prev, fin[|a|..])
  {
    var step, rest := mid[|a|..], fin[|mid|..];
    ChainConcat(prev, step, rest);
    assert fin[|a|..] == step + rest;
  }

  /** The short-test fallback runs no repair. */
  lemma OfferShortRepairsNothing(cfg: Config, lba: int, afterVerify: bool, s: State)
    ensures Repairs(OfferShort(cfg, lba, afterVerify, s).1.trace) == Repairs(s.trace)
  {
    var s1 := Confirm(cfg, s).1;
    ShortTestOrchestrated(cfg, s1);
    TestTraceKeepsRepairs(s1.trace, ShortTestSpec(cfg, s1).trace, 0);
  }

  lemma ReportVerifyRepairsNothing(cfg: Config, lba: int, o: VerifyOutcome, s: State)
    ensures Repairs(ReportVerify(cfg, lba, o, s).1.trace) == Repairs(s.trace)
  {
    OfferShortRepairsNothing(cfg, lba, true, s);
  }

  /** After "still lists the same LBA" nothing is repaired again. */
  lemma SameLbaRepairsNothing(cfg: Config, lba: int, s: State)
    requires Clamped(cfg)
    ensures Repairs(SameLbaSpec(cfg, lba, s).1.trace) == Repairs(s.trace)
  {
    var (verify, s1) := Confirm(cfg, s);
    if verify {
      VerifyRepairsNothing(cfg, ClampRange(lba, 5), 0, s1);
      var (o, s2) := VerifySpec(cfg, lba, 5, s1);
      ReportVerifyRepairsNothing(cfg, lba, o, s2);
    } else {
      OfferShortRepairsNothing(cfg, lba, false, s1);
    }
  }

  /** The report after a verify or a short test that starts from a known failure. */
  predicate SeesFailure(f: Followup) {
    match f
    case VerifyDone(o) => o == Failed
    case ShortAfterVerify(x) => x > 0
    case ShortInstead(x) => x > 0
    case _ => true
  }

  /** A short test started with a known failing sector still reports one. */
  lemma OfferShortSeesFailure(cfg: Config, lba: int, afterVerify: bool, s: State)
    requires s.sector > 0
    ensures var r := OfferShort(cfg, lba, afterVerify, s).0;
            r.Exit? ==> r.conclusion.SameLba? && r.conclusion.lba == lba && SeesFailure(r.conclusion.followup)
  {
    ShortTestOrchestrated(cfg, Confirm(cfg, s).1);
    SectorStaysSet(ShortTestSpec(cfg, Confirm(cfg, s).1));
  }

  lemma ReportVerifySeesFailure(cfg: Config, lba: int, o: VerifyOutcome, s: State)
    requires s.sector > 0 && o != Clear
    ensures var r := ReportVerify(cfg, lba, o, s).0;
            r.Exit? ==> r.conclusion.SameLba? && r.conclusion.lba == lba && SeesFailure(r.conclusion.followup)
  {
    OfferShortSeesFailure(cfg, lba, true, s);
  }

  /**
   * With the repaired sector still known, neither the verify's "clear"
   * (lines 325-327) nor "After short test: no failing LBA reported" (lines
   * 412-413 and 422-423) can be reached.
   */
  lemma SameLbaNeverClear(cfg: Config, lba: int, s: State)
    requires Clamped(cfg) && s.sector > 0
    ensures var r := SameLbaSpec(cfg, lba, s).0;
            r.Exit? ==> r.conclusion.SameLba? && r.conclusion.lba == lba && SeesFailure(r.conclusion.followup)
  {
    var (verify, s1) := Confirm(cfg, s);
    if verify {
      NeverClearAfterFailure(cfg, ClampRange(lba, 5), 0, s1);
      var (o, s2) := VerifySpec(cfg, lba, 5, s1);
      ReportVerifySeesFailure(cfg, lba, o, s2);
    } else {
      OfferShortSeesFailure(cfg, lba, false, s1);
    }
  }

  /**
   * The one-shot path repairs the first failing LBA exactly once when it is
   * positive and not yet attempted, and nothing otherwise; it never reports
   * "No further sectors reported as failed"; and when the LBA stays
   * reported, the follow-up never sees it cleared.
   */
  lemma OneShotOutcome(cfg: Config, s: State)
    requires Clamped(cfg)
    ensures var r := OneShotSpec(cfg, s);
            Repairs(r.1.trace) == Repairs(s.trace) + (if s.sector > 0 && s.sector != s.lastsector then [s.sector] else [])
    ensures OneShotSpec(cfg, s).0 != Exit(0, NoFurtherFailures)
    ensures s.sector <= 0 ==> OneShotSpec(cfg, s) == (Exit(0, NothingToFix), s)
    ensures var r := OneShotSpec(cfg, s).0;
            r.Exit? && r.conclusion.SameLba? ==> r.conclusion.lba == s.sector && SeesFailure(r.conclusion.followup)
  {
    if s.sector > 0 {
      var s1 := FixSpec(s).1;
      FixRepairs(s);
      var s2 := RefreshSpec(s1).1;
      SectorStaysSet(s1);
      SameLbaRepairsNothing(cfg, s1.lastsector, s2);
      SameLbaNeverClear(cfg, s1.lastsector, s2);
    }
  }

  /** Lines 368-373: which self-tests run before the first refresh. */
  lemma TestsChosen(cfg: Config, ranges: seq<Range>, s: State)
    ensures var r := TestsSpec(cfg, ranges, s);
            CountOf(r.trace, StartShortTest) ==
              CountOf(s.trace, StartShortTest) + (if !cfg.skipShort && ranges == [] then 1 else 0) &&
            StartedRanges(r.trace) == StartedRanges(s.trace) + ranges &&
            Repairs(r.trace) == Repairs(s.trace)
  {
    var s1 := if !cfg.skipShort && ranges == [] then ShortTestSpec(cfg, s) else s;
    if !cfg.skipShort && ranges == [] {
      ShortTestStarts(cfg, s);
      ShortTestOrchestrated(cfg, s);
      TestTraceKeepsRepairs(s.trace, s1.trace, 0);
    }
    if ranges != [] {
      SelectiveNoShort(cfg, ranges, s1);
      SelectiveStartsInOrder(cfg, ranges, s1);
      SelectiveOrchestrated(cfg, ranges, s1);
      TestTraceKeepsRepairs(s1.trace, SelectiveTestsSpec(cfg, ranges, s1).trace, 0);
    } else {
      assert StartedRanges(s.trace) + ranges == StartedRanges(s.trace);
    }
  }

  /** An invalid `--select` value raises before any smartctl call or self-test. */
  lemma InvalidSelectRaisesFirst(cfg: Config, s: State)
    requires Clamped(cfg) && Confirm(cfg, s).0 && ParseAll(cfg.select).Err?
    ensures DriverSpec(cfg, s).0 == Raised(SelectInvalid(ParseAll(cfg.select).error))
    ensures DriverSpec(cfg, s).1.trace == s.trace && DriverSpec(cfg, s).1.responses == s.responses
  {
  }

  /**
   * In counted mode a first refresh whose data has no attribute 197 row
   * leaves `pendcount` at -1, and `main` raises instead of looping.
   */
  lemma MissingAttributeIsFatal(s: State)
    requires NextResponse(s).Some? && Truthy(NextResponse(s).value)
    requires StatusReader.PendingRow(NextResponse(s).value).None?
    ensures CountedSpec(RefreshSpec(s).1).0 == Raised(PendingCountUnknown)
  {
    RefreshWithoutAttribute(s);
  }

  /**
   * In counted mode: `fix_sector` is called at most `pendcount` times (rounded
   * up for a float), hdparm runs at most once per call and never twice in a
   * row on the same sector.
   */
  lemma CountedRepairs(s: State)
    ensures var r := CountedSpec(s);
            Repairs(s.trace) <= Repairs(r.1.trace) &&
            NoImmediateRepeat(s.lastsector, Repairs(r.1.trace)[|Repairs(s.trace)|..]) &&
            (r.0.Exit? ==> r.0.conclusion.LoopEnded? &&
                           |Repairs(r.1.trace)| - |Repairs(s.trace)| <= r.0.conclusion.fixCalls &&
                           r.0.conclusion.reason != NoNewSector)
    ensures var r := CountedSpec(s);
            r.0.Exit? ==> Numeric(s.pendcount).Some? &&
                          r.0.conclusion.fixCalls <= Budget(Numeric(s.pendcount).value) &&
                          (s.pendcount.JInt? ==> r.0.conclusion.fixCalls <= if s.pendcount.n > 0 then s.pendcount.n else 0)
  {
    if !EqualsInt(s.pendcount, -1) && Numeric(s.pendcount).Some? {
      LoopRepairs(Numeric(s.pendcount).value, s);
      LoopNeverRunsDry(Numeric(s.pendcount).value, s);
      if s.pendcount.JInt? {
        BudgetOfInt(s.pendcount.n);
      }
    } else {
      assert Repairs(s.trace)[|Repairs(s.trace)|..] == [];
    }
  }

  /** `main` in one-shot mode runs hdparm at most once. */
  lemma OneShotRepairsAtMostOnce(cfg: Config, s: State)
    requires Clamped(cfg) && cfg.skipShort && cfg.fixFirstError
    ensures |Repairs(DriverSpec(cfg, s).1.trace)| <= |Repairs(s.trace)| + 1
  {
    var (go, s1) := Confirm(cfg, s);
    if go && ParseAll(cfg.select).Ok? {
      var ranges := ParseAll(cfg.select).value;
      var s2 := TestsSpec(cfg, ranges, s1);
      TestsChosen(cfg, ranges, s1);
      var (st, s3) := RefreshSpec(s2);
      if st == Refreshed {
        OneShotOutcome(cfg, s3);
      }
    }
  }
}
