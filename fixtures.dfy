/**
 * Concrete runs of `main` on small smartctl reports: the counted loop
 * repairing three sectors in turn, and the one-shot path without a failing
 * LBA.
 */
module Fixtures {
  import opened Wrappers
  import opened Json
  import opened StatusReader
  import opened Ranges
  import opened World
  import opened Repair
  import opened RepairDriver

  /**
   * A `smartctl -j -A -l selftest` report: attribute 197 with raw value
   * `pending`, and one self-test log entry, a read failure at `lba` when
   * `lba` is positive and a completed test otherwise.
   */
  function Report(pending: int, lba: int): Json {
    var attribute := JObject(map["id" := JInt(197), "raw" := JObject(map["value" := JInt(pending)])]);
    var status := JString(if lba > 0 then ReadFailure else "Completed without error");
    var entry := JObject(map["status" := JObject(map["string" := status]), "lba" := JInt(lba)]);
    JObject(map[
      "ata_smart_attributes" := JObject(map["table" := JArray([attribute])]),
      "ata_smart_self_test_log" := JObject(map["standard" := JObject(map["table" := JArray([entry])])])])
  }

  /** The report's attribute 197 has raw value `pending`. */
  lemma ReportPending(pending: int, lba: int)
    ensures PendingValue(Report(pending, lba)) == Some(JInt(pending))
  {
    var attribute := JObject(map["id" := JInt(197), "raw" := JObject(map["value" := JInt(pending)])]);
    assert Path(Report(pending, lba), AttributeTable) == Some(JArray([attribute]));
    assert PendingAttribute([attribute]) == Some(attribute);
  }

  /** The report names `lba` as failing exactly when it is positive. */
  lemma ReportFailing(pending: int, lba: int)
    ensures FailingLba(Report(pending, lba)) == if lba > 0 then Some(lba) else None
  {
    var status := JString(if lba > 0 then ReadFailure else "Completed without error");
    var entry := JObject(map["status" := JObject(map["string" := status]), "lba" := JInt(lba)]);
    assert Path(Report(pending, lba), SelftestTable) == Some(JArray([entry]));
    assert Readable(entry);
    if lba > 0 {
      assert IsReadFailure(entry);
      assert FailureScan([entry]) == Some(lba);
    } else {
      assert !IsReadFailure(entry) by {
        assert "Completed without error" != ReadFailure by {
          assert "Completed without error"[10] != ReadFailure[10];
        }
      }
      assert FailureScan([entry]) == FailureScan([entry][1..]);
      assert [entry][1..] == [];
    }
  }

  /** Refreshing from a report sets the count, and the failing LBA when there is one. */
  lemma RefreshOnReport(s: State, pending: int, lba: int)
    requires NextResponse(s) == Some(Report(pending, lba))
    ensures RefreshSpec(s) ==
              (Refreshed, Consume(s).(pendcount := JInt(pending), sector := if lba > 0 then lba else s.sector))
  {
    var d := Report(pending, lba);
    assert "ata_smart_attributes" in d.fields;
    ReportPending(pending, lba);
    ReportFailing(pending, lba);
    RefreshReads(s, d, JInt(pending));
  }

  /** pending_count = 3, 2, 1, 0 with failing LBAs 500, 501, 502 and none. */
  const Reports: seq<Option<Json>> :=
    [Some(Report(3, 500)), Some(Report(2, 501)), Some(Report(1, 502)), Some(Report(0, 0))]

  /** The default mode with the initial self-test skipped and every prompt answered yes. */
  const CountedConfig: Config := Config(true, true, false, [], 2, 10, false)

  function Bump(r: (LoopEnd, nat, State)): (LoopEnd, nat, State) {
    (r.0, r.1 + 1, r.2)
  }

  function Fixed(lbas: seq<int>): (t: seq<Event>)
    decreases |lbas|
  {
    if lbas == [] then [] else Fixed(lbas[..|lbas| - 1]) + [RepairSector(lbas[|lbas| - 1]), LogRepair(lbas[|lbas| - 1])]
  }

  lemma {:induction false} FixedRepairs(lbas: seq<int>)
    ensures Repairs(Fixed(lbas)) == lbas
    decreases |lbas|
  {
    if lbas != [] {
      var x := lbas[|lbas| - 1];
      FixedRepairs(lbas[..|lbas| - 1]);
      RepairsConcat(Fixed(lbas[..|lbas| - 1]), [RepairSector(x), LogRepair(x)]);
      var one, two := [RepairSector(x)], [RepairSector(x), LogRepair(x)];
      assert Repairs(one) == [x] by { assert one[..0] == []; }
      assert two[..1] == one;
      assert lbas[..|lbas| - 1] + [x] == lbas;
    }
  }

  /** The globals after each refresh of the run. */
  function After(k: nat): State
    requires 1 <= k <= 4
  {
    match k
    case 1 => State(500, -1, JInt(3), Reports[1..], [], [])
    case 2 => State(501, 500, JInt(2), Reports[2..], [], Fixed([500]))
    case 3 => State(502, 501, JInt(1), Reports[3..], [], Fixed([500, 501]))
    case 4 => State(502, 502, JInt(0), [], [], Fixed([500, 501, 502]))
  }

  lemma StartOfRun()
    ensures DriverSpec(CountedConfig, Initial(Reports, [])) == CountedSpec(After(1))
  {
    RefreshOnReport(Initial(Reports, []), 3, 500);
    assert ParseAll([]) == Ok([]);
  }

  /** One iteration of the loop whose refresh succeeds with a failing LBA: repair, refresh, count down. */
  lemma LoopOnRefresh(counter: real, s: State, next: State)
    requires counter > 1.0 && s.sector != 0
    requires RefreshSpec(FixSpec(s).1) == (Refreshed, next) && next.sector != 0
    ensures LoopSpec(counter, s) == Bump(LoopSpec(counter - 1.0, next))
  {
  }

  lemma FirstIteration()
    ensures LoopSpec(3.0, After(1)) == Bump(LoopSpec(2.0, After(2)))
  {
    var s := After(1);
    var f := FixSpec(s).1;
    assert f == s.(lastsector := 500, trace := Fixed([500]));
    assert NextResponse(f) == Some(Report(2, 501));
    RefreshOnReport(f, 2, 501);
    LoopOnRefresh(3.0, s, After(2));
  }

  lemma SecondIteration()
    ensures LoopSpec(2.0, After(2)) == Bump(LoopSpec(1.0, After(3)))
  {
    var s := After(2);
    assert [500, 501][..1] == [500];
    var f := FixSpec(s).1;
    assert f == s.(lastsector := 501, trace := Fixed([500, 501]));
    assert NextResponse(f) == Some(Report(1, 502));
    RefreshOnReport(f, 1, 502);
    LoopOnRefresh(2.0, s, After(3));
  }

  lemma LastIteration()
    ensures LoopSpec(1.0, After(3)) == (CountReached, 1, After(4))
  {
    var s := After(3);
    assert [500, 501, 502][..2] == [500, 501];
    var f := FixSpec(s).1;
    assert f == s.(lastsector := 502, trace := Fixed([500, 501, 502]));
    assert NextResponse(f) == Some(Report(0, 0));
    RefreshOnReport(f, 0, 0);
    assert LoopSpec(0.0, After(4)) == (CountReached, 0, After(4));
  }

  lemma CountedRun()
    ensures CountedSpec(After(1)) == (Exit(0, LoopEnded(CountReached, 3)), After(4))
  {
    FirstIteration();
    SecondIteration();
    LastIteration();
    assert Numeric(JInt(3)) == Some(3.0);
  }

  lemma WholeRun()
    ensures DriverSpec(CountedConfig, Initial(Reports, [])) == (Exit(0, LoopEnded(CountReached, 3)), After(4))
  {
    StartOfRun();
    CountedRun();
  }

  /**
   * The counted loop repairs 500, 501 and 502 in that order and stops when
   * the count runs out. The last report lists no read failure, but `sector`
   * keeps 502, so the loop does not end by "No new pending sectors".
   */
  lemma CountedRunRepairsInOrder()
    ensures var r := DriverSpec(CountedConfig, Initial(Reports, []));
            r.0 == Exit(0, LoopEnded(CountReached, 3)) &&
            Repairs(r.1.trace) == [500, 501, 502] && r.1.sector == 502 && r.1.pendcount == JInt(0)
  {
    WholeRun();
    var last := After(4);
    assert last.trace == Fixed([500, 501, 502]) && last.sector == 502 && last.pendcount == JInt(0);
    FixedRepairs([500, 501, 502]);
  }

  /** One-shot mode on a report without a failing LBA: nothing is repaired. */
  lemma OneShotWithoutFailure()
    ensures var cfg := Config(true, true, true, [], 2, 10, false);
            var r := DriverSpec(cfg, Initial([Some(Report(0, 0))], []));
            r.0 == Exit(0, NothingToFix) && Repairs(r.1.trace) == []
  {
    var s0 := Initial([Some(Report(0, 0))], []);
    RefreshOnReport(s0, 0, 0);
    assert ParseAll([]) == Ok([]);
  }
}

/** A drive whose selective self-tests are always interrupted. */
module InterruptedVerify {
  import opened Wrappers
  import opened Json
  import opened Text
  import opened StatusReader
  import opened Ranges
  import opened World
  import opened Orchestrator
  import opened Repair
  import opened Verification

  /** A report whose most recent self-test log entry has `status`, and with no `-c` status. */
  function LogWith(status: string): Json {
    JObject(map["ata_smart_self_test_log" := JObject(map["standard" := JObject(map["table" :=
      JArray([JObject(map["status" := JObject(map["string" := JString(status)]), "lba" := JInt(0)])])])])])
  }

  function At(rs: seq<Option<Json>>, i: nat): Option<Json>
    requires i < |rs|
  {
    rs[i]
  }

  /** Every smartctl output is a report whose latest self-test ended with `status`. */
  predicate AllInterrupted(rs: seq<Option<Json>>, status: string) {
    forall i: nat :: i < |rs| ==> At(rs, i) == Some(LogWith(status))
  }

  /** A status that begins with "Interrupted" makes the verify retry. */
  lemma InterruptedStatus(status: string)
    requires |status| >= 11 && status[..11] == "Interrupted"
    ensures Inconclusive(status)
  {
    var low := Lower(status);
    LowerPointwise(status);
    assert low[..11] == "interrupted" by {
      forall i | 0 <= i < 11 ensures low[i] == "interrupted"[i] {
        assert low[i] == LowerChar(status[i]);
        assert status[i] == "Interrupted"[i];
      }
    }
    assert "interrupted" <= low;
  }

  /** The report shows no running test and yields `status` as the latest log entry. */
  lemma LogWithFacts(status: string)
    ensures !SelftestStatus(Some(LogWith(status))).inProgress
    ensures LastSelftestEntry(Some(LogWith(status))) == Entry(JString(status), 0)
  {
    assert StatusObject(LogWith(status)) == Some(EmptyObject);
    assert MostRecentLog(LogWith(status)) ==
             Some(JObject(map["status" := JObject(map["string" := JString(status)]), "lba" := JInt(0)]));
  }

  /** On this oracle an attempt reads four outputs, and the log entry it sees has `status`. */
  lemma InterruptedAttempt(cfg: Config, range: Range, status: string, s: State)
    requires AllInterrupted(s.responses, status) && |s.responses| >= 4
    ensures var x := AttemptSpec(cfg, range, s);
            x.0.status == JString(status) && x.1.responses == s.responses[4..]
  {
    LogWithFacts(status);
    assert At(s.responses, 0) == At(s.responses, 1) == At(s.responses, 2) == At(s.responses, 3) == Some(LogWith(status));
    var s1 := EnsureIdleSpec(s);
    assert s1 == Consume(s);
    var s2 := PauseSpec(cfg, Emit(s1, StartSelectiveTest(range)));
    assert s2.responses == s.responses[1..];
    assert NextResponse(s2) == Some(LogWith(status));
    var s3 := WaitSpec(s2);
    assert s3.responses == s.responses[3..];
    assert RunRanges(cfg, [range], s1) == RunRanges(cfg, [], s3);
    assert NextResponse(s3) == Some(LogWith(status));
  }

  /** Dropping the outputs one attempt read leaves an oracle of the same kind. */
  lemma InterruptedRest(rs: seq<Option<Json>>, status: string)
    requires AllInterrupted(rs, status) && |rs| >= 4
    ensures AllInterrupted(rs[4..], status)
  {
    forall i: nat | i < |rs| - 4 ensures At(rs[4..], i) == Some(LogWith(status)) {
      assert At(rs[4..], i) == At(rs, i + 4);
    }
  }

  /** The outcome of the verify loop alone. */
  function Outcome(cfg: Config, range: Range, attempts: int, s: State): VerifyOutcome
    requires Clamped(cfg) && 0 <= attempts <= cfg.verifyRetries
  {
    VerifyLoop(cfg, range, attempts, s).0
  }

  /**
   * The last allowed attempt ends "interrupted"; an earlier one leads, after
   * VERIFY_WAIT, to the next attempt from `next`, an oracle of the same kind.
   */
  lemma InterruptedStep(cfg: Config, range: Range, status: string, attempts: int, s: State) returns (next: State)
    requires Clamped(cfg) && 0 <= attempts <= cfg.verifyRetries && Inconclusive(status)
    requires AllInterrupted(s.responses, status) && |s.responses| >= 4
    ensures AllInterrupted(next.responses, status) && |next.responses| == |s.responses| - 4
    ensures attempts == cfg.verifyRetries ==> Outcome(cfg, range, attempts, s) == Interrupted
    ensures attempts < cfg.verifyRetries ==>
              Outcome(cfg, range, attempts, s) == Outcome(cfg, range, attempts + 1, next)
  {
    InterruptedAttempt(cfg, range, status, s);
    InterruptedRest(s.responses, status);
    next := Emit(AttemptSpec(cfg, range, s).1, Sleep(RetryWait(cfg.verifyWait)));
    if attempts < cfg.verifyRetries {
      RetryStep(cfg, range, attempts, s);
    }
  }

  /** Attempt after attempt is inconclusive, until the retries run out. */
  lemma InterruptedLoop(cfg: Config, range: Range, status: string, s: State)
    requires Clamped(cfg) && Inconclusive(status)
    requires AllInterrupted(s.responses, status) && |s.responses| >= 4 * (cfg.verifyRetries + 1)
    ensures Outcome(cfg, range, 0, s) == Interrupted
  {
    var a := 0;
    var t := s;
    while a < cfg.verifyRetries
      invariant 0 <= a <= cfg.verifyRetries
      invariant AllInterrupted(t.responses, status) && |t.responses| >= 4 * (cfg.verifyRetries + 1 - a)
      invariant Outcome(cfg, range, 0, s) == Outcome(cfg, range, a, t)
    {
      t := InterruptedStep(cfg, range, status, a, t);
      a := a + 1;
    }
    var _ := InterruptedStep(cfg, range, status, a, t);
  }

  /**
   * When every self-test ends inconclusive (interrupted, aborted or a host
   * reset, line 314) the verify reports "interrupted"
   * after exactly VERIFY_RETRIES + 1 selective tests on the clamped range,
   * with exactly VERIFY_RETRIES waits of VERIFY_WAIT seconds.
   */
  lemma AlwaysInterrupted(cfg: Config, lba: int, delta: int, status: string, s: State)
    requires Clamped(cfg) && Inconclusive(status)
    requires AllInterrupted(s.responses, status) && |s.responses| >= 4 * (cfg.verifyRetries + 1)
    ensures VerifySpec(cfg, lba, delta, s).0 == Interrupted
    ensures var r := VerifySpec(cfg, lba, delta, s).1;
            StartedRanges(s.trace) <= StartedRanges(r.trace) &&
            StartedRanges(r.trace)[|StartedRanges(s.trace)|..] == Repeat(ClampRange(lba, delta), cfg.verifyRetries + 1) &&
            CountOf(r.trace, Sleep(RetryWait(cfg.verifyWait))) ==
              CountOf(s.trace, Sleep(RetryWait(cfg.verifyWait))) + cfg.verifyRetries
  {
    InterruptedLoop(cfg, ClampRange(lba, delta), status, s);
    VerifyBounded(cfg, lba, delta, s);
    VerifyStarts(cfg, ClampRange(lba, delta), 0, s);
  }
}
