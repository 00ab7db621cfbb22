/**
 * smartfix.py as a program: the globals `sector`, `lastsector` and
 * `pendcount` become fields of a `Driver`, together with the queue of
 * smartctl outputs still to come, the operator's answers still to be given,
 * and a ghost trace of the commands issued. Every method is proved to do
 * what the corresponding function of the specification modules says.
 */
module Smartfix {
  import opened Wrappers
  import opened Json
  import opened Text
  import opened StatusReader
  import opened Ranges
  import opened World
  import opened Orchestrator
  import opened Repair
  import opened Verification
  import opened RepairDriver

  /** The loop at lines 207-210, as written: stop at the first row with id 197, or at a row `.get` raises on. */
  method FindPendingAttribute(attrs: seq<Json>) returns (found: Option<Json>)
    ensures found == PendingAttribute(attrs)
  {
    var i := 0;
    while i < |attrs|
      invariant 0 <= i <= |attrs|
      invariant PendingAttribute(attrs) == PendingAttribute(attrs[i..])
    {
      assert attrs[i..][0] == attrs[i] && attrs[i..][1..] == attrs[i + 1..];
      var attribute := attrs[i];
      if !attribute.JObject? {
        return None;
      }
      if IsPendingAttribute(attribute) {
        return Some(attribute);
      }
      i := i + 1;
    }
    return None;
  }

  /** The loop at lines 224-231, as written: the first "Completed: read failure" entry decides. */
  method FindReadFailure(logs: seq<Json>) returns (found: Option<int>)
    ensures found == FailureScan(logs)
  {
    var i := 0;
    while i < |logs|
      invariant 0 <= i <= |logs|
      invariant FailureScan(logs) == FailureScan(logs[i..])
    {
      assert logs[i..][0] == logs[i] && logs[i..][1..] == logs[i + 1..];
      var log := logs[i];
      if !Readable(log) {
        return None;
      }
      if IsReadFailure(log) {
        return PositiveLba(log);
      }
      i := i + 1;
    }
    return None;
  }

  class Driver {
    const cfg: Config
    var sector: int
    var lastsector: int
    var pendcount: Json
    var responses: seq<Option<Json>>
    var answers: seq<bool>
    ghost var trace: seq<Event>

    /** The driver's state as the specification functions see it. */
    ghost function Abs(): State
      reads this
    {
      State(sector, lastsector, pendcount, responses, answers, trace)
    }

    /** The globals at start-up, with the outputs and answers the run will see. */
    constructor (cfg: Config, responses: seq<Option<Json>>, answers: seq<bool>)
      ensures this.cfg == cfg && Abs() == Initial(responses, answers)
    {
      this.cfg := cfg;
      sector := 0;
      lastsector := -1;
      pendcount := JInt(-1);
      this.responses := responses;
      this.answers := answers;
      trace := [];
    }

    /** `smartjson(...)`: the next parsed output, None when it did not parse or none is left. */
    method SmartJson() returns (data: Option<Json>)
      modifies this
      ensures data == NextResponse(old(Abs())) && Abs() == Consume(old(Abs()))
    {
      if responses == [] {
        return None;
      }
      data := responses[0];
      responses := responses[1..];
    }

    /** `confirm(prompt)`, and the "Continue?" prompt of lines 359-362. */
    method Confirm() returns (yes: bool)
      modifies this
      ensures (yes, Abs()) == World.Confirm(cfg, old(Abs()))
    {
      if cfg.assumeYes {
        return true;
      }
      if answers == [] {
        return false;
      }
      yes := answers[0];
      answers := answers[1..];
    }

    method GetSelftestStatus() returns (status: Snapshot)
      modifies this
      ensures (status, Abs()) == StatusStep(old(Abs()))
    {
      var data := SmartJson();
      status := SelftestStatus(data);
    }

    method GetLastSelftestEntry() returns (entry: Entry)
      modifies this
      ensures entry == LastSelftestEntry(NextResponse(old(Abs()))) && Abs() == Consume(old(Abs()))
    {
      var data := SmartJson();
      entry := LastSelftestEntry(data);
    }

    /** `wait_for_selftest_completion()`: poll until idle, then read the log once. */
    method WaitForSelftestCompletion()
      modifies this
      ensures Abs() == WaitSpec(old(Abs()))
    {
      while true
        invariant WaitSpec(Abs()) == WaitSpec(old(Abs()))
        decreases |responses|
      {
        var status := GetSelftestStatus();
        if !status.inProgress {
          var _ := SmartJson();
          return;
        }
        trace := trace + [Sleep(PollInterval)];
      }
    }

    /** `ensure_no_active_selftest()`. */
    method EnsureNoActiveSelftest()
      modifies this
      ensures Abs() == EnsureIdleSpec(old(Abs()))
    {
      var status := GetSelftestStatus();
      if status.inProgress {
        WaitForSelftestCompletion();
      }
    }

    method Pause()
      modifies this
      ensures Abs() == PauseSpec(cfg, old(Abs()))
    {
      if cfg.startPause {
        trace := trace + [Sleep(StartPause)];
      }
    }

    /** `start_short_test()`. */
    method StartShortTest()
      modifies this
      ensures Abs() == ShortTestSpec(cfg, old(Abs()))
    {
      EnsureNoActiveSelftest();
      trace := trace + [Event.StartShortTest];
      Pause();
      WaitForSelftestCompletion();
    }

    /** `start_selective_tests(ranges)`. */
    method StartSelectiveTests(ranges: seq<Range>)
      modifies this
      ensures Abs() == SelectiveTestsSpec(cfg, ranges, old(Abs()))
    {
      EnsureNoActiveSelftest();
      ghost var target := RunRanges(cfg, ranges, Abs());
      for i := 0 to |ranges|
        invariant RunRanges(cfg, ranges[i..], Abs()) == target
      {
        assert ranges[i..][0] == ranges[i] && ranges[i..][1..] == ranges[i + 1..];
        trace := trace + [StartSelectiveTest(ranges[i])];
        Pause();
        WaitForSelftestCompletion();
      }
      assert ranges[|ranges|..] == [];
    }

    /** `refresh_pending_and_failure()`. */
    method RefreshPendingAndFailure() returns (status: RefreshStatus)
      modifies this
      ensures (status, Abs()) == RefreshSpec(old(Abs()))
    {
      var data := SmartJson();
      if data.None? || !Truthy(data.value) {
        return Unavailable;
      }
      var row: Option<Json> := None;
      var attrs := Path(data.value, AttributeTable);
      if attrs.Some? && attrs.value.JArray? {
        row := FindPendingAttribute(attrs.value.items);
      }
      assert row == PendingRow(data.value);
      var count: Json := JInt(-1);
      if row.Some? {
        var raw := Get(row.value, "raw", EmptyObject);
        var value := if raw.Some? then Get(raw.value, "value", JInt(-1)) else None;
        if value.None? {
          return RawNotDict;
        }
        count := value.value;
      }
      assert PendingValue(data.value) == Some(count);
      pendcount := count;
      var found: Option<int> := None;
      var logs := Path(data.value, SelftestTable);
      if logs.Some? && logs.value.JArray? {
        found := FindReadFailure(logs.value.items);
      }
      assert found == FailingLba(data.value);
      if found.Some? {
        sector := found.value;
      }
      return Refreshed;
    }

    /** `fix_sector()`. */
    method FixSector() returns (outcome: FixOutcome)
      modifies this
      ensures (outcome, Abs()) == FixSpec(old(Abs()))
    {
      if sector == 0 {
        return ZeroSector;
      }
      if sector == lastsector {
        return AlreadyAttempted;
      }
      trace := trace + [RepairSector(sector), LogRepair(sector)];
      lastsector := sector;
      return Attempted;
    }

    /** `run_verify_selective_around(lba, delta)`. */
    method RunVerifySelectiveAround(lba: int, delta: int) returns (outcome: VerifyOutcome)
      requires Clamped(cfg)
      modifies this
      ensures (outcome, Abs()) == VerifySpec(cfg, lba, delta, old(Abs()))
    {
      var start := lba - delta;
      if start < 0 {
        start := 0;
      }
      var range := Range(start, lba + delta);
      assert range == ClampRange(lba, delta);
      ghost var target := VerifyLoop(cfg, range, 0, Abs());
      var attempts := 0;
      while true
        invariant 0 <= attempts <= cfg.verifyRetries
        invariant VerifyLoop(cfg, range, attempts, Abs()) == target
        decreases cfg.verifyRetries - attempts
      {
        ghost var before := Abs();
        attempts := attempts + 1;
        StartSelectiveTests([range]);
        var entry := GetLastSelftestEntry();
        assert (entry, Abs()) == AttemptSpec(cfg, range, before);
        if !entry.status.JString? {
          return StatusNotText;
        }
        if Inconclusive(entry.status.s) {
          if attempts <= cfg.verifyRetries {
            RetryStep(cfg, range, attempts - 1, before);
            trace := trace + [Sleep(RetryWait(cfg.verifyWait))];
          } else {
            return Interrupted;
          }
        } else {
          var status := RefreshPendingAndFailure();
          if status == RawNotDict {
            return RefreshRaised;
          }
          if sector == 0 {
            return Clear;
          }
          return Failed;
        }
      }
    }

    /** `start_short_test(); _ = refresh_pending_and_failure()` and the report after it. */
    method ShortTestAndRecheck(lba: int, afterVerify: bool) returns (result: Run)
      modifies this
      ensures (result, Abs()) == ShortFollowup(cfg, lba, afterVerify, old(Abs()))
    {
      StartShortTest();
      var status := RefreshPendingAndFailure();
      if status == RawNotDict {
        return Raised(PendingRawNotDict);
      }
      var followup := if afterVerify then ShortAfterVerify(sector) else ShortInstead(sector);
      return Exit(0, SameLba(lba, followup));
    }

    /** Lines 396-425: the log still names the LBA just repaired. */
    method HandleSameLba(lba: int) returns (result: Run)
      requires Clamped(cfg)
      modifies this
      ensures (result, Abs()) == SameLbaSpec(cfg, lba, old(Abs()))
    {
      var verify := Confirm();
      if verify {
        var outcome := RunVerifySelectiveAround(lba, 5);
        if outcome == StatusNotText {
          return Raised(LogStatusNotText);
        }
        if outcome == RefreshRaised {
          return Raised(PendingRawNotDict);
        }
        if outcome == Interrupted {
          var short := Confirm();
          if short {
            result := ShortTestAndRecheck(lba, true);
            return;
          }
          return Exit(0, SameLba(lba, VerifyInterrupted));
        }
        return Exit(0, SameLba(lba, VerifyDone(outcome)));
      }
      var short := Confirm();
      if short {
        result := ShortTestAndRecheck(lba, false);
        return;
      }
      return Exit(0, SameLba(lba, Skipped));
    }

    /**
     * Lines 380-438. The test `post_lba == 0` is kept, although with the
     * repaired sector still set it cannot hold (DriverProperties.OneShotOutcome).
     */
    method RunOneShot() returns (result: Run)
      requires Clamped(cfg)
      modifies this
      ensures (result, Abs()) == OneShotSpec(cfg, old(Abs()))
    {
      if !(sector > 0) {
        return Exit(0, NothingToFix);
      }
      var _ := FixSector();
      var repaired := lastsector;
      var status := RefreshPendingAndFailure();
      if status == RawNotDict {
        return Raised(PendingRawNotDict);
      }
      var post := sector;
      if post != 0 && post == repaired {
        result := HandleSameLba(repaired);
        return;
      }
      return Exit(0, if post == 0 then NoFurtherFailures else DifferentLba(post, repaired));
    }

    /**
     * The `while pendcounter > 0` loop of lines 447-465, also counting the
     * `fix_sector` calls. The "Zero sector number" exception is never raised
     * here, since the loop calls `fix_sector` only on a non-zero sector, and
     * a failure to launch hdparm or logger is not modelled, so the `except`
     * branch of lines 452-454 is never taken.
     */
    method RepairLoop(counter: real) returns (end: LoopEnd, calls: nat)
      modifies this
      ensures (end, calls, Abs()) == LoopSpec(counter, old(Abs()))
    {
      var pendcounter := counter;
      calls := 0;
      ghost var target := LoopSpec(counter, Abs());
      while pendcounter > 0.0
        invariant var r := LoopSpec(pendcounter, Abs()); (r.0, r.1 + calls, r.2) == target
        decreases Budget(pendcounter)
      {
        if sector == 0 {
          return NoLbaToRepair, calls;
        }
        LoopStep(pendcounter, Abs());
        var _ := FixSector();
        calls := calls + 1;
        pendcounter := pendcounter - 1.0;
        var status := RefreshPendingAndFailure();
        var stop := if status == Unavailable then Some(RefreshFailed)
                    else if status == RawNotDict then Some(RefreshCrashed)
                    else if sector == 0 then Some(NoNewSector)
                    else None;
        if stop.Some? {
          return stop.value, calls;
        }
      }
      return CountReached, calls;
    }

    /** Lines 441-465. */
    method RunCounted() returns (result: Run)
      modifies this
      ensures (result, Abs()) == CountedSpec(old(Abs()))
    {
      if EqualsInt(pendcount, -1) {
        return Raised(PendingCountUnknown);
      }
      var counter := Numeric(pendcount);
      if counter.None? {
        return Raised(PendingNotNumber);
      }
      var end, calls := RepairLoop(counter.value);
      if end == RefreshCrashed {
        return Raised(PendingRawNotDict);
      }
      return Exit(0, LoopEnded(end, calls));
    }

    /** `main()` from the "Continue?" prompt on. */
    method Execute() returns (result: Run)
      requires Clamped(cfg)
      modifies this
      ensures (result, Abs()) == DriverSpec(cfg, old(Abs()))
    {
      var go := Confirm();
      if !go {
        return Exit(0, Declined);
      }
      var parsed := ParseRanges(Some(cfg.select));
      if parsed.Err? {
        return Raised(SelectInvalid(parsed.error));
      }
      var ranges := parsed.value;
      if !cfg.skipShort && ranges == [] {
        StartShortTest();
      }
      if ranges != [] {
        StartSelectiveTests(ranges);
      }
      var status := RefreshPendingAndFailure();
      if status == Unavailable {
        return Exit(1, NoSmartData);
      }
      if status == RawNotDict {
        return Raised(PendingRawNotDict);
      }
      if cfg.skipShort && cfg.fixFirstError {
        result := RunOneShot();
        return;
      }
      result := RunCounted();
    }
  }
}
