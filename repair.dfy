/**
 * `refresh_pending_and_failure` (lines 190-246) and `fix_sector`
 * (lines 248-262) as transformers of the script's globals.
 */
module Repair {
  import opened Wrappers
  import opened Json
  import opened StatusReader
  import opened World

  datatype RefreshStatus =
    | Unavailable    // returns False: no usable SMART data
    | Refreshed      // returns True
    | RawNotDict     // `raw` of attribute 197 is not a dict: AttributeError escapes

  /**
   * One `smartctl -j -A -l selftest` read. `pendcount` becomes the raw value
   * of attribute 197 (-1 without it); `sector` is overwritten only by a
   * positive failing LBA and otherwise keeps its old value.
   */
  function RefreshSpec(s: State): (r: (RefreshStatus, State))
    ensures r.1.lastsector == s.lastsector && r.1.answers == s.answers && r.1.trace == s.trace
    ensures r.1.responses == Consume(s).responses
    ensures r.0 == Unavailable <==> NextResponse(s).None? || !Truthy(NextResponse(s).value)
    ensures r.0 != Refreshed ==> r.1 == Consume(s)
    ensures r.0 == Refreshed ==>
              PendingValue(NextResponse(s).value) == Some(r.1.pendcount) &&
              r.1.sector == (if FailingLba(NextResponse(s).value).Some?
                             then FailingLba(NextResponse(s).value).value else s.sector)
    ensures r.1.sector == s.sector || r.1.sector > 0
  {
    var data := NextResponse(s);
    var s1 := Consume(s);
    if data.None? || !Truthy(data.value) then (Unavailable, s1)
    else match PendingValue(data.value)
      case None => (RawNotDict, s1)
      case Some(p) =>
        var sector := if FailingLba(data.value).Some? then FailingLba(data.value).value else s.sector;
        (Refreshed, s1.(pendcount := p, sector := sector))
  }

  /** A report with a readable count is taken in: the count and a positive failing LBA are stored. */
  lemma RefreshReads(s: State, data: Json, pending: Json)
    requires NextResponse(s) == Some(data) && Truthy(data) && PendingValue(data) == Some(pending)
    ensures RefreshSpec(s) ==
              (Refreshed, Consume(s).(pendcount := pending,
                                      sector := if FailingLba(data).Some? then FailingLba(data).value else s.sector))
  {
  }

  /** Without a row for attribute 197 the count becomes -1, the "unknown" value. */
  lemma RefreshWithoutAttribute(s: State)
    requires NextResponse(s).Some? && Truthy(NextResponse(s).value)
    requires PendingRow(NextResponse(s).value).None?
    ensures RefreshSpec(s).0 == Refreshed && RefreshSpec(s).1.pendcount == JInt(-1)
  {
  }

  /** Once a failing sector is known, no refresh resets it to 0. */
  lemma SectorStaysSet(s: State)
    requires s.sector > 0
    ensures RefreshSpec(s).1.sector > 0
  {
  }

  /**
   * Lines 224-241 on the first readable "Completed: read failure" entry `logs[i]`:
   * `sector` becomes its `lba` when that is a positive int (True counts as
   * 1), and keeps its old value when the `lba` is missing, not an int or not
   * positive.
   */
  lemma RefreshOnFailureEntry(s: State, data: Json, logs: seq<Json>, i: nat)
    requires NextResponse(s) == Some(data) && Truthy(data) && PendingValue(data).Some?
    requires Path(data, SelftestTable) == Some(JArray(logs))
    requires i < |logs| && Readable(logs[i]) && IsReadFailure(logs[i])
    requires forall j :: 0 <= j < i ==> Readable(logs[j]) && !IsReadFailure(logs[j])
    ensures var e := logs[i].fields;
            var sector := RefreshSpec(s).1.sector;
            ("lba" in e && e["lba"].JInt? && e["lba"].n > 0 ==> sector == e["lba"].n) &&
            ("lba" in e && e["lba"] == JBool(true) ==> sector == 1) &&
            (!("lba" in e && (e["lba"] == JBool(true) || (e["lba"].JInt? && e["lba"].n > 0))) ==>
               sector == s.sector)
  {
    FailureScanFirst(logs, i);
  }

  /** A self-test table without a usable read failure leaves `sector` alone. */
  lemma RefreshWithoutFailure(s: State)
    requires NextResponse(s).Some? && Truthy(NextResponse(s).value)
    requires FailingLba(NextResponse(s).value).None?
    ensures RefreshSpec(s).1.sector == s.sector
  {
  }

  datatype FixOutcome =
    | ZeroSector         // raises Exception("Zero sector number")
    | AlreadyAttempted   // "Skipping sector ...: already attempted previously."
    | Attempted          // hdparm was run, whatever its exit code

  /** `fix_sector()`. */
  function FixSpec(s: State): (r: (FixOutcome, State))
    ensures r.1.sector == s.sector && r.1.pendcount == s.pendcount
    ensures r.1.responses == s.responses && r.1.answers == s.answers
    ensures r.0 == ZeroSector <==> s.sector == 0
    ensures r.0 == AlreadyAttempted <==> s.sector != 0 && s.sector == s.lastsector
    ensures r.0 != Attempted ==> r.1 == s
    ensures r.0 == Attempted ==>
              r.1.lastsector == s.sector &&
              r.1.trace == s.trace + [RepairSector(s.sector), LogRepair(s.sector)]
  {
    if s.sector == 0 then (ZeroSector, s)
    else if s.sector == s.lastsector then (AlreadyAttempted, s)
    else (Attempted, s.(lastsector := s.sector,
                        trace := s.trace + [RepairSector(s.sector), LogRepair(s.sector)]))
  }

  /** hdparm is asked to repair the current sector exactly when `fix_sector` attempts it. */
  lemma FixRepairs(s: State)
    ensures Repairs(FixSpec(s).1.trace) ==
              Repairs(s.trace) + (if FixSpec(s).0 == Attempted then [s.sector] else [])
  {
    if FixSpec(s).0 == Attempted {
      RepairsConcat(s.trace, [RepairSector(s.sector), LogRepair(s.sector)]);
      var one, two := [RepairSector(s.sector)], [RepairSector(s.sector), LogRepair(s.sector)];
      assert Repairs(one) == [s.sector] by { assert one[..0] == []; }
      assert two[..1] == one;
      assert Repairs(two) == Repairs(one);
    }
  }

  /** Calling `fix_sector` twice in a row runs hdparm at most once: the second call changes nothing. */
  lemma FixTwice(s: State)
    ensures FixSpec(FixSpec(s).1).0 != Attempted
    ensures FixSpec(FixSpec(s).1).1 == FixSpec(s).1
  {
  }
}
