/**
 * `main()` (lines 333-465) after argument parsing: the opening prompt, the
 * choice of initial self-tests, the one-shot repair path of
 * `--skip-short --fix-first-error`, and the repair loop driven by the
 * pending-sector count.
 */
module RepairDriver {
  import opened Wrappers
  import opened Json
  import opened Ranges
  import opened World
  import opened Orchestrator
  import opened Repair
  import opened Verification

  /** What happened after "still lists the same LBA" (lines 396-425). */
  datatype Followup =
    | VerifyDone(outcome: VerifyOutcome)   // the verify ended "clear" or "failed"
    | VerifyInterrupted                    // "interrupted", and the short-test fallback was declined
    | ShortAfterVerify(sector: int)        // "interrupted", then a short test; `sector` as re-read
    | ShortInstead(sector: int)            // verify declined, a short test instead; `sector` as re-read
    | Skipped                              // "Verification skipped at user request."

  /** How the repair loop of lines 447-465 stopped. */
  datatype LoopEnd =
    | CountReached     // `pendcounter` is no longer positive
    | NoLbaToRepair    // "No specific LBA available to repair"
    | RefreshFailed    // the refresh returned False
    | NoNewSector      // "No new pending sectors to fix."
    | RefreshCrashed   // the refresh raised

  /** Why `main` returned or called `sys.exit`. */
  datatype Conclusion =
    | Declined                             // "Continue?" not answered y
    | NoSmartData                          // the first refresh returned False
    | NothingToFix                         // one-shot mode without a failing LBA
    | NoFurtherFailures                    // one-shot: "No further sectors reported as failed"
    | SameLba(lba: int, followup: Followup)
    | DifferentLba(post: int, repaired: int)
    | LoopEnded(reason: LoopEnd, fixCalls: nat)

  /** The exceptions that escape `main`. */
  datatype Failure =
    | SelectInvalid(error: RangeError)   // ValueError from `parse_ranges`
    | PendingCountUnknown                // "Pending sector count is negative or unavailable"
    | PendingNotNumber                   // TypeError from `pendcounter > 0`
    | LogStatusNotText                   // `.lower()` on a self-test status that is not a str
    | PendingRawNotDict                  // `.get` on attribute 197's `raw` when it is not a dict

  datatype Run = Exit(code: int, conclusion: Conclusion) | Raised(failure: Failure)

  /** The smallest integer not below `x`. */
  function Ceil(x: real): (r: int)
    ensures (r as real) - 1.0 < x <= r as real
  {
    -((-x).Floor)
  }

  /**
   * The number `pendcounter = pendcount` holds, for `>` and `-= 1`: an int,
   * a bool as 0 or 1, a float; anything else makes `pendcounter > 0` raise.
   */
  function Numeric(p: Json): (r: Option<real>)
    ensures r.Some? <==> p.JInt? || p.JBool? || p.JFloat?
    ensures r.Some? ==> (EqualsInt(p, -1) <==> r.value == -1.0)
  {
    match p
    case JInt(n) => Some(n as real)
    case JBool(b) => Some(if b then 1.0 else 0.0)
    case JFloat(x) => Some(x)
    case _ => None
  }

  /** The iterations `while pendcounter > 0: ... pendcounter -= 1` allows from `counter`. */
  function Budget(counter: real): (n: nat)
    ensures counter > 0.0 ==> (n as real) - 1.0 < counter <= n as real
    ensures counter <= 0.0 ==> n == 0
  {
    if counter > 0.0 then Ceil(counter) else 0
  }

  /** Counting `pendcounter` down by 1 keeps it positive for exactly `Budget(counter)` steps. */
  lemma BudgetCountdown(counter: real, k: nat)
    ensures counter - k as real > 0.0 <==> k < Budget(counter)
  {
  }

  /** An integer count allows exactly that many iterations, none when it is not positive. */
  lemma BudgetOfInt(n: int)
    ensures Budget(n as real) == if n > 0 then n else 0
  {
    if n > 0 {
      var b := Budget(n as real);
      assert (b as real) - 1.0 < n as real <= b as real;
      assert b - 1 < n <= b;
    }
  }

  /** `start_short_test(); _ = refresh_pending_and_failure()` (lines 410-411 and 420-421). */
  function ShortRecheck(cfg: Config, s: State): (r: (RefreshStatus, State)) {
    RefreshSpec(ShortTestSpec(cfg, s))
  }

  /** The short-test fallback: a raising refresh escapes, otherwise `sector` is reported. */
  function ShortFollowup(cfg: Config, lba: int, afterVerify: bool, s: State): (r: (Run, State)) {
    var (st, s1) := ShortRecheck(cfg, s);
    if st == RawNotDict then (Raised(PendingRawNotDict), s1)
    else (Exit(0, SameLba(lba, if afterVerify then ShortAfterVerify(s1.sector) else ShortInstead(s1.sector))), s1)
  }

  /** Offer a short test: after an interrupted verify (lines 408-414) or instead of one (lines 416-424). */
  function OfferShort(cfg: Config, lba: int, afterVerify: bool, s: State): (r: (Run, State)) {
    var (short, s1) := Confirm(cfg, s);
    if short then ShortFollowup(cfg, lba, afterVerify, s1)
    else (Exit(0, SameLba(lba, if afterVerify then VerifyInterrupted else Skipped)), s1)
  }

  /** Lines 406-414: what `main` does with the verify's outcome. */
  function ReportVerify(cfg: Config, lba: int, o: VerifyOutcome, s: State): (r: (Run, State)) {
    if o == StatusNotText then (Raised(LogStatusNotText), s)
    else if o == RefreshRaised then (Raised(PendingRawNotDict), s)
    else if o == Interrupted then OfferShort(cfg, lba, true, s)
    else (Exit(0, SameLba(lba, VerifyDone(o))), s)
  }

  /** Lines 396-425: the SMART log still names the LBA just repaired. */
  function SameLbaSpec(cfg: Config, lba: int, s: State): (r: (Run, State))
    requires Clamped(cfg)
  {
    var (verify, s1) := Confirm(cfg, s);
    if verify then
      var (o, s2) := VerifySpec(cfg, lba, 5, s1);
      ReportVerify(cfg, lba, o, s2)
    else OfferShort(cfg, lba, false, s1)
  }

  /** Lines 380-438: repair `LBA_of_first_error` once, ignoring the pending count. */
  function OneShotSpec(cfg: Config, s: State): (r: (Run, State))
    requires Clamped(cfg)
  {
    if !(s.sector > 0) then (Exit(0, NothingToFix), s)
    else
      var (_, s1) := FixSpec(s);
      var repaired := s1.lastsector;
      var (st, s2) := RefreshSpec(s1);
      if st == RawNotDict then (Raised(PendingRawNotDict), s2)
      else if s2.sector == 0 then (Exit(0, NoFurtherFailures), s2)
      else if s2.sector == repaired then SameLbaSpec(cfg, repaired, s2)
      else (Exit(0, DifferentLba(s2.sector, repaired)), s2)
  }

  /**
   * The loop of lines 447-465 with `pendcounter == counter`: the way it
   * stopped, the number of `fix_sector` calls, and the final state.
   * `fix_sector` is called only with `sector != 0`, so it does not raise
   * "Zero sector number"; a failure to launch hdparm or logger is not modelled.
   */
  function LoopSpec(counter: real, s: State): (r: (LoopEnd, nat, State))
    ensures r.1 <= Budget(counter)
    ensures r.2.answers == s.answers
    decreases Budget(counter)
  {
    if !(counter > 0.0) then (CountReached, 0, s)
    else if s.sector == 0 then (NoLbaToRepair, 0, s)
    else
      var (_, s1) := FixSpec(s);
      var (st, s2) := RefreshSpec(s1);
      var stop := if st == Unavailable then Some(RefreshFailed)
                  else if st == RawNotDict then Some(RefreshCrashed)
                  else if s2.sector == 0 then Some(NoNewSector)
                  else None;
      if stop.Some? then (stop.value, 1, s2)
      else
        var r := LoopSpec(counter - 1.0, s2);
        (r.0, r.1 + 1, r.2)
  }

  /** One iteration of the loop with a positive count and a sector to repair. */
  lemma LoopStep(counter: real, s: State)
    requires counter > 0.0 && s.sector != 0
    ensures var (st, s2) := RefreshSpec(FixSpec(s).1);
            var r := LoopSpec(counter, s);
            var rest := LoopSpec(counter - 1.0, s2);
            (st == Unavailable ==> r == (RefreshFailed, 1, s2)) &&
            (st == RawNotDict ==> r == (RefreshCrashed, 1, s2)) &&
            (st == Refreshed && s2.sector == 0 ==> r == (NoNewSector, 1, s2)) &&
            (st == Refreshed && s2.sector != 0 ==> r == (rest.0, rest.1 + 1, rest.2))
  {
  }

  /** Lines 441-465: refuse an unknown count, then run the loop. */
  function CountedSpec(s: State): (r: (Run, State)) {
    if EqualsInt(s.pendcount, -1) then (Raised(PendingCountUnknown), s)
    else match Numeric(s.pendcount)
      case None => (Raised(PendingNotNumber), s)
      case Some(c) =>
        var (end, calls, s1) := LoopSpec(c, s);
        if end == RefreshCrashed then (Raised(PendingRawNotDict), s1)
        else (Exit(0, LoopEnded(end, calls)), s1)
  }

  /** Lines 368-373: a short test unless skipped or ranges were given, then the selective tests. */
  function TestsSpec(cfg: Config, ranges: seq<Range>, s: State): (r: State) {
    var s1 := if !cfg.skipShort && ranges == [] then ShortTestSpec(cfg, s) else s;
    if ranges != [] then SelectiveTestsSpec(cfg, ranges, s1) else s1
  }

  /** `main()` from the "Continue?" prompt on. */
  function DriverSpec(cfg: Config, s: State): (r: (Run, State))
    requires Clamped(cfg)
  {
    var (go, s1) := Confirm(cfg, s);
    if !go then (Exit(0, Declined), s1)
    else match ParseAll(cfg.select)
      case Err(e) => (Raised(SelectInvalid(e)), s1)
      case Ok(ranges) =>
        var s2 := TestsSpec(cfg, ranges, s1);
        var (st, s3) := RefreshSpec(s2);
        if st == Unavailable then (Exit(1, NoSmartData), s3)
        else if st == RawNotDict then (Raised(PendingRawNotDict), s3)
        else if cfg.skipShort && cfg.fixFirstError then OneShotSpec(cfg, s3)
        else CountedSpec(s3)
  }
}
