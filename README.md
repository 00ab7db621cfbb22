# smartfix in Dafny

`smartfix.py` repairs pending bad sectors of a disk. It reads the drive's
SMART data through `smartctl -j`, runs short and selective self-tests, and
waits for them to finish. It then asks `hdparm --repair-sector` to rewrite
the most recent failing LBA (logical block address) that the self-test log
reports, and re-reads SMART after every repair. In the default mode the
number of repairs is bounded by the pending-sector count (attribute 197).
In one-shot mode (`--skip-short --fix-first-error`) it repairs the first
failing LBA once; if that LBA is still reported afterwards, it offers a
±5-sector selective verify with retries and a short-test fallback.

The model has two layers.

- **Specification functions** (modules `StatusReader`, `Ranges`,
  `Orchestrator`, `Repair`, `Verification`, `RepairDriver`) describe each
  Python function as a transformer of a `World.State`. A `State` holds:
  - the globals `sector`, `lastsector` and `pendcount`;
  - the queue of parsed `smartctl -j` outputs still to come (`responses`);
  - the operator's remaining y/n answers (`answers`);
  - a ghost `trace` of external effects: sleeps, self-test starts, hdparm
    repairs and logger lines.
- **Imperative program** (module `Smartfix`): the globals are fields of the
  class `Smartfix.Driver`, and the Python loops are `while`/`for` loops. Each
  method is proved equal to its specification function on the abstract state
  `Abs()`.

The properties are lemmas over the specification functions (`Orchestrator`,
`Verification`, `DriverProperties`), plus two concrete runs (`Fixtures`,
`InterruptedVerify`).

JSON values follow Python's semantics:
- a bool is an int for `isinstance` and for `==`;
- `197.0 == 197` holds;
- `dict.get` on a non-dict raises;
- `for x in v` only yields usable items when `v` is a list.

Every `try` in the source is modelled by the lookup yielding `None`.

Three facts about the code shape the model:
- Once a failing LBA is known, a refresh never sets `sector` back to 0
  (lines 235-241): without a new failure it keeps its old value.
- As a result, the counted loop never stops with "No new pending sectors to
  fix" (`DriverProperties.LoopNeverRunsDry`); it stops when the count runs
  out or a refresh fails. The concrete run in `Fixtures.CountedRunRepairsInOrder` shows
  this.
- For the same reason, after a repair the verify never reports "clear", the
  short-test recheck never reports "no failing LBA", and the one-shot path
  never reports "No further sectors reported as failed"
  (`Verification.NeverClearAfterFailure`, `DriverProperties.SameLbaNeverClear`,
  `DriverProperties.OneShotOutcome`).

The script's docstring promises that no short or selective test is started
while one is active (line 19). `start_selective_tests` checks for an active
test once, before its loop (line 179); each test of the loop is then waited
for before the next starts (lines 183-187).

## Model

| member | source | states |
|---|---|---|
| Json.AsInt | smartfix.py:160 | `isinstance(v, int)` holds exactly for ints and bools |
| Json.Get | smartfix.py:98 | `.get(key, default)` succeeds exactly on a dict |
| Text.LowerPointwise | smartfix.py:311 | `lower()` keeps the length and maps every character on its own |
| Text.RemoveChar | smartfix.py:271 | `replace(",", "")` leaves no comma and never lengthens the string |
| Text.Split | smartfix.py:272 | `split("-")` yields one part more than there are separators, and no part contains the separator |
| Text.DigitsRoundTrip | smartfix.py:276-277 | `int()` of the decimal text of n is n |
| StatusReader.SelftestStatus | smartfix.py:83-111 | missing or falsy data, a missing status dict, or a truthy `string` that is not a str gives the default record; otherwise the record holds the `string` text (or ""), the int `value` and the int `remaining_percent` (None when not ints), and it is in progress iff the lowered text contains "in progress" or the value is the int 249 |
| StatusReader.SelftestStatusRoundTrip | smartfix.py:83-111 | every consistent snapshot is read back unchanged from the `-c` document that reports its fields |
| StatusReader.LastSelftestEntry | smartfix.py:149-164 | falsy or missing data, a missing entry 0, an entry whose lookups raise or a non-int `lba` gives ("", 0); otherwise the result is entry 0's `status.string` (default "") and its int `lba` (default 0) |
| StatusReader.LastSelftestEntryRoundTrip | smartfix.py:149-164 | any status and int LBA placed in the most recent log entry are read back unchanged |
| StatusReader.PendingAttribute | smartfix.py:205-212 | a row that is found has id 197 and belongs to the table |
| StatusReader.PendingAttributeFirst | smartfix.py:207-210 | the first row with id 197 is chosen when every row before it is a dict |
| StatusReader.PendingAttributeAbsent | smartfix.py:207-212 | without a row with id 197 nothing is found |
| StatusReader.PendingValue | smartfix.py:214-218 | -1 without the row; otherwise `raw.value`, or -1 when the key is missing; None exactly when `raw` is present and not a dict (the `.get` raises) |
| StatusReader.PositiveLba | smartfix.py:226-229 | a positive int `lba` is taken as it is and `True` as 1; a missing, non-int or non-positive `lba` gives nothing |
| StatusReader.FailureScan | smartfix.py:221-233 | a found LBA is positive |
| StatusReader.FailureScanFirst | smartfix.py:224-231 | the first "Completed: read failure" entry decides, even when its LBA is unusable |
| StatusReader.FailureScanFound | smartfix.py:224-231 | a found LBA comes from a read-failure entry preceded only by readable non-failures |
| StatusReader.FailingLba | smartfix.py:221-233 | the LBA a self-test table yields is positive |
| Ranges.ParseItem | smartfix.py:271-282 | a parsed range has 0 <= start <= end; the error is the shape error iff the comma-free item does not have exactly one '-' |
| Ranges.ParseRanges | smartfix.py:264-283 | the loop yields ParseAll of `select_list or []`, one range per item; an empty or missing list gives [] |
| Ranges.ParseAll | smartfix.py:269-283 | the loop over the entries: the ranges in input order, or the error of the first entry that fails; its shape is stated by Ranges.ParseAllShape |
| Ranges.FormatRange | smartfix.py:181 | the `"{:d}-{:d}"` text of a range; Ranges.FormatParseRoundTrip shows it parses back |
| Ranges.ParseAllShape | smartfix.py:269-283 | success iff every item parses, with the ranges in input order; a failure is the error of the first failing item |
| Ranges.ParseAllBounds | smartfix.py:280-282 | every returned range has 0 <= start <= end |
| Ranges.FormatParseRoundTrip | smartfix.py:271-282 | parsing the text `"{:d}-{:d}"` from line 181 of a valid range gives that range back |
| Ranges.CommasIgnored | smartfix.py:271 | commas in an item do not change what it parses to |
| Ranges.FormatWithCommasParses | smartfix.py:267-282 | an entry that is "{s}-{e}" once its commas are removed parses to exactly [(s, e)] |
| World.Consume | smartfix.py:71-80 | one smartctl call removes the first pending response and changes nothing else |
| World.Confirm | smartfix.py:285-291 | `confirm` is yes under --assume-yes without reading input; otherwise it takes the next answer, and no answer left reads as no (its use is stated by Smartfix.Driver.Confirm) |
| Orchestrator.Polls | smartfix.py:132-137 | n in-progress polls sleep n times, 4 seconds each |
| Orchestrator.StatusStep | smartfix.py:83-111 | `get_selftest_status` consumes one `-c` output and decodes it with StatusReader.SelftestStatus |
| Orchestrator.WaitSpec | smartfix.py:113-137 | `wait_for_selftest_completion`: each read that reports a test in progress sleeps and polls again, and the first that does not is followed by one log read; stated by Orchestrator.WaitShape |
| Orchestrator.EnsureIdleSpec | smartfix.py:139-147 | `ensure_no_active_selftest`: one status read, then the wait only when it reports a test in progress; stated by Orchestrator.EnsureIdleShape |
| Orchestrator.ShortTestSpec | smartfix.py:166-174 | `start_short_test`: the idle check, the short start, the optional pause and the wait; stated by Orchestrator.ShortTestStarts |
| Orchestrator.RunRanges | smartfix.py:179-186 | the loop of `start_selective_tests`: one start, pause and wait per range, in order; stated by Orchestrator.RunRangesStartsInOrder |
| Orchestrator.SelectiveTestsSpec | smartfix.py:176-186 | `start_selective_tests`: one idle check, then the loop; stated by Orchestrator.SelectiveStartsInOrder |
| Orchestrator.InProgressRunStopsAtIdle | smartfix.py:118-120 | polling passes over the busy statuses and stops at the first idle one |
| Orchestrator.WaitShape | smartfix.py:113-137 | waiting reads the busy statuses, one idle status and the log, and sleeps once per busy status |
| Orchestrator.WaitOrchestrated | smartfix.py:113-137 | waiting changes no global and adds only self-test effects |
| Orchestrator.PollsStartNothing | smartfix.py:132-137 | polling starts no test and repairs nothing |
| Orchestrator.PollsCountNothing | smartfix.py:132-137 | polling adds no event other than the poll sleep |
| Orchestrator.EnsureIdleShape | smartfix.py:139-147 | an idle drive costs one read; a busy one costs the wait |
| Orchestrator.EnsureIdleOrchestrated | smartfix.py:139-147 | the idle check changes no global |
| Orchestrator.EnsureIdleRanges | smartfix.py:139-147 | the idle check starts no selective test |
| Orchestrator.EnsureIdleCount | smartfix.py:139-147 | the idle check adds no event other than poll sleeps |
| Orchestrator.EmitOrchestrated | smartfix.py:171 | issuing a test command changes no global |
| Orchestrator.StartAndWaitOrchestrated | smartfix.py:171-175 | start, pause and wait change no global |
| Orchestrator.StartAndWaitStarts | smartfix.py:181-187 | one selective start adds exactly its range |
| Orchestrator.StartAndWaitTrace | smartfix.py:183-187 | a start appends the command, the optional pause and the polls, in that order |
| Orchestrator.StartAndWaitCount | smartfix.py:183-187 | a start adds one occurrence of its own command and none of any other non-sleep event |
| Orchestrator.ShortStartRanges | smartfix.py:171-175 | the short test's own start adds no selective range |
| Orchestrator.ShortTestStarts | smartfix.py:167-175 | `start_short_test` issues exactly one short-test start and no selective start |
| Orchestrator.ShortTestOrchestrated | smartfix.py:167-175 | a short test changes no global |
| Orchestrator.RunRangesStartsInOrder | smartfix.py:180-187 | the loop starts exactly the given ranges, in order |
| Orchestrator.RunRangesOrchestrated | smartfix.py:180-187 | the loop changes no global |
| Orchestrator.RunRangesNoShort | smartfix.py:180-187 | the loop issues no short test |
| Orchestrator.SelectiveStartsInOrder | smartfix.py:177-187 | `start_selective_tests` starts exactly the given ranges, in input order |
| Orchestrator.SelectiveOrchestrated | smartfix.py:177-187 | selective tests change no global |
| Orchestrator.SelectiveNoShort | smartfix.py:177-187 | selective tests issue no short test |
| Repair.RefreshSpec | smartfix.py:190-246 | the result is False iff the data is missing or falsy, which consumes one response and changes nothing else; on True the count is PendingValue and `sector` becomes a positive failing LBA or stays as it was; `lastsector` and the trace never change |
| Repair.RefreshReads | smartfix.py:199-238 | readable data with a readable count stores that count and the failing LBA, if any |
| Repair.RefreshWithoutAttribute | smartfix.py:214-216 | without attribute 197 the refresh succeeds with `pendcount == -1` |
| Repair.SectorStaysSet | smartfix.py:235-241 | a known failing sector is never reset to 0 |
| Repair.RefreshOnFailureEntry | smartfix.py:224-241 | on the first readable "Completed: read failure" entry, `sector` becomes its `lba` when that is a positive int (1 for `True`) and otherwise keeps its old value |
| Repair.RefreshWithoutFailure | smartfix.py:235-241 | without a read failure in the log `sector` keeps its value |
| Repair.FixSpec | smartfix.py:248-262 | raises iff the sector is 0 and skips iff it equals `lastsector`, changing nothing in both cases; otherwise it runs hdparm and logger on `sector` and sets `lastsector` |
| Repair.FixRepairs | smartfix.py:253-260 | hdparm is asked to repair `sector` exactly when it is non-zero and not the last attempted |
| Repair.FixTwice | smartfix.py:253-255 | a second `fix_sector` right after the first changes nothing |
| Verification.ClampRange | smartfix.py:298-301 | start = max(0, lba - delta), end = lba + delta |
| Verification.AttemptFacts | smartfix.py:307-310 | one attempt starts exactly one selective test on the range and changes no global |
| Verification.VerifyLoop | smartfix.py:303-330 | between 1 and VERIFY_RETRIES + 1 attempts, and exactly that maximum when interrupted; "clear" only with `sector` 0 and "failed" only with `sector` non-zero (the converse is Verification.LastOutcome) |
| Verification.VerifySpec | smartfix.py:293-330 | `run_verify_selective_around(lba, delta)` is the loop on the clamped range from no attempts; its properties are stated by Verification.VerifyBounded and Verification.NeverClearAfterFailure |
| Verification.Inconclusive | smartfix.py:311-314 | a status is inconclusive when its lowered text contains "interrupted", "aborted" or "host reset"; InterruptedVerify.InterruptedStatus shows one |
| Verification.AttemptSpec | smartfix.py:305-311 | one attempt is the selective test on the range followed by one log read; its effects are stated by Verification.AttemptFacts |
| Verification.LastOutcome | smartfix.py:311-330 | on the last attempt a status that is not a str raises, an inconclusive one gives "interrupted", and a conclusive one runs the refresh and gives "clear" iff it leaves `sector` 0 and "failed" iff it leaves it non-zero, ending in the refreshed state |
| Verification.RetryStep | smartfix.py:314-318 | an inconclusive attempt with retries left leads to the next attempt after the retry wait |
| Verification.LastStep | smartfix.py:319-330 | an attempt that is not retried ends the loop at attempts + 1 with that attempt's trace, `lastsector` and answers |
| Verification.VerifySleeps | smartfix.py:315-318 | every attempt but the last is followed by exactly one VERIFY_WAIT sleep |
| Verification.VerifySleepsRetry | smartfix.py:315-318 | the sleep count after a retried attempt |
| Verification.VerifySleepsLast | smartfix.py:319-330 | the last attempt adds no retry sleep |
| Verification.VerifyStarts | smartfix.py:304-307 | every attempt starts one selective test, always on the same clamped range |
| Verification.VerifyStartsRetry | smartfix.py:314-318 | the ranges started after a retried attempt |
| Verification.VerifyStartsLast | smartfix.py:319-330 | the last attempt starts exactly one range |
| Verification.VerifyBounded | smartfix.py:293-330 | 1 to VERIFY_RETRIES + 1 selective tests, all on the clamped range, with one retry wait between consecutive ones; "interrupted" only after every retry is used |
| Verification.NeverClearAfterFailure | smartfix.py:323-330 | with a failing sector already known the verify never returns "clear" (lines 325-327 are unreachable) |
| Verification.VerifyRepairsNothing | smartfix.py:303-330 | the verify runs no repair and leaves `lastsector` and the answers as they were |
| Verification.VerifyRepairsNothingRetry | smartfix.py:314-318 | the retried attempt runs no repair |
| Verification.VerifyRepairsNothingLast | smartfix.py:319-330 | the last attempt and its refresh run no repair |
| InterruptedVerify.InterruptedStatus | smartfix.py:311-314 | a status starting with "Interrupted" is inconclusive |
| InterruptedVerify.LogWithFacts | smartfix.py:149-164 | a report without a running test whose latest entry has the given status gives (status, 0) |
| InterruptedVerify.InterruptedAttempt | smartfix.py:304-311 | against a drive that always reports this status, an attempt reads four outputs and sees the status |
| InterruptedVerify.InterruptedStep | smartfix.py:304-321 | with retries left such an attempt leads to the next one; on the last it returns "interrupted" |
| InterruptedVerify.InterruptedLoop | smartfix.py:304-321 | attempt after attempt is inconclusive until the retries run out |
| InterruptedVerify.AlwaysInterrupted | smartfix.py:303-321 | reports "interrupted" after exactly VERIFY_RETRIES + 1 selective tests on the clamped range, with exactly VERIFY_RETRIES waits |
| RepairDriver.Ceil | smartfix.py:447-459 | the smallest integer not below x |
| RepairDriver.Numeric | smartfix.py:445-447 | only an int, a bool or a float can be compared with 0; the value is -1 iff `pendcount == -1` |
| RepairDriver.Budget | smartfix.py:447-459 | the number of iterations `pendcounter > 0 … -= 1` allows: the ceiling of a positive count, 0 otherwise |
| RepairDriver.BudgetCountdown | smartfix.py:447-459 | after k decrements the counter is still positive iff k < Budget |
| RepairDriver.BudgetOfInt | smartfix.py:445-459 | an int count allows exactly that many iterations, none when it is not positive |
| RepairDriver.LoopSpec | smartfix.py:444-465 | the loop makes at most Budget(counter) `fix_sector` calls and consumes no answer |
| RepairDriver.LoopStep | smartfix.py:449-465 | one iteration: repair, refresh, then stop or go on with the counter one lower |
| RepairDriver.CountedSpec | smartfix.py:440-465 | a count equal to -1 raises, a count that is not a number raises at `pendcounter > 0`, otherwise the loop runs; stated by DriverProperties.CountedRepairs and DriverProperties.MissingAttributeIsFatal |
| RepairDriver.OneShotSpec | smartfix.py:379-438 | with a positive sector: repair, refresh, then "no further sectors", the same-LBA follow-up or "a different LBA"; without one: nothing to fix; stated by DriverProperties.OneShotOutcome |
| RepairDriver.SameLbaSpec | smartfix.py:397-425 | a confirmed verify is run around the repaired LBA with delta 5 and its outcome reported, otherwise the short test is offered; stated by DriverProperties.SameLbaRepairsNothing and DriverProperties.SameLbaNeverClear |
| RepairDriver.ReportVerify | smartfix.py:406-414 | a raising verify escapes, "interrupted" offers the short test, and "clear" or "failed" ends the run; stated by DriverProperties.ReportVerifyRepairsNothing and DriverProperties.ReportVerifySeesFailure |
| RepairDriver.OfferShort | smartfix.py:407-424 | a confirmed offer runs the short test and the recheck, a declined one ends the run; stated by DriverProperties.OfferShortRepairsNothing |
| RepairDriver.ShortRecheck | smartfix.py:409-410 | `start_short_test()` followed by one refresh |
| RepairDriver.ShortFollowup | smartfix.py:409-422 | after the short test and the refresh, a raising refresh escapes, otherwise the sector found is reported; stated by DriverProperties.OfferShortSeesFailure |
| RepairDriver.TestsSpec | smartfix.py:368-373 | a short test unless it is skipped or ranges are given, then the selective tests; stated by DriverProperties.TestsChosen |
| RepairDriver.DriverSpec | smartfix.py:357-465 | `main` from the "Continue?" prompt on: decline, invalid `--select`, the tests, the first refresh, then the one-shot or the counted path; stated by DriverProperties.InvalidSelectRaisesFirst and Fixtures.WholeRun |
| DriverProperties.SameSectorRepairedOnce | smartfix.py:253-255 | a sector that stays reported is repaired at most once, and not at all if it was the last attempted |
| DriverProperties.LoopNeverRunsDry | smartfix.py:447-465 | the loop never reports "No new pending sectors"; it stops for lack of an LBA iff there was none at the start with a positive count; a non-zero `sector` stays non-zero |
| DriverProperties.FixChain | smartfix.py:248-260 | one `fix_sector` on a non-zero sector adds at most one repair, never the previous one, and `lastsector` is the last repaired sector |
| DriverProperties.LoopRepairs | smartfix.py:447-465 | the repairs are appended, at most one per call, never the same sector twice in a row, and `lastsector` is the last of them |
| DriverProperties.LoopRepairsStep | smartfix.py:449-465 | the repairs of one iteration followed by those of the rest of the loop |
| DriverProperties.OfferShortRepairsNothing | smartfix.py:408-424 | the short-test fallback runs no repair |
| DriverProperties.ReportVerifyRepairsNothing | smartfix.py:405-414 | handling the verify outcome runs no repair |
| DriverProperties.SameLbaRepairsNothing | smartfix.py:397-425 | after "still lists the same LBA" nothing is repaired again |
| DriverProperties.OfferShortSeesFailure | smartfix.py:408-422 | a short test begun with a known failure reports a failing LBA |
| DriverProperties.ReportVerifySeesFailure | smartfix.py:405-414 | an outcome other than "clear" is reported with a failing LBA still known |
| DriverProperties.SameLbaNeverClear | smartfix.py:397-425 | with the repaired sector still known, neither "clear" nor "After short test: no failing LBA" can be reached |
| DriverProperties.OneShotOutcome | smartfix.py:380-438 | repairs the first failing LBA exactly once when it is positive and not yet attempted, and nothing otherwise; never "No further sectors" (line 396 is unreachable); without an LBA exits with nothing done; a same-LBA follow-up never sees the sector cleared |
| DriverProperties.TestsChosen | smartfix.py:368-373 | one short test iff it is not skipped and no ranges are given; the selective starts are exactly the ranges; no repair |
| DriverProperties.InvalidSelectRaisesFirst | smartfix.py:360-366 | an invalid `--select` raises its ValueError before any smartctl call or self-test |
| DriverProperties.MissingAttributeIsFatal | smartfix.py:440-442 | a first refresh without attribute 197 makes counted mode raise |
| DriverProperties.CountedRepairs | smartfix.py:440-465 | at most `pendcount` `fix_sector` calls (the ceiling for a float), hdparm at most once per call and never twice in a row on one sector |
| DriverProperties.OneShotRepairsAtMostOnce | smartfix.py:379-438 | one-shot mode runs hdparm at most once |
| Fixtures.ReportPending | smartfix.py:204-218 | the sample report's attribute 197 gives its pending count |
| Fixtures.ReportFailing | smartfix.py:220-233 | the sample report yields its LBA exactly when it is positive |
| Fixtures.RefreshOnReport | smartfix.py:199-246 | refreshing from the sample report stores its count and, when positive, its LBA |
| Fixtures.StartOfRun | smartfix.py:357-377 | with the short test skipped and no ranges, `main` goes straight to the first refresh |
| Fixtures.LoopOnRefresh | smartfix.py:449-465 | an iteration whose refresh finds a failing LBA counts down and continues |
| Fixtures.FirstIteration | smartfix.py:449-465 | the first iteration of the sample run repairs 500 |
| Fixtures.SecondIteration | smartfix.py:449-465 | the second iteration repairs 501 |
| Fixtures.LastIteration | smartfix.py:449-465 | the third iteration repairs 502 and the count runs out |
| Fixtures.CountedRun | smartfix.py:440-465 | the counted loop of the sample run makes three calls and stops on the count |
| Fixtures.WholeRun | smartfix.py:357-465 | `main` on the sample reports ends after three repairs |
| Fixtures.CountedRunRepairsInOrder | smartfix.py:333-465 | counts 3, 2, 1, 0 with LBAs 500, 501, 502 and none: repairs 500, 501, 502 in order, stops on the count, and keeps `sector == 502` |
| Fixtures.OneShotWithoutFailure | smartfix.py:379-438 | one-shot mode without a failing LBA exits with nothing repaired |
| Smartfix.FindPendingAttribute | smartfix.py:206-212 | the `for … break` loop finds what PendingAttribute specifies |
| Smartfix.FindReadFailure | smartfix.py:221-233 | the `for … break` loop finds what FailureScan specifies |
| Smartfix.Driver.constructor | smartfix.py:30-35 | the globals start as sector = 0, lastsector = -1, pendcount = -1 |
| Smartfix.Driver.SmartJson | smartfix.py:71-80 | one call returns the next parsed output and consumes it |
| Smartfix.Driver.Confirm | smartfix.py:285-291 | yes under --assume-yes, else the next answer (no when none is left) |
| Smartfix.Driver.GetSelftestStatus | smartfix.py:83-111 | one `-c` read decoded by SelftestStatus |
| Smartfix.Driver.GetLastSelftestEntry | smartfix.py:149-164 | one log read decoded by LastSelftestEntry |
| Smartfix.Driver.WaitForSelftestCompletion | smartfix.py:113-137 | the `while True` polling loop does what WaitSpec specifies |
| Smartfix.Driver.EnsureNoActiveSelftest | smartfix.py:139-147 | as EnsureIdleSpec |
| Smartfix.Driver.Pause | smartfix.py:173-174 | sleeps START_PAUSE only when it is positive |
| Smartfix.Driver.StartShortTest | smartfix.py:167-175 | as ShortTestSpec |
| Smartfix.Driver.StartSelectiveTests | smartfix.py:177-187 | the `for` loop over the ranges does what SelectiveTestsSpec specifies |
| Smartfix.Driver.RefreshPendingAndFailure | smartfix.py:190-246 | updates the globals as RefreshSpec specifies, using the two scan loops |
| Smartfix.Driver.FixSector | smartfix.py:248-262 | as FixSpec |
| Smartfix.Driver.RunVerifySelectiveAround | smartfix.py:293-330 | the retry loop does what VerifyLoop specifies on the clamped range |
| Smartfix.Driver.ShortTestAndRecheck | smartfix.py:409-414 | a short test, a refresh and the report after it |
| Smartfix.Driver.HandleSameLba | smartfix.py:397-425 | as SameLbaSpec |
| Smartfix.Driver.RunOneShot | smartfix.py:380-438 | as OneShotSpec |
| Smartfix.Driver.RepairLoop | smartfix.py:445-465 | the `while pendcounter > 0` loop does what LoopSpec specifies and counts the `fix_sector` calls |
| Smartfix.Driver.RunCounted | smartfix.py:440-465 | as CountedSpec |
| Smartfix.Driver.Execute | smartfix.py:357-465 | `main` after argument parsing, as DriverSpec |

## Left out

- Process execution (`run`, `subprocess`, `json.loads`) is replaced by the `responses` queue of already-parsed outputs. Output that does not parse, and the end of the queue, both read as None.
- hdparm's exit code and output are not modelled; this includes the "non-zero exit code" message of lines 261-262.
- `print`, `debug_print`, the disclaimer and `logger`'s text are not modelled; the trace records only that logger ran.
- `time.sleep` becomes a trace event, and no time passes.
- Argument parsing and the device name are not modelled. The clamps of lines 353-354 are the precondition `Clamped`, and `START_PAUSE` is kept only as "positive or not" (line 355).
- `input()` is the `answers` queue. End of input reads as "no", where Python would raise EOFError.
- `int(s, 10)` accepts only ASCII digit strings. Signs, surrounding whitespace, underscores and non-ASCII digits are not modelled. The model loses no behaviour through this at line 280: `split("-")` at line 272 leaves no '-' in either part, so `int()` cannot return a negative number there and the `start < 0 or end < 0` test can never fire in the script either.
- `str.lower()` is ASCII-only.
- The globals `yn` and `pendline` (lines 237-241) are written but never read by the modelled code, so they are left out.
- The DEBUG-only code of lines 243-245, 431-434 and 467-468 is left out. The status query of lines 431-434 would consume one smartctl response.
- A failure to launch hdparm or logger is not modelled. `run` catches only `CalledProcessError` (lines 65-69), so a missing or unusable program makes `fix_sector` raise `OSError` at lines 256-257, before `lastsector` is set. That would take the `except` branches of lines 383-386 and 452-454; the model never takes them. Both call sites run `fix_sector` only with `sector != 0`, so "Zero sector number" is not raised there.
- RepairDriver.Budget: a float `pendcount` is counted down in exact arithmetic, so floating-point rounding, NaN and infinities are not modelled.
- DriverProperties.OneShotRepairsAtMostOnce: it bounds hdparm runs, not `fix_sector` calls; a skipped call runs no hdparm.
- The polling loops are bounded by the finite `responses` queue. Once the queue is exhausted every read reports idle, so a test that never finishes is not modelled.
- Only the latest revision of the script is modelled. Concurrency with other users of the drive is not modelled.
