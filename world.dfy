/**
 * The script's globals together with its environment: the queue of parsed
 * smartctl outputs still to be read, the operator's answers still to be
 * given, and the trace of external effects (sleeps, self-test starts,
 * hdparm repairs, logger lines).
 */
module World {
  import opened Wrappers
  import opened Json
  import opened Ranges

  datatype SleepKind =
    | PollInterval               // time.sleep(poll_interval), 4 seconds
    | StartPause                 // time.sleep(START_PAUSE)
    | RetryWait(seconds: int)    // time.sleep(VERIFY_WAIT)

  datatype Event =
    | Sleep(kind: SleepKind)
    | StartShortTest                     // smartctl -t short
    | StartSelectiveTest(range: Range)   // smartctl -t select,START-END
    | RepairSector(lba: int)             // hdparm --yes-i-know-what-i-am-doing --repair-sector LBA
    | LogRepair(lba: int)                // logger line with hdparm's output

  /** The command-line settings after the clamps of lines 353-355. */
  datatype Config = Config(
    assumeYes: bool,
    skipShort: bool,
    fixFirstError: bool,
    select: seq<string>,
    verifyRetries: int,
    verifyWait: int,
    startPause: bool)    // START_PAUSE > 0

  /** VERIFY_RETRIES = max(0, ...) and VERIFY_WAIT = max(1, ...). */
  predicate Clamped(cfg: Config) {
    cfg.verifyRetries >= 0 && cfg.verifyWait >= 1
  }

  datatype State = State(
    sector: int,
    lastsector: int,
    pendcount: Json,
    responses: seq<Option<Json>>,   // parsed outputs of the coming smartctl -j calls
    answers: seq<bool>,             // the operator's coming replies to y/n prompts
    trace: seq<Event>)

  /** The globals at start-up: sector = 0, lastsector = -1, pendcount = -1. */
  function Initial(responses: seq<Option<Json>>, answers: seq<bool>): State {
    State(0, -1, JInt(-1), responses, answers, [])
  }

  /** What the next `smartjson` call returns: None once the responses run out. */
  function NextResponse(s: State): Option<Json> {
    if s.responses == [] then None else s.responses[0]
  }

  /** The state after one `smartjson` call. */
  function Consume(s: State): (r: State)
    ensures r == s.(responses := r.responses)
    ensures |r.responses| == if s.responses == [] then 0 else |s.responses| - 1
    ensures s.responses != [] ==> r.responses == s.responses[1..]
  {
    if s.responses == [] then s else s.(responses := s.responses[1..])
  }

  function Emit(s: State, e: Event): State {
    s.(trace := s.trace + [e])
  }

  /** `confirm(prompt)`: yes under --assume-yes, else the next answer; none left reads as no. */
  function Confirm(cfg: Config, s: State): (bool, State) {
    if cfg.assumeYes then (true, s)
    else if s.answers == [] then (false, s)
    else (s.answers[0], s.(answers := s.answers[1..]))
  }

  /** The sectors hdparm was asked to repair, in order. */
  function Repairs(t: seq<Event>): seq<int>
    decreases |t|
  {
    if t == [] then []
    else Repairs(t[..|t| - 1]) + (if t[|t| - 1].RepairSector? then [t[|t| - 1].lba] else [])
  }

  /** The ranges selective self-tests were started on, in order. */
  function StartedRanges(t: seq<Event>): seq<Range>
    decreases |t|
  {
    if t == [] then []
    else StartedRanges(t[..|t| - 1]) + (if t[|t| - 1].StartSelectiveTest? then [t[|t| - 1].range] else [])
  }

  /** How often `e` occurs in `t`. */
  function CountOf(t: seq<Event>, e: Event): nat
    decreases |t|
  {
    if t == [] then 0 else CountOf(t[..|t| - 1], e) + (if t[|t| - 1] == e then 1 else 0)
  }

  /** The effects of running self-tests: sleeps other than the verify retry wait, and test starts. */
  predicate TestEvent(e: Event) {
    (e.Sleep? && !e.kind.RetryWait?) || e.StartShortTest? || e.StartSelectiveTest?
  }

  /** `t'` extends `t` with self-test effects only. */
  predicate TestTrace(t: seq<Event>, t': seq<Event>) {
    t <= t' && forall i :: |t| <= i < |t'| ==> TestEvent(t'[i])
  }

  /** `r` differs from `s` only by responses read and self-test effects. */
  predicate Orchestrated(s: State, r: State) {
    r.sector == s.sector && r.lastsector == s.lastsector && r.pendcount == s.pendcount &&
    r.answers == s.answers && |r.responses| <= |s.responses| && TestTrace(s.trace, r.trace)
  }

  lemma {:induction false} RepairsConcat(a: seq<Event>, b: seq<Event>)
    ensures Repairs(a + b) == Repairs(a) + Repairs(b)
    decreases |b|
  {
    if b == [] {
      assert a + b == a;
    } else {
      assert (a + b)[..|a + b| - 1] == a + b[..|b| - 1];
      RepairsConcat(a, b[..|b| - 1]);
    }
  }

  lemma {:induction false} StartedRangesConcat(a: seq<Event>, b: seq<Event>)
    ensures StartedRanges(a + b) == StartedRanges(a) + StartedRanges(b)
    decreases |b|
  {
    if b == [] {
      assert a + b == a;
    } else {
      assert (a + b)[..|a + b| - 1] == a + b[..|b| - 1];
      StartedRangesConcat(a, b[..|b| - 1]);
    }
  }

  lemma {:induction false} CountOfConcat(a: seq<Event>, b: seq<Event>, e: Event)
    ensures CountOf(a + b, e) == CountOf(a, e) + CountOf(b, e)
    decreases |b|
  {
    if b == [] {
      assert a + b == a;
    } else {
      assert (a + b)[..|a + b| - 1] == a + b[..|b| - 1];
      CountOfConcat(a, b[..|b| - 1], e);
    }
  }

  /** Self-test effects contain no repair and no verify retry wait. */
  lemma {:induction false} TestTraceKeepsRepairs(t: seq<Event>, t': seq<Event>, w: int)
    requires TestTrace(t, t')
    ensures Repairs(t') == Repairs(t)
    ensures CountOf(t', Sleep(RetryWait(w))) == CountOf(t, Sleep(RetryWait(w)))
    decreases |t'|
  {
    if |t'| > |t| {
      var u := t'[..|t'| - 1];
      assert TestTrace(t, u);
      TestTraceKeepsRepairs(t, u, w);
      assert TestEvent(t'[|t'| - 1]);
    } else {
      assert t' == t;
    }
  }

  lemma OrchestratedTrans(s: State, r: State, q: State)
    requires Orchestrated(s, r) && Orchestrated(r, q)
    ensures Orchestrated(s, q)
  {
    forall i | |s.trace| <= i < |q.trace| ensures TestEvent(q.trace[i]) {
      if i < |r.trace| { assert q.trace[i] == r.trace[i]; }
    }
  }
}
