/**
 * The per-line state machine of the acquisition loop (`DAQThread.run`), as a
 * function on a value holding every list and counter of the thread. The class
 * `DaqThread.DaqThread` implements it in place and is proved against it.
 *
 * Python 2 semantics kept here: `/` on two integers floors; `0.005`, `0.5` and
 * `60000.0 / value` are taken as exact reals; a division by zero or an index
 * past the end of `t` raises, which ends the loop (the thread dies).
 */
module Acquisition {
  import opened Wrappers
  import opened LineDecoder

  /** Seconds per device sample count (`0.005` in the source). */
  const SecondsPerCount: real := 0.005

  /** The initial `t_drawable` of a new acquisition object. */
  const DefaultDrawableSeconds: real := 12.0

  /** The uncaught exceptions the ingestion and mark code can raise. */
  datatype Fault = ZeroDivisionError | IndexError | TypeError

  /** Whether the loop goes on to the next line, or died on an exception. */
  datatype Outcome = Continue | Crash(fault: Fault)

  /** All state of one acquisition object: the lists it appends to and its scalars. */
  datatype State = State(
    hp: seq<int>,                 // high-pass filter results (`F`)
    sqr: seq<int>,                // squared samples (`Q`)
    integrated: seq<int>,         // integrator output (`I`)
    thresh1I: seq<int>,           // integrated-stage threshold (`T`)
    thresh2I: seq<real>,          // its half-value twin
    thresh1F: seq<int>,           // filtered-stage threshold (`Y`)
    thresh2F: seq<real>,          // its half-value twin
    t: seq<real>,                 // elapsed-time axis (`S`)
    ecg: seq<int>,                // ECG samples (`K`)
    edr: seq<int>,                // electrodermal conductance (`G`)
    beats: seq<real>,             // beat times (`B`)
    beatType: seq<int>,           // beat classifications (`W`)
    bpm1: seq<real>,              // primary pulse rate (`O`)
    bpm2: seq<real>,              // secondary pulse rate (`P`)
    marks: seq<real>,             // user marks, seconds since the first tick
    firstDrawable: nat,
    lastDrawable: Option<nat>,    // `None` until the first `Y`
    tDrawable: real,
    startTime: Option<real>,      // wall-clock time of the first `S`
    samples: Option<int>,         // device counter baseline; `None` until the first `S`
    pulseFound: bool,
    pulseRegular: bool)

  datatype StepResult = StepResult(state: State, outcome: Outcome)

  /** A state of a freshly constructed acquisition object. */
  function Initial(): State {
    State([], [], [], [], [], [], [], [], [], [], [], [], [], [], [],
          0, None, DefaultDrawableSeconds, None, None, false, false)
  }

  /**
   * The reset at the start of `run`: every list except `bpm1` is emptied and
   * the scalars go back to their initial values; `t_drawable` is kept.
   */
  function Reset(st: State): State {
    State([], [], [], [], [], [], [], [], [], [], [], [], st.bpm1, [], [],
          0, None, st.tDrawable, None, None, false, false)
  }

  /**
   * The invariant the loop keeps between lines: a time base exists exactly
   * when the time axis is non-empty, and the drawable window is an ordered
   * index pair inside the time axis (or unset, with `first_drawable` 0).
   */
  predicate Wf(st: State) {
    st.tDrawable >= 0.0 &&
    (st.samples.Some? <==> |st.t| > 0) &&
    (st.lastDrawable.None? ==> st.firstDrawable == 0) &&
    (st.lastDrawable.Some? ==> st.firstDrawable <= st.lastDrawable.value < |st.t|)
  }

  /** Python 2 `a / b` on integers: the floor of the quotient. */
  function FloorDiv(a: int, b: int): (q: int)
    requires b != 0
    ensures b > 0 ==> b * q <= a < b * q + b
    ensures b < 0 ==> b * q >= a > b * q + b
  {
    if b > 0 then a / b else (-a) / (-b)
  }

  /** The electrodermal value `value * 220 / (1024 - value)` of a `G` line; `None` for the division by zero at 1024. */
  function Conductance(v: int): (r: Option<int>)
    ensures r.None? <==> v == 1024
    ensures 0 <= v < 1024 ==> r.Some? && r.value >= 0
    ensures v > 1024 ==> r.Some? && r.value < 0
  {
    if v == 1024 then None
    else
      var q := FloorDiv(v * 220, 1024 - v);
      QuotientSign(v * 220, 1024 - v, q);
      Some(q)
  }

  /** The sign of a floored quotient, from its defining inequalities. */
  lemma QuotientSign(a: int, b: int, q: int)
    requires b > 0 ==> b * q <= a < b * q + b
    requires b < 0 ==> b * q >= a > b * q + b
    ensures b > 0 && a >= 0 ==> q >= 0
    ensures b < 0 && a > 0 ==> q < 0
  {
    MulSigns(b, q + 1);
    MulSigns(b, q);
    assert b * (q + 1) == b * q + b;
  }

  lemma MulSigns(x: int, y: int)
    ensures x > 0 && y <= 0 ==> x * y <= 0
    ensures x < 0 && y >= 0 ==> x * y <= 0
  {
  }

  /** The pulse rate `60000.0 / value` of a `P` or `O` line; `None` for the division by zero. */
  function Bpm(v: int): (r: Option<real>)
    ensures r.None? <==> v == 0
    ensures r.Some? ==> r.value * (v as real) == 60000.0
  {
    if v == 0 then None else Some(60000.0 / v as real)
  }

  /** The time of a device counter reading, relative to the last tick at counter `base`. */
  function TickTime(t: seq<real>, base: int, v: int): real
    requires |t| > 0
  {
    t[|t| - 1] + (v - base) as real * SecondsPerCount
  }

  /** One decoded line `tag`/`v` applied to the state; `now` is the wall clock. */
  function Next(st: State, tag: char, v: int, now: real): (r: StepResult)
    requires Wf(st)
    ensures r.outcome.Continue? ==> Wf(r.state)
  {
    if tag == 'S' then
      match st.samples
      case None => StepResult(st.(t := st.t + [0.0], samples := Some(v), startTime := Some(now)), Continue)
      case Some(base) => StepResult(st.(t := st.t + [TickTime(st.t, base, v)], samples := Some(v)), Continue)
    else if st.samples.None? then StepResult(st, Continue)
    else
      var base := st.samples.value;
      match tag
      case 'K' => StepResult(st.(ecg := st.ecg + [v]), Continue)
      case 'G' =>
        (match Conductance(v)
         case None => StepResult(st, Crash(ZeroDivisionError))
         case Some(g) => StepResult(st.(edr := st.edr + [g]), Continue))
      case 'F' => StepResult(st.(hp := st.hp + [v]), Continue)
      case 'Q' => StepResult(st.(sqr := st.sqr + [v]), Continue)
      case 'I' => StepResult(st.(integrated := st.integrated + [v]), Continue)
      case 'B' => StepResult(st.(beats := st.beats + [TickTime(st.t, base, v)]), Continue)
      case 'P' =>
        (match Bpm(v)
         case None => StepResult(st, Crash(ZeroDivisionError))
         case Some(b) => StepResult(st.(bpm2 := st.bpm2 + [b], pulseFound := true), Continue))
      case 'O' =>
        (match Bpm(v)
         case None => StepResult(st, Crash(ZeroDivisionError))
         case Some(b) => StepResult(st.(bpm1 := st.bpm1 + [b], pulseFound := true), Continue))
      case 'T' => StepResult(st.(thresh1I := st.thresh1I + [v], thresh2I := st.thresh2I + [v as real * 0.5]), Continue)
      case 'Y' => DrawableTick(st.(thresh1F := st.thresh1F + [v], thresh2F := st.thresh2F + [v as real * 0.5]))
      case 'N' => StepResult(st.(pulseRegular := v != 0), Continue)
      case 'R' => StepResult(st.(samples := Some(base - v)), Continue)
      case 'W' => StepResult(st.(beatType := st.beatType + [v]), Continue)
      case _ => StepResult(st, Continue)
  }

  /**
   * The window update of a `Y` line: the first one sets both indices to 0,
   * later ones advance `last_drawable` by one; then `first_drawable` advances
   * by one if its time is more than `t_drawable` before the last one. An index
   * past the end of `t` raises `IndexError` after the indices were updated.
   */
  function DrawableTick(st: State): (r: StepResult)
    requires Wf(st) && st.samples.Some?
    ensures r.outcome.Continue? ==> Wf(r.state)
  {
    var first := if st.lastDrawable.None? then 0 else st.firstDrawable;
    var last := if st.lastDrawable.None? then 0 else st.lastDrawable.value + 1;
    var moved := st.(firstDrawable := first, lastDrawable := Some(last));
    if last >= |st.t| then StepResult(moved, Crash(IndexError))
    else if st.t[first] < st.t[last] - st.tDrawable then StepResult(moved.(firstDrawable := first + 1), Continue)
    else StepResult(moved, Continue)
  }

  /** One raw line: undecodable lines are skipped with no change. */
  function IngestLine(st: State, line: string, now: real): (r: StepResult)
    requires Wf(st)
    ensures r.outcome.Continue? ==> Wf(r.state)
  {
    match Decode(line)
    case None => StepResult(st, Continue)
    case Some(s) => Next(st, s.tag, s.value, now)
  }

  /**
   * `add_mark` at wall-clock time `now`: appends the seconds elapsed since the
   * first tick; before the first tick `start_time` is `None` and the
   * subtraction raises `TypeError`.
   */
  function Mark(st: State, now: real): StepResult {
    match st.startTime
    case None => StepResult(st, Crash(TypeError))
    case Some(start) => StepResult(st.(marks := st.marks + [now - start]), Continue)
  }

  /** A line as read from the port, with the wall-clock time at which it is handled. */
  datatype Reading = Reading(line: string, now: real)

  /** The loop over a sequence of lines: it stops at the first exception. */
  function Feed(st: State, rs: seq<Reading>): (r: StepResult)
    requires Wf(st)
    ensures r.outcome.Continue? ==> Wf(r.state)
    decreases |rs|
  {
    if rs == [] then StepResult(st, Continue)
    else
      var r1 := IngestLine(st, rs[0].line, rs[0].now);
      if r1.outcome.Crash? then r1 else Feed(r1.state, rs[1..])
  }
}
