/**
 * The acquisition object (`DAQThread`) as a class whose fields the loop
 * updates in place. The fifteen lists it appends to are held in two
 * record-valued fields (the detector's intermediate stages, and the signals
 * that are plotted live), so that extending a list replaces one field; the
 * scalars are fields of their own. Each method is proved against the state
 * machine of `Acquisition`: the object's state, read through `Abs()`, moves
 * exactly as `Next`, `Feed`, `Reset` and `Mark` say.
 */
module Daq {
  import opened Wrappers
  import opened LineDecoder
  import opened Acquisition

  /** The lists of the QRS detector's intermediate stages (`F`, `Q`, `I`, `T`, `Y`). */
  datatype DetectorLists = DetectorLists(
    hp: seq<int>, sqr: seq<int>, integrated: seq<int>,
    thresh1I: seq<int>, thresh2I: seq<real>, thresh1F: seq<int>, thresh2F: seq<real>)

  /** The time axis and the signals drawn against it (`S`, `K`, `G`, `B`, `W`, `O`, `P`, marks). */
  datatype SignalLists = SignalLists(
    t: seq<real>, ecg: seq<int>, edr: seq<int>, beats: seq<real>, beatType: seq<int>,
    bpm1: seq<real>, bpm2: seq<real>, marks: seq<real>)

  class DaqThread {
    var detector: DetectorLists
    var signals: SignalLists
    var firstDrawable: nat
    var lastDrawable: Option<nat>
    var tDrawable: real
    var startTime: Option<real>
    var samples: Option<int>
    var pulseFound: bool
    var pulseRegular: bool

    /** The object's fields as one value of the state machine. */
    function Abs(): State
      reads this
    {
      State(detector.hp, detector.sqr, detector.integrated, detector.thresh1I, detector.thresh2I,
            detector.thresh1F, detector.thresh2F,
            signals.t, signals.ecg, signals.edr, signals.beats, signals.beatType,
            signals.bpm1, signals.bpm2, signals.marks,
            firstDrawable, lastDrawable, tDrawable, startTime, samples, pulseFound, pulseRegular)
    }

    predicate Valid()
      reads this
    {
      Wf(Abs())
    }

    /** A new object: every list empty, no time base, `t_drawable` 12 s. */
    constructor ()
      ensures Abs() == Initial()
      ensures Valid()
    {
      detector := DetectorLists([], [], [], [], [], [], []);
      signals := SignalLists([], [], [], [], [], [], [], []);
      firstDrawable, lastDrawable, tDrawable := 0, None, DefaultDrawableSeconds;
      startTime, samples, pulseFound, pulseRegular := None, None, false, false;
    }

    /**
     * The body of the loop for one decoded line with tag `tag` and value
     * `value`, at wall-clock time `now`. `outcome` is `Crash` when the source
     * raises, with the fields as they were at that moment.
     */
    method Step(tag: char, value: int, now: real) returns (outcome: Outcome)
      requires Valid()
      modifies this
      ensures StepResult(Abs(), outcome) == Next(old(Abs()), tag, value, now)
      ensures outcome.Continue? ==> Valid()
    {
      outcome := Continue;
      if tag == 'S' {
        Tick(value, now);
      }
      if samples.None? {
        return;
      }
      match tag {
        case 'K' => signals := signals.(ecg := signals.ecg + [value]);
        case 'G' =>
          match Conductance(value) {
            case None => return Crash(ZeroDivisionError);
            case Some(g) => signals := signals.(edr := signals.edr + [g]);
          }
        case 'F' => detector := detector.(hp := detector.hp + [value]);
        case 'Q' => detector := detector.(sqr := detector.sqr + [value]);
        case 'I' => detector := detector.(integrated := detector.integrated + [value]);
        case 'B' =>
          var sinceLast := value - samples.value;
          var t := signals.t;
          signals := signals.(beats := signals.beats + [t[|t| - 1] + sinceLast as real * SecondsPerCount]);
        case 'P' =>
          match Bpm(value) {
            case None => return Crash(ZeroDivisionError);
            case Some(b) => signals := signals.(bpm2 := signals.bpm2 + [b]);
          }
          pulseFound := true;
        case 'O' =>
          match Bpm(value) {
            case None => return Crash(ZeroDivisionError);
            case Some(b) => signals := signals.(bpm1 := signals.bpm1 + [b]);
          }
          pulseFound := true;
        case 'T' =>
          detector := detector.(thresh1I := detector.thresh1I + [value],
                                thresh2I := detector.thresh2I + [value as real * 0.5]);
        case 'Y' =>
          detector := detector.(thresh1F := detector.thresh1F + [value],
                                thresh2F := detector.thresh2F + [value as real * 0.5]);
          outcome := AdvanceWindow();
        case 'N' => pulseRegular := value != 0;
        case 'R' => samples := Some(samples.value - value);
        case 'W' => signals := signals.(beatType := signals.beatType + [value]);
        case _ =>
      }
    }

    /** The time-axis update of an `S` line with counter `value`. */
    method Tick(value: int, now: real)
      requires Valid()
      modifies this
      ensures Abs() == Next(old(Abs()), 'S', value, now).state
    {
      var t := signals.t;
      if samples.None? {
        signals := signals.(t := t + [0.0]);
        samples := Some(value);
        startTime := Some(now);
      } else {
        var sinceLast := value - samples.value;
        samples := Some(value);
        signals := signals.(t := t + [t[|t| - 1] + sinceLast as real * SecondsPerCount]);
      }
    }

    /**
     * The window update of a `Y` line (after its thresholds are stored): the
     * index pair moves as `DrawableTick` says, and indexing `t` past its end
     * raises `IndexError`.
     */
    method AdvanceWindow() returns (outcome: Outcome)
      requires Valid() && samples.Some?
      modifies this
      ensures StepResult(Abs(), outcome) == DrawableTick(old(Abs()))
    {
      if lastDrawable.None? {
        lastDrawable := Some(0);
        firstDrawable := 0;
      } else {
        lastDrawable := Some(lastDrawable.value + 1);
      }
      var t := signals.t;
      if lastDrawable.value >= |t| {
        return Crash(IndexError);
      }
      if t[firstDrawable] < t[lastDrawable.value] - tDrawable {
        firstDrawable := firstDrawable + 1;
      }
      outcome := Continue;
    }

    /** One raw line: a line that does not decode is skipped. */
    method Ingest(line: string, now: real) returns (outcome: Outcome)
      requires Valid()
      modifies this
      ensures StepResult(Abs(), outcome) == IngestLine(old(Abs()), line, now)
      ensures outcome.Continue? ==> Valid()
    {
      match Decode(line) {
        case None => outcome := Continue;
        case Some(s) => outcome := Step(s.tag, s.value, now);
      }
    }

    /**
     * `run`: the reset of every list but `bpm1`, then the loop over the lines
     * read from the port, each with the wall-clock time at which it is
     * handled, until the lines run out or an exception ends the thread.
     */
    method Run(readings: seq<Reading>) returns (outcome: Outcome)
      requires tDrawable >= 0.0
      modifies this
      ensures StepResult(Abs(), outcome) == Feed(Reset(old(Abs())), readings)
      ensures outcome.Continue? ==> Valid()
    {
      ClearForRun();
      ghost var start := Abs();
      outcome := Continue;
      var i := 0;
      while i < |readings|
        invariant 0 <= i <= |readings|
        invariant Valid() && outcome == Continue
        invariant Feed(start, readings) == Feed(Abs(), readings[i..])
      {
        ghost var rest := readings[i..];
        assert rest[0] == readings[i] && rest[1..] == readings[i + 1..];
        outcome := Ingest(readings[i].line, readings[i].now);
        if outcome.Crash? {
          return;
        }
        i := i + 1;
      }
    }

    /** The reset at the start of `run`. */
    method ClearForRun()
      requires tDrawable >= 0.0
      modifies this
      ensures Abs() == Reset(old(Abs()))
      ensures Valid()
    {
      detector := DetectorLists([], [], [], [], [], [], []);
      signals := SignalLists([], [], [], [], [], signals.bpm1, [], []);
      firstDrawable := 0;
      lastDrawable := None;
      startTime := None;
      samples := None;
      pulseRegular := false;
      pulseFound := false;
    }

    /** `add_mark` at wall-clock time `now`. */
    method AddMark(now: real) returns (outcome: Outcome)
      modifies this
      ensures StepResult(Abs(), outcome) == Mark(old(Abs()), now)
    {
      outcome := Continue;
      match startTime {
        case None => return Crash(TypeError);
        case Some(start) => signals := signals.(marks := signals.marks + [now - start]);
      }
    }
  }
}
