/**
 * Properties of the per-line state machine of `Acquisition`: what each tag
 * does and leaves alone, the time axis, the drawable window, and the loop over
 * many lines.
 */
module AcquisitionProperties {
  import opened Wrappers
  import opened LineDecoder
  import opened Acquisition

  predicate Sorted(s: seq<real>) {
    forall i, j :: 0 <= i < j < |s| ==> s[i] <= s[j]
  }

  // ---------------------------------------------------------------------------
  // One line.

  /** A line that does not decode leaves every list and flag as it was. */
  lemma SkippedLineChangesNothing(st: State, line: string, now: real)
    requires Wf(st)
    requires Decode(line).None?
    ensures IngestLine(st, line, now) == StepResult(st, Continue)
  {
  }

  /** Before the first `S` every other tag, `R` included, is dropped. */
  lemma NoTimeBaseDropsAllButTicks(st: State, tag: char, v: int, now: real)
    requires Wf(st) && st.samples.None?
    requires tag != 'S'
    ensures Next(st, tag, v, now) == StepResult(st, Continue)
  {
  }

  /**
   * `S` appends exactly one time: 0 on the first tick (which also sets the
   * baseline and the start time), otherwise the last time plus the counter
   * delta times 5 ms; the baseline becomes the new counter; nothing else moves.
   */
  lemma TickAppendsOneTime(st: State, v: int, now: real)
    requires Wf(st)
    ensures var r := Next(st, 'S', v, now);
      && r.outcome == Continue
      && |r.state.t| == |st.t| + 1 && r.state.t[..|st.t|] == st.t
      && r.state.samples == Some(v)
      && (st.samples.None? ==> r.state.t == [0.0] && r.state.startTime == Some(now))
      && (st.samples.Some? ==>
            r.state.t[|st.t|] - st.t[|st.t| - 1] == (v - st.samples.value) as real / 200.0
            && r.state.startTime == st.startTime)
      && r.state.(t := st.t, samples := st.samples, startTime := st.startTime) == st
  {
    var r := Next(st, 'S', v, now);
    assert r.state.t[..|st.t|] == st.t;
  }

  /** Only `S` changes the time axis. */
  lemma OnlyTicksExtendTime(st: State, tag: char, v: int, now: real)
    requires Wf(st) && tag != 'S'
    ensures Next(st, tag, v, now).state.t == st.t
  {
  }

  /** The counter baseline is set by `S`, lowered by `R` once a time base exists, and kept by all else. */
  lemma BaselineEvolution(st: State, tag: char, v: int, now: real)
    requires Wf(st)
    ensures Next(st, tag, v, now).state.samples ==
      if tag == 'S' then Some(v)
      else if tag == 'R' && st.samples.Some? then Some(st.samples.value - v)
      else st.samples
  {
  }

  /** A later tick keeps the time axis sorted exactly when its counter has not gone back past the baseline. */
  lemma TickMonotoneIff(st: State, v: int, now: real)
    requires Wf(st) && Sorted(st.t) && st.samples.Some?
    ensures Sorted(Next(st, 'S', v, now).state.t) <==> v >= st.samples.value
  {
    var t' := Next(st, 'S', v, now).state.t;
    var n := |st.t|;
    assert t' == st.t + [TickTime(st.t, st.samples.value, v)];
    if v >= st.samples.value {
      assert t'[n] >= t'[n - 1];
      forall i, j | 0 <= i < j < |t'| ensures t'[i] <= t'[j] {
        if j == n {
          assert t'[i] <= t'[n - 1];
        }
      }
    } else {
      assert t'[n - 1] > t'[n];
    }
  }

  /** `R` only lowers the baseline; the time axis and every list stay as they are. */
  lemma ResetMovesBaselineOnly(st: State, v: int, now: real)
    requires Wf(st) && st.samples.Some?
    ensures Next(st, 'R', v, now) == StepResult(st.(samples := Some(st.samples.value - v)), Continue)
  {
  }

  /** Each identity-valued data tag appends its value to its own list and changes nothing else. */
  lemma DataTagsAppendToOwnList(st: State, v: int, now: real)
    requires Wf(st) && st.samples.Some?
    ensures Next(st, 'K', v, now) == StepResult(st.(ecg := st.ecg + [v]), Continue)
    ensures Next(st, 'F', v, now) == StepResult(st.(hp := st.hp + [v]), Continue)
    ensures Next(st, 'Q', v, now) == StepResult(st.(sqr := st.sqr + [v]), Continue)
    ensures Next(st, 'I', v, now) == StepResult(st.(integrated := st.integrated + [v]), Continue)
    ensures Next(st, 'W', v, now) == StepResult(st.(beatType := st.beatType + [v]), Continue)
  {
  }

  /** `T` appends the threshold and its half to the two integrated-stage lists. */
  lemma ThresholdPairs(st: State, v: int, now: real)
    requires Wf(st) && st.samples.Some?
    ensures var r := Next(st, 'T', v, now);
      r == StepResult(st.(thresh1I := st.thresh1I + [v], thresh2I := st.thresh2I + [v as real / 2.0]), Continue)
  {
  }

  /** `N` sets `pulse_regular` to whether the value is non-zero, and appends nothing. */
  lemma RegularityFlag(st: State, v: int, now: real)
    requires Wf(st) && st.samples.Some?
    ensures Next(st, 'N', v, now) == StepResult(st.(pulseRegular := v != 0), Continue)
  {
  }

  /** A tag outside the table is ignored. */
  lemma UnknownTagIgnored(st: State, tag: char, v: int, now: real)
    requires Wf(st)
    requires tag !in "SKGFQIBPOTYNRW"
    ensures Next(st, tag, v, now) == StepResult(st, Continue)
  {
  }

  /**
   * `G` appends the floored conductance `v * 220 / (1024 - v)`; at 1024 the
   * division by zero ends the loop with nothing appended.
   */
  lemma ConductanceChannel(st: State, v: int, now: real)
    requires Wf(st) && st.samples.Some?
    ensures var r := Next(st, 'G', v, now);
      if v == 1024 then r == StepResult(st, Crash(ZeroDivisionError))
      else
        var g := Conductance(v).value;
        && r == StepResult(st.(edr := st.edr + [g]), Continue)
        && (v < 1024 ==> (1024 - v) * g <= 220 * v < (1024 - v) * g + (1024 - v))
        && (v > 1024 ==> (1024 - v) * g >= 220 * v > (1024 - v) * g + (1024 - v))
  {
    if v != 1024 {
      var g := Conductance(v).value;
      assert g == FloorDiv(v * 220, 1024 - v);
    }
  }

  /**
   * `P` and `O` append `60000 / v` to `bpm2` and `bpm1` and set `pulse_found`;
   * a zero period ends the loop with nothing changed.
   */
  lemma PulseChannels(st: State, v: int, now: real)
    requires Wf(st) && st.samples.Some?
    ensures var p := Next(st, 'P', v, now);
      if v == 0 then p == StepResult(st, Crash(ZeroDivisionError))
      else p == StepResult(st.(bpm2 := st.bpm2 + [60000.0 / v as real], pulseFound := true), Continue)
    ensures var o := Next(st, 'O', v, now);
      if v == 0 then o == StepResult(st, Crash(ZeroDivisionError))
      else o == StepResult(st.(bpm1 := st.bpm1 + [60000.0 / v as real], pulseFound := true), Continue)
  {
  }

  /** A beat at counter `v` gets the very time a tick at counter `v` would append; only `beats` changes. */
  lemma BeatTimeIsTickTime(st: State, v: int, now: real)
    requires Wf(st) && st.samples.Some?
    ensures var b := Next(st, 'B', v, now);
      var s := Next(st, 'S', v, now);
      && b.outcome == Continue
      && b.state == st.(beats := st.beats + [s.state.t[|s.state.t| - 1]])
  {
  }

  /**
   * `Y` appends the threshold pair and moves the window: the first `Y` sets
   * both indices to 0 and each later one advances `last_drawable` by exactly
   * one; `first_drawable` then advances by at most one, exactly when its time
   * is more than `t_drawable` before the last; an index past the end of the
   * time axis (more `Y` than `S`) raises `IndexError`. When the loop goes on,
   * `0 <= first_drawable <= last_drawable < |t|`.
   */
  lemma DrawableWindowStep(st: State, v: int, now: real)
    requires Wf(st) && st.samples.Some?
    ensures var r := Next(st, 'Y', v, now);
      var first := if st.lastDrawable.None? then 0 else st.firstDrawable;
      var last := if st.lastDrawable.None? then 0 else st.lastDrawable.value + 1;
      && r.state.thresh1F == st.thresh1F + [v]
      && r.state.thresh2F == st.thresh2F + [v as real / 2.0]
      && r.state.lastDrawable == Some(last)
      && (r.outcome == Crash(IndexError) <==> last >= |st.t|)
      && (r.outcome == Continue ==>
            && (r.state.firstDrawable == first + 1 <==> st.t[first] < st.t[last] - st.tDrawable)
            && first <= r.state.firstDrawable <= first + 1
            && r.state.firstDrawable <= last < |r.state.t|)
      && r.state.(thresh1F := st.thresh1F, thresh2F := st.thresh2F,
                  firstDrawable := st.firstDrawable, lastDrawable := st.lastDrawable) == st
  {
  }

  /**
   * One `Y` advances `first_drawable` by at most one, so the window need not
   * be tight afterwards. From the reset, the lines `S0 Y0 S1000 Y0 S2000 Y0
   * S20000 Y0` leave the time axis `[0, 5, 10, 100]` with the window `[1, 3]`,
   * whose first time 5 is still more than `t_drawable` (12) before its last.
   */
  lemma WindowMayLag(st: State)
    requires st.tDrawable == DefaultDrawableSeconds
    ensures
      var r1 := Next(Reset(st), 'S', 0, 0.0);
      var r2 := Next(r1.state, 'Y', 0, 0.0);
      var r3 := Next(r2.state, 'S', 1000, 0.0);
      var r4 := Next(r3.state, 'Y', 0, 0.0);
      var r5 := Next(r4.state, 'S', 2000, 0.0);
      var r6 := Next(r5.state, 'Y', 0, 0.0);
      var r7 := Next(r6.state, 'S', 20000, 0.0);
      var r8 := Next(r7.state, 'Y', 0, 0.0);
      && r8.outcome.Continue?
      && r8.state.t == [0.0, 5.0, 10.0, 100.0]
      && r8.state.firstDrawable == 1 && r8.state.lastDrawable == Some(3)
      && r8.state.t[1] < r8.state.t[3] - r8.state.tDrawable
  {
    var s0 := Reset(st);
    var r1 := Next(s0, 'S', 0, 0.0);
    assert r1.state.t == [0.0] && r1.state.samples == Some(0);
    var r2 := Next(r1.state, 'Y', 0, 0.0);
    assert r2.state.lastDrawable == Some(0) && r2.state.firstDrawable == 0;
    assert r2.state.t == [0.0] && r2.state.samples == Some(0) && r2.state.tDrawable == 12.0;
    var r3 := Next(r2.state, 'S', 1000, 0.0);
    LaterTick(r2.state, 1000);
    var r4 := Next(r3.state, 'Y', 0, 0.0);
    LaterY(r3.state);
    var r5 := Next(r4.state, 'S', 2000, 0.0);
    LaterTick(r4.state, 2000);
    var r6 := Next(r5.state, 'Y', 0, 0.0);
    LaterY(r5.state);
    var r7 := Next(r6.state, 'S', 20000, 0.0);
    LaterTick(r6.state, 20000);
    LaterY(r7.state);
  }

  /** A tick after the first, as far as the window example needs it. */
  lemma LaterTick(st: State, v: int)
    requires Wf(st) && st.samples.Some?
    ensures var r := Next(st, 'S', v, 0.0);
      && r.outcome.Continue?
      && r.state.t == st.t + [st.t[|st.t| - 1] + (v - st.samples.value) as real / 200.0]
      && r.state.samples == Some(v)
      && r.state.firstDrawable == st.firstDrawable && r.state.lastDrawable == st.lastDrawable
      && r.state.tDrawable == st.tDrawable
  {
  }

  /** A `Y` after the first with a tick to spare, as far as the window example needs it. */
  lemma LaterY(st: State)
    requires Wf(st) && st.samples.Some? && st.lastDrawable.Some? && st.lastDrawable.value + 1 < |st.t|
    ensures var r := Next(st, 'Y', 0, 0.0);
      var last := st.lastDrawable.value + 1;
      && r.outcome.Continue?
      && r.state.t == st.t && r.state.samples == st.samples && r.state.tDrawable == st.tDrawable
      && r.state.lastDrawable == Some(last)
      && r.state.firstDrawable ==
           if st.t[st.firstDrawable] < st.t[last] - st.tDrawable then st.firstDrawable + 1 else st.firstDrawable
  {
  }

  /**
   * A `Y` with no `S` before it moves `last_drawable` past the end of the time
   * axis and raises `IndexError`: from the reset, `S0 Y0 Y0` kills the loop
   * and leaves a window index no entry of `t` answers to.
   */
  lemma WindowCanOutrunTicks(st: State)
    requires st.tDrawable >= 0.0
    ensures
      var r1 := Next(Reset(st), 'S', 0, 0.0);
      var r2 := Next(r1.state, 'Y', 0, 0.0);
      var r3 := Next(r2.state, 'Y', 0, 0.0);
      && r2.outcome.Continue?
      && r3.outcome == Crash(IndexError)
      && r3.state.lastDrawable == Some(1) && |r3.state.t| == 1
      && !Wf(r3.state)
  {
    var r1 := Next(Reset(st), 'S', 0, 0.0);
    assert r1.outcome.Continue? && r1.state.t == [0.0];
    var r2 := Next(r1.state, 'Y', 0, 0.0);
    assert r2.outcome.Continue? && r2.state.lastDrawable == Some(0) && |r2.state.t| == 1;
  }

  /** The start of `run` empties every list except `bpm1` and unsets the time base and window. */
  lemma ResetEstablishesInvariant(st: State)
    requires st.tDrawable >= 0.0
    ensures Wf(Reset(st))
    ensures Reset(st).t == [] && Reset(st).samples.None? && Reset(st).lastDrawable.None?
    ensures Reset(st).bpm1 == st.bpm1 && Reset(st).tDrawable == st.tDrawable
    ensures Reset(st) == Initial().(bpm1 := st.bpm1, tDrawable := st.tDrawable)
  {
  }

  /** Only `Y` moves the drawable window. */
  lemma OnlyYMovesWindow(st: State, tag: char, v: int, now: real)
    requires Wf(st) && tag != 'Y'
    ensures Next(st, tag, v, now).state.lastDrawable == st.lastDrawable
    ensures Next(st, tag, v, now).state.firstDrawable == st.firstDrawable
  {
  }

  /** No line touches the marks; only `add_mark` does. */
  lemma LinesKeepMarks(st: State, tag: char, v: int, now: real)
    requires Wf(st)
    ensures Next(st, tag, v, now).state.marks == st.marks
  {
  }

  /**
   * `add_mark` appends one mark, the seconds from the first tick's wall-clock
   * time to `now`, and changes nothing else; before the first tick it raises
   * `TypeError` and changes nothing.
   */
  lemma MarkRecordsElapsed(st: State, now: real)
    ensures var r := Mark(st, now);
      && (st.startTime.None? <==> r.outcome == Crash(TypeError))
      && (st.startTime.None? ==> r.state == st)
      && (st.startTime.Some? ==>
            && |r.state.marks| == |st.marks| + 1
            && r.state.marks[..|st.marks|] == st.marks
            && st.startTime.value + r.state.marks[|st.marks|] == now
            && r.state.(marks := st.marks) == st)
  {
    if st.startTime.Some? {
      assert Mark(st, now).state.marks[..|st.marks|] == st.marks;
    }
  }

  // ---------------------------------------------------------------------------
  // Many lines.

  /** Whether a reading decodes to a tick. */
  predicate IsTick(r: Reading) {
    Decode(r.line).Some? && Decode(r.line).value.tag == 'S'
  }

  /** The number of readings that decode to ticks. */
  function TickCount(rs: seq<Reading>): nat {
    if rs == [] then 0 else (if IsTick(rs[0]) then 1 else 0) + TickCount(rs[1..])
  }

  /**
   * Whether the tick counters never go back past the baseline they are
   * measured from, the baseline following the ticks and the `R` corrections
   * just as the loop's `samples` does.
   */
  predicate CountersRise(rs: seq<Reading>, base: Option<int>)
    decreases |rs|
  {
    if rs == [] then true
    else
      match Decode(rs[0].line)
      case None => CountersRise(rs[1..], base)
      case Some(s) =>
        if s.tag == 'S' then (base.None? || base.value <= s.value) && CountersRise(rs[1..], Some(s.value))
        else if s.tag == 'R' && base.Some? then CountersRise(rs[1..], Some(base.value - s.value))
        else CountersRise(rs[1..], base)
  }

  /** With no time base, lines without a tick change nothing at all. */
  lemma {:induction false} NoTicksNoChange(st: State, rs: seq<Reading>)
    requires Wf(st) && st.samples.None?
    requires TickCount(rs) == 0
    ensures Feed(st, rs) == StepResult(st, Continue)
    decreases |rs|
  {
    if rs != [] {
      match Decode(rs[0].line) {
        case None =>
        case Some(s) => NoTimeBaseDropsAllButTicks(st, s.tag, s.value, rs[0].now);
      }
      NoTicksNoChange(st, rs[1..]);
    }
  }

  /** The time axis only grows: what it held before the lines is a prefix of what it holds after. */
  lemma {:induction false} TimeAxisGrows(st: State, rs: seq<Reading>)
    requires Wf(st)
    ensures st.t <= Feed(st, rs).state.t
    decreases |rs|
  {
    if rs != [] {
      var r1 := IngestLine(st, rs[0].line, rs[0].now);
      assert st.t <= r1.state.t by {
        match Decode(rs[0].line)
        case None =>
        case Some(s) =>
          if s.tag == 'S' {
            TickAppendsOneTime(st, s.value, rs[0].now);
          } else {
            OnlyTicksExtendTime(st, s.tag, s.value, rs[0].now);
          }
      }
      if r1.outcome.Continue? {
        TimeAxisGrows(r1.state, rs[1..]);
      }
    }
  }

  /** Every tick appends exactly one time, and nothing else appends one. */
  lemma {:induction false} TimeAxisCountsTicks(st: State, rs: seq<Reading>)
    requires Wf(st)
    requires Feed(st, rs).outcome.Continue?
    ensures |Feed(st, rs).state.t| == |st.t| + TickCount(rs)
    decreases |rs|
  {
    if rs != [] {
      var r1 := IngestLine(st, rs[0].line, rs[0].now);
      match Decode(rs[0].line) {
        case None =>
        case Some(s) =>
          if s.tag == 'S' {
            TickAppendsOneTime(st, s.value, rs[0].now);
          } else {
            OnlyTicksExtendTime(st, s.tag, s.value, rs[0].now);
          }
      }
      TimeAxisCountsTicks(r1.state, rs[1..]);
    }
  }

  /**
   * Over a run that does not die, the time axis stays sorted exactly when the
   * tick counters never go back past their baseline: a backward counter is
   * appended as it is and the axis stays unsorted from then on.
   */
  lemma {:induction false} TimeAxisMonotoneIff(st: State, rs: seq<Reading>)
    requires Wf(st) && Sorted(st.t)
    requires Feed(st, rs).outcome.Continue?
    ensures Sorted(Feed(st, rs).state.t) <==> CountersRise(rs, st.samples)
    decreases |rs|
  {
    if rs != [] {
      var now := rs[0].now;
      var r1 := IngestLine(st, rs[0].line, now);
      match Decode(rs[0].line)
      case None =>
        TimeAxisMonotoneIff(st, rs[1..]);
      case Some(s) =>
        BaselineEvolution(st, s.tag, s.value, now);
        if s.tag == 'S' && st.samples.Some? {
          TickMonotoneIff(st, s.value, now);
          if Sorted(r1.state.t) {
            TimeAxisMonotoneIff(r1.state, rs[1..]);
          } else {
            TimeAxisGrows(r1.state, rs[1..]);
            UnsortedPrefix(r1.state.t, Feed(r1.state, rs[1..]).state.t);
          }
        } else {
          if s.tag == 'S' {
            TickAppendsOneTime(st, s.value, now);
          } else {
            OnlyTicksExtendTime(st, s.tag, s.value, now);
          }
          TimeAxisMonotoneIff(r1.state, rs[1..]);
        }
    }
  }

  lemma UnsortedPrefix(a: seq<real>, b: seq<real>)
    requires a <= b && !Sorted(a)
    ensures !Sorted(b)
  {
    var i, j :| 0 <= i < j < |a| && a[i] > a[j];
    assert b[i] > b[j];
  }

  /** How many `Y` indices the drawable window has handed out: `last_drawable + 1`, or 0. */
  function WindowCount(st: State): nat {
    if st.lastDrawable.None? then 0 else st.lastDrawable.value + 1
  }

  /** The number of `Y` readings that arrive once a time base exists (`based` says whether one does now). */
  function TimedYs(rs: seq<Reading>, based: bool): nat {
    if rs == [] then 0
    else
      match Decode(rs[0].line)
      case None => TimedYs(rs[1..], based)
      case Some(s) =>
        (if s.tag == 'Y' && based then 1 else 0) + TimedYs(rs[1..], based || s.tag == 'S')
  }

  /** Every `Y` after the first tick hands out exactly one more window index; earlier ones are dropped. */
  lemma {:induction false} WindowCountsTimedYs(st: State, rs: seq<Reading>)
    requires Wf(st)
    requires Feed(st, rs).outcome.Continue?
    ensures WindowCount(Feed(st, rs).state) == WindowCount(st) + TimedYs(rs, st.samples.Some?)
    decreases |rs|
  {
    if rs != [] {
      var now := rs[0].now;
      var r1 := IngestLine(st, rs[0].line, now);
      match Decode(rs[0].line) {
        case None =>
        case Some(s) =>
          BaselineEvolution(st, s.tag, s.value, now);
          if s.tag == 'Y' {
            if st.samples.Some? {
              DrawableWindowStep(st, s.value, now);
            } else {
              NoTimeBaseDropsAllButTicks(st, s.tag, s.value, now);
            }
          } else {
            OnlyYMovesWindow(st, s.tag, s.value, now);
          }
      }
      WindowCountsTimedYs(r1.state, rs[1..]);
    }
  }

  /**
   * A run that starts from the reset and does not die never has more `Y`
   * lines (after the first tick) than `S` lines: the window index is used on
   * the time axis, so one `Y` too many raises `IndexError`.
   */
  lemma TimedYsNeverOutnumberTicks(st: State, rs: seq<Reading>)
    requires st.tDrawable >= 0.0
    requires Feed(Reset(st), rs).outcome.Continue?
    ensures TimedYs(rs, false) <= TickCount(rs)
  {
    var s0 := Reset(st);
    WindowCountsTimedYs(s0, rs);
    TimeAxisCountsTicks(s0, rs);
  }
}
