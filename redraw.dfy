/**
 * The view-window arithmetic of the live plot (`MyFrame.onRedraw`): the time
 * window shown, the trailing beats and marks inside it, the read-outs of the
 * newest drawable sample, and the numbering of newly drawn marks. Plotting
 * calls are left out; what they would draw is returned.
 */
module Redraw {
  import opened Wrappers
  import opened Acquisition
  import opened AcquisitionProperties
  import opened Daq

  /** The plotted time interval `[t_start, t_end]`. */
  datatype Window = Window(start: real, end: real)

  /**
   * The window for newest time `tMax`: `[0, tWindow]` while the newest time
   * plus the undrawn margin fits in it, and otherwise the interval of width
   * `tWindow` ending at `tMax + tUndrawn`.
   */
  function ViewWindow(tMax: real, tUndrawn: real, tWindow: real): (w: Window)
    ensures w.end - w.start == tWindow
    ensures w.start >= 0.0 && w.end >= tWindow
    ensures w.end >= tMax + tUndrawn
  {
    if tMax + tUndrawn < tWindow then Window(0.0, tWindow)
    else
      var end := tMax + tUndrawn;
      Window(end - tWindow, end)
  }

  /**
   * Of all windows of width `tWindow` that start at or after 0 and reach
   * `tMax + tUndrawn`, the chosen one is the leftmost.
   */
  lemma ViewWindowIsLeftmost(tMax: real, tUndrawn: real, tWindow: real, other: Window)
    requires other.end - other.start == tWindow && other.start >= 0.0
    requires other.end >= tMax + tUndrawn
    ensures ViewWindow(tMax, tUndrawn, tWindow).start <= other.start
  {
  }

  /** The window never moves back while the newest time grows. */
  lemma ViewWindowMonotone(tMax1: real, tMax2: real, tUndrawn: real, tWindow: real)
    requires tMax1 <= tMax2
    ensures ViewWindow(tMax1, tUndrawn, tWindow).start <= ViewWindow(tMax2, tUndrawn, tWindow).start
  {
  }

  /**
   * `xs` is what the backward scan over `events` collects: the offsets
   * `event - tMax` of a suffix of `events`, newest first, each above `lower`,
   * the scan having stopped at the first event (from the end) not above it.
   */
  predicate IsTrailingScan(events: seq<real>, tMax: real, lower: real, xs: seq<real>) {
    && |xs| <= |events|
    && (forall j :: 0 <= j < |xs| ==> xs[j] == events[|events| - 1 - j] - tMax)
    && (forall j :: 0 <= j < |xs| ==> xs[j] > lower)
    && (|xs| < |events| ==> events[|events| - 1 - |xs|] - tMax <= lower)
  }

  /**
   * The scan of `beats` or `marks` in `onRedraw`: collects the offsets from
   * `tMax` of the trailing events above `lower`, newest first, with a marker
   * height of 1 for each. On a sorted list no event above `lower` is missed.
   */
  method TrailingOffsets(events: seq<real>, tMax: real, lower: real) returns (xs: seq<real>, ys: seq<int>)
    ensures IsTrailingScan(events, tMax, lower, xs)
    ensures |ys| == |xs| && forall j :: 0 <= j < |ys| ==> ys[j] == 1
    ensures Sorted(events) ==>
      forall i :: 0 <= i < |events| && events[i] - tMax > lower ==> |events| - |xs| <= i
  {
    var i := |events|;
    xs, ys := [], [];
    while i > 0 && events[i - 1] - tMax > lower
      invariant 0 <= i <= |events|
      invariant |xs| == |events| - i && |ys| == |xs|
      invariant forall j :: 0 <= j < |ys| ==> ys[j] == 1
      invariant forall j :: 0 <= j < |xs| ==> xs[j] == events[|events| - 1 - j] - tMax
      invariant forall j :: 0 <= j < |xs| ==> xs[j] > lower
    {
      xs := xs + [events[i - 1] - tMax];
      ys := ys + [1];
      i := i - 1;
    }
  }

  /** The marks from index `drawn` on, each with its 1-based number as label. */
  function NewMarks(marks: seq<real>, drawn: nat): (labelled: seq<(real, nat)>)
    ensures |labelled| == if drawn < |marks| then |marks| - drawn else 0
    ensures forall j :: 0 <= j < |labelled| ==> labelled[j] == (marks[drawn + j], drawn + j + 1)
    decreases |marks| - drawn
  {
    if drawn >= |marks| then [] else [(marks[drawn], drawn + 1)] + NewMarks(marks, drawn + 1)
  }

  /**
   * Two redraws in a row, the marks only growing in between, label every mark
   * exactly once: what the first draws and what the second draws make up
   * what one redraw over the longer list would draw.
   */
  lemma {:induction false} MarksLabelledOnce(m1: seq<real>, m2: seq<real>, drawn: nat)
    requires m1 <= m2 && drawn <= |m1|
    ensures NewMarks(m1, drawn) + NewMarks(m2, |m1|) == NewMarks(m2, drawn)
    decreases |m1| - drawn
  {
    if drawn < |m1| {
      MarksLabelledOnce(m1, m2, drawn + 1);
      assert m1[drawn] == m2[drawn];
    }
  }

  /** What one redraw shows. */
  datatype Redrawn =
    | NotReady                       // no drawable sample yet
    | Failed(fault: Fault)           // an index past the end of a list raised
    | Drawn(bpm: real,               // pulse read-out, `bpm2[last_drawable]`
            conductance: int,        // EDR read-out, `edr[last_drawable]`
            regular: bool,           // read-out colour: green when the pulse is regular
            beatXs: seq<real>,       // trailing beats, offsets from `t_max`
            markXs: seq<real>,       // trailing marks, offsets from `t_max`
            newMarks: seq<(real, nat)>)  // marks drawn for the first time, with labels

  class Frame {
    const tWindow: real := 15.0
    const tUndrawn: real := 2.0
    var tStart: real
    var tEnd: real
    var tMax: real
    var beatsDrawn: nat
    var marksDrawn: nat

    /** `init_data` and `reset_plot`: the window is `[0, t_window]` and nothing is drawn yet. */
    constructor ()
      ensures tStart == 0.0 && tEnd - tStart == tWindow
      ensures beatsDrawn == 0 && marksDrawn == 0
    {
      tStart := 0.0;
      tEnd := 0.0 + tWindow;
      tMax := 0.0;
      beatsDrawn, marksDrawn := 0, 0;
    }

    /**
     * The start branch of the start/stop button: the drawn counters are
     * reset and a new acquisition object is made whose drawable span is the
     * window minus the undrawn margin.
     */
    method StartAcquisition() returns (daq: DaqThread)
      modifies this
      ensures fresh(daq)
      ensures daq.Abs() == Initial().(tDrawable := tWindow - tUndrawn) && daq.Valid()
      ensures beatsDrawn == 0 && marksDrawn == 0
      ensures tStart == old(tStart) && tEnd == old(tEnd) && tMax == old(tMax)
    {
      beatsDrawn, marksDrawn := 0, 0;
      daq := new DaqThread();
      daq.tDrawable := tWindow - tUndrawn;
    }

    /** The marks loop of `onRedraw`: draws each mark not drawn yet and counts it. */
    method DrawNewMarks(marks: seq<real>) returns (labelled: seq<(real, nat)>)
      modifies this
      ensures labelled == NewMarks(marks, old(marksDrawn))
      ensures marksDrawn == if old(marksDrawn) < |marks| then |marks| else old(marksDrawn)
      ensures tStart == old(tStart) && tEnd == old(tEnd) && tMax == old(tMax) && beatsDrawn == old(beatsDrawn)
    {
      labelled := [];
      while marksDrawn < |marks|
        invariant marksDrawn == old(marksDrawn) || old(marksDrawn) < marksDrawn <= |marks|
        invariant labelled + NewMarks(marks, marksDrawn) == NewMarks(marks, old(marksDrawn))
        invariant tStart == old(tStart) && tEnd == old(tEnd) && tMax == old(tMax) && beatsDrawn == old(beatsDrawn)
        decreases |marks| - marksDrawn
      {
        var markTime := marks[marksDrawn];
        marksDrawn := marksDrawn + 1;
        labelled := labelled + [(markTime, marksDrawn)];
      }
    }

    /**
     * `onRedraw` against the acquisition object `daq`. Without a drawable
     * sample nothing happens. Otherwise the read-outs index `bpm2` and `edr`
     * at `last_drawable` and `t_max` is read from `t[last_drawable]` (each
     * raising before any change when its list is shorter, as it is after a
     * `Y` that outran the ticks killed the thread), the window is placed
     * after `t_max`, the trailing beats and marks are collected, the ECG point
     * at `last_drawable` is read (raising when `ecg` is shorter), and the new
     * marks are drawn.
     */
    method OnRedraw(daq: DaqThread) returns (r: Redrawn)
      modifies this
      ensures daq.lastDrawable.None? ==> r == NotReady && unchanged(this)
      ensures daq.lastDrawable.Some? ==>
        var last := daq.lastDrawable.value;
        if last >= |daq.signals.bpm2| || last >= |daq.signals.edr| || last >= |daq.signals.t| then
          r == Failed(IndexError) && unchanged(this)
        else
          && tMax == daq.signals.t[last]
          && Window(tStart, tEnd) == ViewWindow(tMax, tUndrawn, tWindow)
          && beatsDrawn == old(beatsDrawn)
          && if last >= |daq.signals.ecg| then
               r == Failed(IndexError) && marksDrawn == old(marksDrawn)
             else
               && r.Drawn?
               && r.bpm == daq.signals.bpm2[last] && r.conductance == daq.signals.edr[last]
               && r.regular == daq.pulseRegular
               && IsTrailingScan(daq.signals.beats, tMax, tUndrawn - tWindow, r.beatXs)
               && IsTrailingScan(daq.signals.marks, tMax, tUndrawn - tWindow, r.markXs)
               && r.newMarks == NewMarks(daq.signals.marks, old(marksDrawn))
               && marksDrawn == if old(marksDrawn) < |daq.signals.marks| then |daq.signals.marks| else old(marksDrawn)
    {
      if daq.lastDrawable.None? {
        return NotReady;
      }
      var last := daq.lastDrawable.value;
      if last >= |daq.signals.bpm2| || last >= |daq.signals.edr| {
        return Failed(IndexError);
      }
      var bpm, conductance, regular := daq.signals.bpm2[last], daq.signals.edr[last], daq.pulseRegular;
      if last >= |daq.signals.t| {
        return Failed(IndexError);
      }
      tMax := daq.signals.t[last];
      var w := ViewWindow(tMax, tUndrawn, tWindow);
      tStart, tEnd := w.start, w.end;
      var beatXs, _ := TrailingOffsets(daq.signals.beats, tMax, tUndrawn - tWindow);
      var markXs, _ := TrailingOffsets(daq.signals.marks, tMax, tUndrawn - tWindow);
      if last >= |daq.signals.ecg| {
        return Failed(IndexError);
      }
      var newMarks := DrawNewMarks(daq.signals.marks);
      r := Drawn(bpm, conductance, regular, beatXs, markXs, newMarks);
    }
  }
}
