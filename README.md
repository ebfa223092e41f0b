# biometrics-scanner acquisition core, in Dafny

This project models the acquisition core of biometrics-scanner, a Raspberry Pi
recorder of ECG, pulse and skin-conductance (EDR) data.

- **Device side.** A microcontroller streams text lines over a serial port. Each
  line is a one-character tag followed by an integer, for example `S1234` (a
  sample-counter tick), `K512` (an ECG sample) or `G500` (a raw EDR reading).
- **Acquisition object (`DAQThread`).** It decodes each line and appends the
  value, sometimes transformed, to the list for its tag. It rebuilds an
  elapsed-time axis from the device's sample counter and keeps a
  `first_drawable`/`last_drawable` index pair for the live plot.
- **Window (`MyFrame.onRedraw`).** The plot shows a view `t_window` seconds
  wide around the newest drawable time `t_max`. It ends `t_undrawn` seconds
  after `t_max`, so it reaches `t_window - t_undrawn` seconds before `t_max`.
  At the start of a recording, the view is `[0, t_window]` instead. `onRedraw`
  collects the trailing beats and marks inside the view and numbers the marks
  not drawn yet.

The modules:

- `LineDecoder` (line_decoder.dfy): splits a line into its tag and the value
  Python 2's `long()` gives the remainder. The grammar is leading whitespace, an
  optional sign, whitespace, decimal digits, an optional `L`/`l` suffix and
  trailing whitespace. Anything else is a `ValueError`, which skips the line.
- `LineGrammar` (line_grammar.dfy): a declarative grammar of that literal form.
  The decoder accepts exactly the well-formed literals and gives their value.
  Decoding a line as the device writes it (`Format`) gives back the sample.
- `Acquisition` (acquisition.dfy): the per-line state machine `Next` on a value
  `State` holding every list and counter. Also here:
  - the reset at the start of `run`
  - `add_mark`
  - the loop over many lines (`Feed`)
  - the invariant `Wf` the loop keeps

  A division by zero or an index past the end of a list raises in the
  source and ends the thread. Here it is an outcome `Crash(fault)`, with the
  state as it was at that moment.
- `AcquisitionProperties` (acquisition_properties.dfy): what each tag changes
  and leaves alone, the time axis, the drawable window, and properties of
  whole runs.
- `Daq` (daq_thread.dfy): the class `DaqThread`, whose methods update its
  fields in place. Each is proved to move `Abs()` exactly as the state machine
  says.
- `Redraw` (redraw.dfy): the class `Frame` with `OnRedraw`, the window
  arithmetic, the backward beat and mark scans, and the marks-numbering loop.

Python 2 semantics kept explicitly:

- Integer `/` floors (`FloorDiv`; Dafny's own `/` is Euclidean). This matters
  for `G` values above 1024, where the divisor is negative.
- `prefix is 'S'` is read as character equality.
- `0.005`, `0.5` and `60000.0 / value` are exact reals.

Where the system's description and the code differ, the model follows the code:

- The first `Y` sets `last_drawable` to 0, not 1.
- `first_drawable` advances by at most one per `Y` (a single `if`, not a loop),
  so the window can lag.
- `W` appends its value without any condition.
- A zero divisor raises instead of storing a sentinel.
- There is no snapshot lock, no fail-soft reader and no running min/max.
- Marks are wall-clock seconds since the first tick, not counter time.

## Model

| member | source | states |
|---|---|---|
| LineDecoder.Decode | daqthread.py:71-79 | a decoded line has at least two characters and its tag is the first one |
| LineGrammar.ParseLongComplete | daqthread.py:74 | every well-formed Python 2 integer literal (blanks, sign, blanks, digits, optional `L`, blanks) is accepted with its value |
| LineGrammar.ParseLongSound | daqthread.py:74 | every accepted remainder is a well-formed literal whose value is the one returned |
| LineGrammar.DecodeIff | daqthread.py:71-79 | a line decodes exactly when it is non-empty and its remainder after the tag is a well-formed literal |
| LineGrammar.DecodeFormat | daqthread.py:72-74 | a sample as the device writes it (tag, decimal value, newline) decodes back to the same tag and value |
| Acquisition.FloorDiv | daqthread.py:94 | the quotient is the floor of `a / b` for either sign of `b` |
| Acquisition.Conductance | daqthread.py:93-94 | `G` has no value exactly at 1024 (division by zero); the conductance is non-negative below 1024 and negative above it |
| Acquisition.Bpm | daqthread.py:104-109 | a period has no rate exactly at 0; otherwise rate times period is 60000 |
| Acquisition.Next | daqthread.py:80-134 | a line that does not raise keeps the invariant: time base iff non-empty time axis, `0 <= first_drawable <= last_drawable < len(t)` |
| Acquisition.DrawableTick | daqthread.py:116-124 | the window update of a `Y` keeps the invariant when it does not raise |
| Acquisition.IngestLine | daqthread.py:62-134 | one loop iteration keeps the invariant when it does not raise |
| Acquisition.Feed | daqthread.py:62-134 | a run of lines that does not die ends in a state satisfying the invariant |
| AcquisitionProperties.SkippedLineChangesNothing | daqthread.py:67-79 | an empty or undecodable line leaves every list and flag unchanged |
| AcquisitionProperties.NoTimeBaseDropsAllButTicks | daqthread.py:80-90 | before the first `S` every other tag, `R` included, is dropped with no change |
| AcquisitionProperties.TickAppendsOneTime | daqthread.py:80-88 | `S` appends exactly one time and never changes an existing one. The first appends 0 and sets the baseline and start time. Later ones append the last time plus the counter delta divided by 200. Nothing else changes. |
| AcquisitionProperties.OnlyTicksExtendTime | daqthread.py:89-134 | no tag but `S` changes the time axis |
| AcquisitionProperties.BaselineEvolution | daqthread.py:80-90 | the baseline becomes the `S` counter, is lowered by `R` once a time base exists, and is otherwise kept |
| AcquisitionProperties.TickMonotoneIff | daqthread.py:85-88 | a later `S` keeps a sorted time axis sorted exactly when its counter is not below the baseline |
| AcquisitionProperties.ResetMovesBaselineOnly | daqthread.py:130-132 | `R` subtracts its value from the baseline and changes nothing else |
| AcquisitionProperties.DataTagsAppendToOwnList | daqthread.py:91-100 | `K`, `F`, `Q`, `I` append to `ecg`, `hp`, `sqr`, `integrated` only |
| AcquisitionProperties.ThresholdPairs | daqthread.py:110-112 | `T` appends the value and its half to the integrated-stage threshold lists only |
| AcquisitionProperties.RegularityFlag | daqthread.py:125-129 | `N` sets `pulse_regular` to whether the value is non-zero and appends nothing |
| AcquisitionProperties.UnknownTagIgnored | daqthread.py:80-134 | a tag outside the table changes nothing |
| AcquisitionProperties.ConductanceChannel | daqthread.py:93-94 | `G` appends the floored `value*220/(1024-value)` to `edr` only. At 1024 it raises `ZeroDivisionError` with nothing changed. |
| AcquisitionProperties.PulseChannels | daqthread.py:104-109 | `P`/`O` append `60000/value` to `bpm2`/`bpm1` and set `pulse_found`. At 0 they raise with nothing changed. |
| AcquisitionProperties.BeatTimeIsTickTime | daqthread.py:101-103 | a beat at counter `v` gets exactly the time a tick at counter `v` would get; only `beats` changes |
| AcquisitionProperties.DrawableWindowStep | daqthread.py:113-124 | `Y` appends its threshold pair. The first `Y` sets both indices to 0; each later one adds exactly one to `last_drawable`. `first_drawable` grows by at most one, exactly when its time is more than `t_drawable` before the last. `IndexError` is raised iff the new index is past the time axis. Nothing else changes. |
| AcquisitionProperties.WindowMayLag | daqthread.py:116-124 | from the reset, the lines `S0 Y0 S1000 Y0 S2000 Y0 S20000 Y0` leave the window at indices 1..3 of the axis `[0, 5, 10, 100]`: its first time is still more than `t_drawable` (12) before its last, because one `Y` moves `first_drawable` at most once |
| AcquisitionProperties.WindowCanOutrunTicks | daqthread.py:116-124 | from the reset, `S0 Y0 Y0` raises `IndexError` and leaves `last_drawable` at 1 with a one-entry time axis, a state outside the loop invariant |
| AcquisitionProperties.ResetEstablishesInvariant | daqthread.py:38-59 | the reset at the start of `run` gives the initial state except for `bpm1` and `t_drawable`, which it keeps. So every other list is emptied, the baseline and window are unset, and the invariant holds |
| AcquisitionProperties.OnlyYMovesWindow | daqthread.py:80-134 | no tag but `Y` moves `first_drawable` or `last_drawable` |
| AcquisitionProperties.LinesKeepMarks | daqthread.py:80-134 | no line changes the marks |
| AcquisitionProperties.MarkRecordsElapsed | daqthread.py:200-201 | `add_mark` appends `now - start_time` and changes nothing else. Before the first tick it raises `TypeError` with nothing changed. |
| AcquisitionProperties.NoTicksNoChange | daqthread.py:78-90 | without a time base, a run with no `S` line changes nothing |
| AcquisitionProperties.TimeAxisGrows | daqthread.py:80-134 | over any run the old time axis is a prefix of the new one |
| AcquisitionProperties.TimeAxisCountsTicks | daqthread.py:80-88 | over a run that does not die, the time axis grows by exactly the number of `S` lines |
| AcquisitionProperties.TimeAxisMonotoneIff | daqthread.py:80-132 | over a run that does not die, a sorted time axis stays sorted exactly when no `S` counter is below its baseline, with `R` corrections applied |
| AcquisitionProperties.WindowCountsTimedYs | daqthread.py:113-124 | over a run that does not die, `last_drawable + 1` grows by exactly the number of `Y` lines that arrive after the first tick |
| AcquisitionProperties.TimedYsNeverOutnumberTicks | daqthread.py:38-134 | a run from the reset that does not die has no more `Y` lines after the first tick than `S` lines |
| Daq.DaqThread.constructor | daqthread.py:9-36 | a new object has every list empty, no time base, `t_drawable` 12 |
| Daq.DaqThread.Step | daqthread.py:80-134 | the per-tag updates made in place move the object exactly as `Next` |
| Daq.DaqThread.Tick | daqthread.py:80-88 | the in-place `S` update moves the object as `Next` on `S` |
| Daq.DaqThread.AdvanceWindow | daqthread.py:116-124 | the in-place window update moves the object as `DrawableTick`, raising `IndexError` past the time axis |
| Daq.DaqThread.Ingest | daqthread.py:63-79 | decoding then stepping moves the object as `IngestLine` |
| Daq.DaqThread.ClearForRun | daqthread.py:38-59 | the in-place reset leaves the object equal to `Reset` of its old state, satisfying the invariant |
| Daq.DaqThread.Run | daqthread.py:38-134 | `run` ends in the state `Feed` gives from the reset, stopping at the first exception |
| Daq.DaqThread.AddMark | daqthread.py:200-201 | `add_mark` moves the object as `Mark` |
| Redraw.ViewWindow | main.py:177-185 | the window has width `t_window`, starts at or after 0, ends at or after `t_window`, and reaches `t_max + t_undrawn` |
| Redraw.ViewWindowIsLeftmost | main.py:177-185 | the window is the leftmost among windows of that width that start at or after 0 and reach `t_max + t_undrawn` |
| Redraw.ViewWindowMonotone | main.py:177-185 | the window never moves back while `t_max` grows |
| Redraw.TrailingOffsets | main.py:187-201 | the scan returns `event - t_max` for a suffix of the events, newest first, each above `t_undrawn - t_window`. It stops at the first event that fails the test. Its marker heights are all 1 and as many. On a sorted list it misses no event above the bound. |
| Redraw.NewMarks | main.py:253-261 | the marks from the drawn count on, each labelled with its 1-based position |
| Redraw.MarksLabelledOnce | main.py:253-261 | two redraws with the marks only growing between them label every mark exactly once |
| Redraw.Frame.constructor | main.py:106-115 | the window starts as `[0, t_window]` with nothing drawn |
| Redraw.Frame.StartAcquisition | main.py:290-294 | starting resets the drawn counters and makes a new acquisition object with `t_drawable = t_window - t_undrawn` |
| Redraw.Frame.DrawNewMarks | main.py:253-261 | the loop draws exactly the new marks with their labels and ends with `marks_drawn` equal to the number of marks (or unchanged if already past it) |
| Redraw.Frame.OnRedraw | main.py:164-201 | Works on any acquisition state, including one left by a crash. No drawable sample: nothing changes. `bpm2`, `edr` or `t` shorter than `last_drawable + 1`: `IndexError` with nothing changed. Otherwise it sets `t_max` to the newest drawable time, places the window and collects the trailing beats and marks. A short `ecg` then raises `IndexError`. Otherwise it returns the read-outs and draws the new marks. |

## Left out

- Serial I/O (opening, closing, `readline`, `isOpen`): `Run` takes the lines read, each with its wall-clock time, as a sequence. The reprocessing of the previous line after a failed `readline` is transport behaviour and is not modelled.
- The thread itself, `keep_running`, `stop()` and the cross-thread reads in `onRedraw`: the model is sequential, one line at a time.
- `stop()`'s plotting and PNG export, the average-sample-time print and the `debug` print: output only.
- The wx GUI and matplotlib calls in main.py (layout, buttons, `RedrawThread`, `set_xdata`, `draw_artist`, `blit`, the busy-wait in stop). The trace series handed to `set_xdata`/`set_ydata` are not returned by `OnRedraw`; only the read-outs, the scanned offsets and the new mark labels are.
- `datetime.utcnow()` is a parameter `now`, in seconds.
- Floating point: `0.005`, `0.5`, `60000.0/value` and all times are exact reals, so rounding is not modelled.
- Float overflow: Python 2 raises `OverflowError` when a long too large for a float is converted. This happens in `samples_since_last * 0.005` (daqthread.py:88 and 103), `value * 0.5` (112 and 115) and `60000.0 / value` (105 and 108), and it ends the thread. `Next` works on exact reals, so it continues on such values.
- headless.py: a timed script that starts and stops the acquisition object.
- Daq.DaqThread.Run: requires `t_drawable >= 0`. The source only ever sets 12 or 13, and the window invariant needs it.
- Acquisition.Feed: a run ends when the lines run out, not when `keep_running` is cleared by another thread.
- The bpm1 list is not cleared by the reset at the start of `run`, as written. A new object is made for every acquisition, so this is harmless there.
