# Two-channel serial oscilloscope: ingest, smoothing, offset correction and statistics

This project models the part of `gui-code/main_script.py` that turns text
lines read from a serial port into what the oscilloscope displays:

- the five 200-slot sliding windows:
  - the shared x axis;
  - raw A0 and smoothed A0;
  - raw A1 and smoothed A1;
- the per-line token scan that appends A0 and A1 readings and advances the x
  axis once per accepted A1 reading;
- the drain loop over all lines waiting on the port;
- the moving-average smoother;
- the DC-offset corrector and its two toggles;
- the label statistics: amplitude, zero-crossing frequency, peak-to-peak, mean,
  high and low.

Modules:

- `BoundedDeque` (`deque.dfy`): Python's `deque(maxlen=n)`. Its contents are a
  sequence, oldest first. `append` on a full deque drops the oldest element;
  `extend` appends one item at a time.
- `Stats` (`stats.dfy`): sum, mean, max and min; `moving_average`;
  `correct_offset`; `calculate_amplitude`, `calculate_peak_to_peak` and
  `calculate_high_low`. `calculate_mean` is `Stats.Mean`.
- `ZeroCrossing` (`frequency.dfy`): `calculate_frequency`, with its three
  guards kept as written.
- `Tokens` (`tokens.dfy`): `str.split()` with no argument.
- `Pipeline` (`pipeline.dfy`): the windows, the scan and the drain.
  - Pure values: the `Windows` datatype and the functions `ScanFrom`,
    `ScanLine` and `DrainFrom`.
  - The mutable state: class `Scope`. Its fields are the five windows and the
    two toggle flags. Its methods change the fields in place, with loops that
    follow the Python loops. Each ingest, scan and drain method is proved
    equal to the matching function; the two toggles state the flip directly.
- `Wrappers` (`wrappers.dfy`): `Option`.

Samples are exact reals. The x axis holds integers. `float(token)` is a
parameter `parse: string -> Option<real>`; `None` stands for `ValueError`.
The port's lines are a parameter of `Scope.Drain`.

Behaviour of the code that a reader may not expect:

- A line that fails part-way is not rejected whole. Readings appended before
  the failing token stay in the windows (`Pipeline.FailureKeepsEarlierA0`).
- The frequency is the reciprocal of the mean spacing between zero crossings.
  Crossings come twice per period, so a periodic signal reports twice its
  frequency (`ZeroCrossing.EvenlySpacedCrossings`).
- A sample exactly on the mean has sign 0. It therefore counts as a crossing on
  both of its sides (`ZeroCrossing.SampleOnTheMeanCountsTwice`).
- `max`/`min` of an empty series raise an error and are not guarded. The
  statistics therefore require a non-empty series. The windows are never empty.
- `moving_average` with window 0 slices `[-0:]`, which in Python is the whole
  list. It then returns the mean of all samples.

## Model

| member | source | states |
|---|---|---|
| `BoundedDeque.Append` | gui-code/main_script.py:260-262 | `append` on a deque of at most `maxlen` elements keeps the most recent `maxlen` elements of the old contents followed by the new value, and the new value is last |
| `BoundedDeque.AppendToFullEvictsOldest` | gui-code/main_script.py:67-69 | on a full deque `append` drops exactly the oldest element (FIFO eviction) |
| `BoundedDeque.Extend` | gui-code/main_script.py:70-72 | after `extend(items)` the deque holds `min(len + len(items), maxlen)` elements |
| `BoundedDeque.ExtendKeepsMostRecent` | gui-code/main_script.py:70-72 | after `extend(items)` the deque holds exactly the last elements of old contents followed by `items` |
| `BoundedDeque.ExtendEmpty` | gui-code/main_script.py:70-72 | extending an empty deque with at most `maxlen` items keeps all of them in order |
| `Stats.Mean` | gui-code/main_script.py:119-120 | `calculate_mean`, the sum divided by the length; `Stats.MeanWithinRange` bounds it by the extremes and `Stats.CorrectOffset` fixes it after correction |
| `Stats.Shift` | gui-code/main_script.py:146 | the comprehension `[d - offset for d in data]`: the same length, every sample moved by the same amount |
| `Stats.Amplitude` | gui-code/main_script.py:82-83 | `calculate_amplitude`: half of max minus min; `Stats.StatsAgree` proves it non-negative and half the peak-to-peak |
| `Stats.PeakToPeak` | gui-code/main_script.py:113-114 | `calculate_peak_to_peak`: max minus min; `Stats.StatsAgree` and `Stats.SwingUnchangedByCorrection` carry its properties |
| `Stats.HighLow` | gui-code/main_script.py:122-123 | `calculate_high_low`: the pair (max, min); `Stats.StatsAgree` proves low <= mean <= high and high - low is the peak-to-peak |
| `Stats.Max` | gui-code/main_script.py:122-123 | `max(data)` is an element of the series and bounds every element from above |
| `Stats.Min` | gui-code/main_script.py:122-123 | `min(data)` is an element of the series and bounds every element from below |
| `Stats.MeanWithinRange` | gui-code/main_script.py:119-120 | the mean lies between the smallest and the largest sample |
| `Stats.MovingAverage` | gui-code/main_script.py:75-79 | with the default window of one sample the smoothed value is the newest raw sample |
| `Stats.SmootherUsesOnlyRecent` | gui-code/main_script.py:75-79 | with a window of `w` samples and at least `w` present, samples older than the last `w` do not affect the result |
| `Stats.SmootherWithinRange` | gui-code/main_script.py:75-79 | for every window size, including 0 and windows longer than the data, the smoothed value lies between min and max of the data |
| `Stats.CorrectOffset` | gui-code/main_script.py:144-146 | the corrected series has the same length, keeps the difference between every two samples, so their order is unchanged, and has mean equal to the reference (an empty series stays empty) |
| `Stats.CorrectOffsetUnique` | gui-code/main_script.py:144-146 | any series with the input's spacing, the input's length and mean equal to the reference is the corrected one |
| `Stats.CorrectOffsetTwice` | gui-code/main_script.py:144-146 | correcting twice equals correcting once to the second reference, so correction is idempotent |
| `Stats.CorrectOffsetAtReference` | gui-code/main_script.py:144-146 | a series whose mean already equals the reference is returned unchanged |
| `Stats.StatsAgree` | gui-code/main_script.py:82-83 | peak-to-peak equals high minus low equals twice the amplitude; both are non-negative, and low <= mean <= high |
| `Stats.SwingUnchangedByCorrection` | gui-code/main_script.py:144-146 | offset correction leaves amplitude and peak-to-peak unchanged |
| `Stats.StatsOfOneToFive` | gui-code/main_script.py:113-123 | for 1, 2, 3, 4, 5: mean 3, high 5, low 1, peak-to-peak 4, amplitude 2 |
| `ZeroCrossing.Sign` | gui-code/main_script.py:92 | `np.sign`: 1, -1 or 0, with 0 a sign of its own; `ZeroCrossing.Crossings` is stated through it |
| `ZeroCrossing.Frequency` | gui-code/main_script.py:85-111 | `calculate_frequency`: remove the mean, find the crossings, estimate; `ZeroCrossing.FrequencyBounds`, `ZeroCrossing.FrequencyPositiveIffTwoCrossings` and `ZeroCrossing.FrequencyUnchangedByCorrection` carry its properties |
| `ZeroCrossing.EstimateFrom` | gui-code/main_script.py:94-111 | the three guards and `1 / avg_period` as written; `ZeroCrossing.EstimateClosedForm` and `ZeroCrossing.EstimateBounds` carry its properties |
| `ZeroCrossing.CrossingsFrom` | gui-code/main_script.py:91 | the crossing indices from `from` on are strictly increasing, in range, and are exactly the indices where the sign changes |
| `ZeroCrossing.Crossings` | gui-code/main_script.py:91 | `np.where(np.diff(np.sign(d)))[0]` is exactly the strictly increasing list of sign-change indices |
| `ZeroCrossing.Periods` | gui-code/main_script.py:97 | there is one spacing fewer than there are crossings |
| `ZeroCrossing.SumPeriods` | gui-code/main_script.py:97 | the spacings add up to the distance from the first to the last crossing, in seconds |
| `ZeroCrossing.AveragePeriod` | gui-code/main_script.py:102-111 | with two or more crossings the mean spacing is positive, and its reciprocal is the sampling rate times the number of gaps divided by the span |
| `ZeroCrossing.EstimateClosedForm` | gui-code/main_script.py:93-111 | fewer than two crossings give 0; otherwise the guards `len(periods) == 0` and `avg_period == 0` are never taken and the result is `rate * (k - 1) / (z[k-1] - z[0])` |
| `ZeroCrossing.EstimateBounds` | gui-code/main_script.py:93-111 | the estimate lies in `[0, sampling_rate]` and is positive exactly when there are at least two crossings |
| `ZeroCrossing.EvenlySpacedCrossings` | gui-code/main_script.py:97-111 | crossings `h` samples apart give `sampling_rate / h`, twice the frequency of a signal whose sign flips every `h` samples |
| `ZeroCrossing.FrequencyBounds` | gui-code/main_script.py:85-111 | `calculate_frequency` returns a value between 0 and the sampling rate |
| `ZeroCrossing.FrequencyPositiveIffTwoCrossings` | gui-code/main_script.py:85-111 | the frequency is positive if and only if the mean-removed series changes sign at two different places |
| `ZeroCrossing.FrequencyUnchangedByCorrection` | gui-code/main_script.py:88-91 | correcting the offset first, to any reference, does not change the frequency |
| `ZeroCrossing.SampleOnTheMeanCountsTwice` | gui-code/main_script.py:85-111 | the series 1, 2, 3 reports 29 Hz, because the middle sample sits on the mean |
| `Tokens.Split` | gui-code/main_script.py:256 | `str.split()` with no argument; `Tokens.SplitYieldsWords`, `Tokens.SplitJoin`, `Tokens.SplitIgnoresPadding` and `Tokens.SplitIgnoresLeadingWhitespace` carry its properties |
| `Tokens.SplitFromYieldsWords` | gui-code/main_script.py:256 | every token `split()` produces is non-empty and free of whitespace |
| `Tokens.SplitYieldsWords` | gui-code/main_script.py:256 | the same for `line.split()` |
| `Tokens.SplitWord` | gui-code/main_script.py:256 | a run of non-whitespace characters only extends the token being read |
| `Tokens.SplitJoin` | gui-code/main_script.py:256 | splitting tokens joined by single spaces gives back the tokens |
| `Tokens.SplitIgnoresPadding` | gui-code/main_script.py:256 | one leading whitespace character of any kind (space, tab, newline, U+3000, ...) does not change the tokens |
| `Tokens.SplitIgnoresLeadingWhitespace` | gui-code/main_script.py:256 | a leading run of whitespace characters of any length does not change the tokens |
| `Pipeline.Range` | gui-code/main_script.py:70 | `range(n)` holds 0..n-1 |
| `Pipeline.Zeros` | gui-code/main_script.py:71-72 | `[0] * n` holds n zeros |
| `Pipeline.Initial` | gui-code/main_script.py:66-73 | fresh containers: every window holds 200 elements, the x axis is 0..199 with last tick 199, and every sample window is 200 zeros |
| `Pipeline.InitialIsExtendedEmpty` | gui-code/main_script.py:66-72 | those windows are what extending empty 200-slot deques with `range(200)` and with `[0] * 200` leaves |
| `Pipeline.IngestA0` | gui-code/main_script.py:258-262 | an A0 reading drops the oldest raw and the oldest smoothed A0 sample and appends the reading to both (the default smoother passes it through); the x axis and A1 are unchanged; windows stay full and the axis consecutive |
| `Pipeline.IngestA1` | gui-code/main_script.py:264-270 | the same for A1, and the x axis drops its oldest tick and appends last tick + 1; A0 is unchanged |
| `Pipeline.ScanFrom` | gui-code/main_script.py:257-300 | the scan keeps windows full and the axis consecutive; if it ticks, the axis advanced by exactly one; otherwise the axis and both A1 windows are unchanged |
| `Pipeline.ScanLine` | gui-code/main_script.py:253-300 | the same for a whole line: the x axis advances at most once per line |
| `Pipeline.ScanStepA0` | gui-code/main_script.py:258-262 | at `A0:` with a readable value the scan appends it and continues at the next index, which is the value token |
| `Pipeline.ScanStepA1` | gui-code/main_script.py:264-296 | at `A1:` with a readable value the scan appends it, ticks and stops |
| `Pipeline.ScanStepFails` | gui-code/main_script.py:258-300 | a marker as the last token stops with `MissingValue` (IndexError); an unreadable value stops with `InvalidNumber` (ValueError); both leave the windows as they were at that point |
| `Pipeline.ScanStepOther` | gui-code/main_script.py:257-258 | a token that is not a marker is skipped |
| `Pipeline.NoMarkerNoChange` | gui-code/main_script.py:257-264 | a line without `A0:` or `A1:` changes nothing and does not tick |
| `Pipeline.IgnoresTokensAfterA1` | gui-code/main_script.py:264-296 | once an `A1:` with a following token is reached, tokens appended after it cannot change the result |
| `Pipeline.ShiftOutcome` | gui-code/main_script.py:257 | moving error positions along keeps whether the outcome is a tick or no tick |
| `Pipeline.ScanShift` | gui-code/main_script.py:257 | scanning from a position does not depend on the tokens before it, except that error positions move along |
| `Pipeline.LeadingA0Applied` | gui-code/main_script.py:258-262 | a good leading `A0:` reading is applied, and then the rest of the line is scanned from the updated windows |
| `Pipeline.FailureKeepsEarlierA0` | gui-code/main_script.py:258-300 | an A0 reading followed by a dangling marker or an unreadable value stays appended, and the line reports the failing position |
| `Pipeline.AcceptedLine` | gui-code/main_script.py:256-296 | `A0: a A1: b` appends `a` to A0, then `b` to A1, and ticks once |
| `Pipeline.SplitGoodLine` | gui-code/main_script.py:256 | `"A0: 1.5 A1: -2.25".split()` gives its four tokens |
| `Pipeline.SplitBadLine` | gui-code/main_script.py:256 | `"A0: notanumber A1: 1.0".split()` gives its four tokens |
| `Pipeline.ScanExamples` | gui-code/main_script.py:253-300 | the good line appends 1.5 and -2.25 and ticks; the line with `notanumber` as its first value changes nothing and reports the bad token at index 1 |
| `Pipeline.Measure` | gui-code/main_script.py:126-135 | the values `update_labels` shows for one trace, RMS aside; `Pipeline.ReadoutConsistent` carries its properties |
| `Pipeline.Trace` | gui-code/main_script.py:273-281 | the trace for a channel, offset-corrected when its toggle is on; `Pipeline.RenderedChannel` carries its properties |
| `Pipeline.ReadoutConsistent` | gui-code/main_script.py:126-136 | on one trace the labels agree: peak-to-peak = high - low = 2 * amplitude >= 0; low <= mean <= high; high and low are samples bounding every sample; 0 <= frequency <= 29 |
| `Pipeline.Render` | gui-code/main_script.py:273-295 | the frame plots the x axis; each trace spans all 200 ticks; with its toggle on a trace and its mean label are centred on zero, with it off the trace is the smoothed window; the peak-to-peak, amplitude and frequency labels are those of the smoothed window whatever the toggle, and the frequency lies in [0, 29] |
| `Pipeline.RenderedChannel` | gui-code/main_script.py:273-295 | a corrected trace has mean 0 and the window's length; an uncorrected one is the window; in both cases the displayed amplitude, peak-to-peak and frequency are those of the uncorrected window |
| `Pipeline.Ticks` | gui-code/main_script.py:252 | at most one tick per line |
| `Pipeline.DrainFrom` | gui-code/main_script.py:252-300 | draining the waiting lines keeps the windows full and reports one outcome per line |
| `Pipeline.DrainTicks` | gui-code/main_script.py:252-300 | over the whole backlog the last tick grows by exactly the number of ticking lines; with no tick the axis and the A1 windows are unchanged |
| `Pipeline.DrainAdvance` | gui-code/main_script.py:252 | lines are processed in order, the first one first |
| `Pipeline.TicksConcat` | gui-code/main_script.py:252 | tick counts add up over consecutive stretches of lines |
| `Pipeline.Scope.constructor` | gui-code/main_script.py:310-322 | the state starts as `create_data_containers()` leaves it, with both toggles on |
| `Pipeline.Scope.ToggleOffsetCorrectionA0` | gui-code/main_script.py:232-238 | the A0 toggle flips and nothing else changes |
| `Pipeline.Scope.ToggleOffsetCorrectionA1` | gui-code/main_script.py:240-246 | the A1 toggle flips and nothing else changes |
| `Pipeline.Scope.AcceptA0` | gui-code/main_script.py:259-262 | the in-place A0 appends produce `IngestA0` of the previous state |
| `Pipeline.Scope.AcceptA1` | gui-code/main_script.py:265-270 | the in-place A1 appends and the x-axis append produce `IngestA1` of the previous state |
| `Pipeline.Scope.ProcessLine` | gui-code/main_script.py:253-300 | the token loop with `break` leaves the windows and the outcome as `ScanLine` does; the last tick grows by one exactly on a tick; a frame is drawn exactly on a tick and is `Render` of the new state |
| `Pipeline.Scope.Drain` | gui-code/main_script.py:252-300 | the `while ser.in_waiting` loop leaves the state and outcomes as `DrainFrom` does; the last tick grows by the tick count; a frame is shown exactly when some line ticked, and it shows the final x axis and A1 trace |

## Left out

- Serial I/O is left out: opening the port, `in_waiting`, `readline`, UTF-8 decoding, `strip()` and the `print` calls. The waiting lines are a parameter of `Scope.Drain`.
- The Tk and matplotlib user interface is left out: windows, styles, buttons and their colours, the labels' text formatting (`:.2f`), `init_plot`, and `set_data`. `Render` returns the values that would be drawn.
- The zoom sliders and the axis limits they set (:283-287) only affect drawing.
- `calculate_rms` is not modelled. Its square root of a float has no exact real counterpart here.
- `float()` is a parameter. Its decimal/IEEE-754 grammar and rounding are not modelled, and samples are exact reals rather than doubles.
- The two `FuncAnimation` timers that both call `update_plot` every 10 ms, and their interleaving, are left out. One call is `Scope.Drain`.
- The first `update_plot` definition (:149-202) is left out. The second definition (:248) replaces it before it can run.
- The second set of containers from `create_data_containers` (x_data_A1, :323) is never read, so it is left out.
- numpy dtypes are left out. If A0 correction is off before any A0 reading arrives, `calculate_frequency` subtracts a float mean in place from an all-integer array. That raises an error, which the generic handler (:299) catches after the appends and the x-axis advance. The model treats the zeros as reals, so it does not raise.
- Error kinds are reduced to two. Any exception other than `ValueError` from `float` and `IndexError` from `parts[i + 1]` is out of scope.
- `ZeroCrossing.Frequency` requires a positive sampling rate. The code only ever uses 29.
- `Stats.MovingAverage` takes a `nat` window. A negative `window_size`, whose slice semantics differ, is not modelled; the code only ever uses 1.
