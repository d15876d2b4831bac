/**
 * The ingest side of the oscilloscope: the five sliding windows (the shared
 * x axis and, per channel, the raw and the smoothed samples), the per-line
 * token scanner that feeds them, the drain loop over the lines waiting on
 * the serial port, and the per-tick frame (offset-corrected traces and
 * their statistics) handed to the plots and labels.
 */
module Pipeline {
  import opened Wrappers
  import opened BoundedDeque
  import opened Stats
  import opened ZeroCrossing
  import opened Tokens

  /** `deque(maxlen=200)` in `create_data_containers`. */
  const Capacity: nat := 200
  /** `moving_average` is called with its default window of one sample. */
  const SmootherWindow: nat := 1
  /** `calculate_frequency` is called with its default sampling rate. */
  const SamplingRate: real := 29.0

  /** Python's `float(token)`, which may reject the token (`ValueError`). */
  type Parser = string -> Option<real>

  /** The contents of the five deques, oldest sample first. */
  datatype Windows = Windows(
    x: seq<int>,
    rawA0: seq<real>, filteredA0: seq<real>,
    rawA1: seq<real>, filteredA1: seq<real>)

  /** What became of one line. */
  datatype LineOutcome =
    | NoTick                   // the scan ran off the end without an `A1:`
    | Tick                     // an `A1:` reading was accepted
    | InvalidNumber(at: nat)   // `float(parts[at])` raised `ValueError`
    | MissingValue(at: nat)    // the marker at `parts[at]` was the last token (`IndexError`)

  /** The seven numbers on a channel's label panel, without RMS. */
  datatype Readout = Readout(
    amplitude: real, frequency: real, peakToPeak: real,
    mean: real, high: real, low: real)

  /** What one tick hands to the plots: the x axis, both traces and their readouts. */
  datatype Frame = Frame(
    x: seq<int>, traceA0: seq<real>, traceA1: seq<real>,
    readoutA0: Readout, readoutA1: Readout)

  /** `x` counts up by one from its first element. */
  predicate Consecutive(x: seq<int>)
  {
    forall i :: 0 <= i < |x| ==> x[i] == x[0] + i
  }

  /** Every window full, and the x axis a run of consecutive ticks. */
  predicate WellFormed(w: Windows)
  {
    && |w.x| == Capacity && Consecutive(w.x)
    && |w.rawA0| == Capacity && |w.filteredA0| == Capacity
    && |w.rawA1| == Capacity && |w.filteredA1| == Capacity
  }

  function Last(x: seq<int>): int
    requires |x| > 0
  {
    x[|x| - 1]
  }

  function Range(n: nat): (r: seq<int>)
    ensures |r| == n && forall i :: 0 <= i < n ==> r[i] == i
  {
    seq(n, i => i)
  }

  function Zeros(n: nat): (r: seq<real>)
    ensures |r| == n && forall i :: 0 <= i < n ==> r[i] == 0.0
  {
    seq(n, _ => 0.0)
  }

  /** `create_data_containers`: the x axis holds 0..199 and every sample window 200 zeros. */
  function Initial(): (w: Windows)
    ensures WellFormed(w)
    ensures w.x == Range(Capacity) && Last(w.x) == Capacity - 1
    ensures w.rawA0 == w.filteredA0 == w.rawA1 == w.filteredA1 == Zeros(Capacity)
  {
    Windows(Range(Capacity), Zeros(Capacity), Zeros(Capacity), Zeros(Capacity), Zeros(Capacity))
  }

  /** Those windows are what extending empty 200-slot deques with `range(200)` and with zeros leaves. */
  lemma InitialIsExtendedEmpty()
    ensures Extend([], Range(Capacity), Capacity) == Initial().x
    ensures Extend([], Zeros(Capacity), Capacity) == Initial().rawA0
  {
    ExtendEmpty(Range(Capacity), Capacity);
    ExtendEmpty(Zeros(Capacity), Capacity);
  }

  // ---------------------------------------------------------------------
  // One reading

  /** An `A0:` reading: append it to the raw window, then its smoothed value to the filtered one. */
  function IngestA0(w: Windows, v: real): (r: Windows)
    requires WellFormed(w)
    ensures WellFormed(r)
    ensures r.rawA0 == w.rawA0[1..] + [v] && r.filteredA0 == w.filteredA0[1..] + [v]
    ensures r.x == w.x && r.rawA1 == w.rawA1 && r.filteredA1 == w.filteredA1
  {
    var raw := Append(w.rawA0, v, Capacity);
    w.(rawA0 := raw, filteredA0 := Append(w.filteredA0, MovingAverage(raw, SmootherWindow), Capacity))
  }

  /** An `A1:` reading: the same for A1, and the x axis advances by one tick. */
  function IngestA1(w: Windows, v: real): (r: Windows)
    requires WellFormed(w)
    ensures WellFormed(r)
    ensures r.rawA1 == w.rawA1[1..] + [v] && r.filteredA1 == w.filteredA1[1..] + [v]
    ensures r.x == w.x[1..] + [Last(w.x) + 1] && Last(r.x) == Last(w.x) + 1
    ensures r.rawA0 == w.rawA0 && r.filteredA0 == w.filteredA0
  {
    var raw := Append(w.rawA1, v, Capacity);
    var x := Append(w.x, Last(w.x) + 1, Capacity);
    assert x == w.x[1..] + [Last(w.x) + 1];
    w.(rawA1 := raw, filteredA1 := Append(w.filteredA1, MovingAverage(raw, SmootherWindow), Capacity), x := x)
  }

  // ---------------------------------------------------------------------
  // The token scan of one line

  /**
   * The `for i in range(len(parts))` loop from index `i` on.  Every index is
   * visited, value tokens included; `A1:` ends the scan, and an exception
   * ends it with the appends made so far kept.
   */
  function ScanFrom(parts: seq<string>, i: nat, w: Windows, parse: Parser): (r: (Windows, LineOutcome))
    requires WellFormed(w)
    ensures WellFormed(r.0)
    ensures r.1.Tick? ==> r.0.x == w.x[1..] + [Last(w.x) + 1]
    ensures !r.1.Tick? ==> r.0.x == w.x && r.0.rawA1 == w.rawA1 && r.0.filteredA1 == w.filteredA1
    decreases |parts| - i
  {
    if i >= |parts| then (w, NoTick)
    else if parts[i] == "A0:" then
      if i + 1 >= |parts| then (w, MissingValue(i))
      else match parse(parts[i + 1])
        case None => (w, InvalidNumber(i + 1))
        case Some(v) => ScanFrom(parts, i + 1, IngestA0(w, v), parse)
    else if parts[i] == "A1:" then
      if i + 1 >= |parts| then (w, MissingValue(i))
      else match parse(parts[i + 1])
        case None => (w, InvalidNumber(i + 1))
        case Some(v) => (IngestA1(w, v), Tick)
    else ScanFrom(parts, i + 1, w, parse)
  }

  /** The effect of one line read from the port. */
  function ScanLine(line: string, w: Windows, parse: Parser): (r: (Windows, LineOutcome))
    requires WellFormed(w)
    ensures WellFormed(r.0)
    ensures r.1.Tick? ==> r.0.x == w.x[1..] + [Last(w.x) + 1]
    ensures !r.1.Tick? ==> r.0.x == w.x && r.0.rawA1 == w.rawA1 && r.0.filteredA1 == w.filteredA1
  {
    ScanFrom(Split(line), 0, w, parse)
  }

  predicate IsMarker(t: string)
  {
    t == "A0:" || t == "A1:"
  }

  /** One step of the scan at an `A0:` marker with a readable value. */
  lemma ScanStepA0(parts: seq<string>, i: nat, w: Windows, parse: Parser)
    requires WellFormed(w)
    requires i + 1 < |parts| && parts[i] == "A0:" && parse(parts[i + 1]).Some?
    ensures ScanFrom(parts, i, w, parse) == ScanFrom(parts, i + 1, IngestA0(w, parse(parts[i + 1]).value), parse)
  {
  }

  /** The scan at an `A1:` marker with a readable value: append, tick, stop. */
  lemma ScanStepA1(parts: seq<string>, i: nat, w: Windows, parse: Parser)
    requires WellFormed(w)
    requires i + 1 < |parts| && parts[i] == "A1:" && parse(parts[i + 1]).Some?
    ensures ScanFrom(parts, i, w, parse) == (IngestA1(w, parse(parts[i + 1]).value), Tick)
  {
  }

  /** The scan at a marker whose value is missing or unreadable: stop, keep `w`. */
  lemma ScanStepFails(parts: seq<string>, i: nat, w: Windows, parse: Parser)
    requires WellFormed(w)
    requires i < |parts| && IsMarker(parts[i])
    ensures i + 1 >= |parts| ==> ScanFrom(parts, i, w, parse) == (w, MissingValue(i))
    ensures i + 1 < |parts| && parse(parts[i + 1]).None? ==> ScanFrom(parts, i, w, parse) == (w, InvalidNumber(i + 1))
  {
  }

  /** One step of the scan past a token that is not a marker. */
  lemma ScanStepOther(parts: seq<string>, i: nat, w: Windows, parse: Parser)
    requires WellFormed(w)
    requires i < |parts| && !IsMarker(parts[i])
    ensures ScanFrom(parts, i, w, parse) == ScanFrom(parts, i + 1, w, parse)
  {
  }

  /** A line without a marker changes nothing. */
  lemma {:induction false} NoMarkerNoChange(parts: seq<string>, i: nat, w: Windows, parse: Parser)
    requires WellFormed(w)
    requires forall k :: i <= k < |parts| ==> !IsMarker(parts[k])
    ensures ScanFrom(parts, i, w, parse) == (w, NoTick)
    decreases |parts| - i
  {
    if i < |parts| {
      NoMarkerNoChange(parts, i + 1, w, parse);
    }
  }

  /** The scan stops at the first `A1:` that has a token after it: later tokens are ignored. */
  lemma {:induction false} IgnoresTokensAfterA1(parts: seq<string>, extra: seq<string>, i: nat, j: nat, w: Windows, parse: Parser)
    requires WellFormed(w)
    requires i <= j && j + 1 < |parts| && parts[j] == "A1:"
    ensures ScanFrom(parts + extra, i, w, parse) == ScanFrom(parts, i, w, parse)
    decreases |parts| - i
  {
    var all := parts + extra;
    assert all[i] == parts[i] && all[i + 1] == parts[i + 1];
    if parts[i] == "A0:" {
      match parse(parts[i + 1])
      case None =>
      case Some(v) => IgnoresTokensAfterA1(parts, extra, i + 1, j, IngestA0(w, v), parse);
    } else if parts[i] != "A1:" {
      IgnoresTokensAfterA1(parts, extra, i + 1, j, w, parse);
    }
  }

  /** An outcome reported `k` tokens further along the line. */
  function ShiftOutcome(o: LineOutcome, k: nat): (r: LineOutcome)
    ensures r.Tick? == o.Tick? && r.NoTick? == o.NoTick?
  {
    match o
    case InvalidNumber(at) => InvalidNumber(at + k)
    case MissingValue(at) => MissingValue(at + k)
    case _ => o
  }

  /** Scanning resumes the same way whatever precedes the current position; error positions move along. */
  lemma {:induction false} ScanShift(before: seq<string>, parts: seq<string>, i: nat, w: Windows, parse: Parser)
    requires WellFormed(w)
    ensures ScanFrom(before + parts, |before| + i, w, parse).0 == ScanFrom(parts, i, w, parse).0
    ensures ScanFrom(before + parts, |before| + i, w, parse).1 == ShiftOutcome(ScanFrom(parts, i, w, parse).1, |before|)
    decreases |parts| - i
  {
    var all := before + parts;
    if i < |parts| {
      assert all[|before| + i] == parts[i];
      if i + 1 < |parts| {
        assert all[|before| + i + 1] == parts[i + 1];
      }
      if parts[i] == "A0:" && i + 1 < |parts| {
        match parse(parts[i + 1])
        case None =>
        case Some(v) => ScanShift(before, parts, i + 1, IngestA0(w, v), parse);
      } else if parts[i] != "A1:" {
        ScanShift(before, parts, i + 1, w, parse);
      }
    }
  }

  /** A leading well-formed `A0:` reading is applied, then the rest of the line is scanned. */
  lemma LeadingA0Applied(token: string, rest: seq<string>, w: Windows, parse: Parser)
    requires WellFormed(w)
    requires parse(token).Some? && !IsMarker(token)
    ensures var tail := ScanFrom(rest, 0, IngestA0(w, parse(token).value), parse);
      ScanFrom(["A0:", token] + rest, 0, w, parse) == (tail.0, ShiftOutcome(tail.1, 2))
  {
    var parts := ["A0:", token] + rest;
    var w' := IngestA0(w, parse(token).value);
    assert parts[0] == "A0:" && parts[1] == token;
    ScanStepA0(parts, 0, w, parse);
    ScanStepOther(parts, 1, w', parse);
    ScanShift(["A0:", token], rest, 0, w', parse);
  }

  /**
   * A bad value or a dangling marker after an `A0:` reading aborts the line,
   * but the `A0:` reading already appended is not undone.
   */
  lemma FailureKeepsEarlierA0(token: string, marker: string, rest: seq<string>, w: Windows, parse: Parser)
    requires WellFormed(w)
    requires parse(token).Some? && !IsMarker(token) && IsMarker(marker)
    ensures rest == [] ==>
      ScanFrom(["A0:", token, marker], 0, w, parse) == (IngestA0(w, parse(token).value), MissingValue(2))
    ensures rest != [] && parse(rest[0]).None? ==>
      ScanFrom(["A0:", token, marker] + rest, 0, w, parse) == (IngestA0(w, parse(token).value), InvalidNumber(3))
  {
    var w' := IngestA0(w, parse(token).value);
    var tail := [marker] + rest;
    assert ["A0:", token, marker] + rest == ["A0:", token] + tail;
    LeadingA0Applied(token, tail, w, parse);
    assert tail[0] == marker;
    ScanStepFails(tail, 0, w', parse);
    if rest == [] {
      assert ["A0:", token, marker] + rest == ["A0:", token, marker];
    } else {
      assert tail[1] == rest[0];
    }
  }

  /** A line with a good A0 and A1 reading appends both and ticks once. */
  lemma AcceptedLine(t0: string, t1: string, w: Windows, parse: Parser)
    requires WellFormed(w)
    requires parse(t0).Some? && parse(t1).Some? && !IsMarker(t0)
    ensures ScanFrom(["A0:", t0, "A1:", t1], 0, w, parse)
      == (IngestA1(IngestA0(w, parse(t0).value), parse(t1).value), Tick)
  {
    assert ["A0:", t0, "A1:", t1] == ["A0:", t0] + ["A1:", t1];
    LeadingA0Applied(t0, ["A1:", t1], w, parse);
  }

  /** The line `A0: 1.5 A1: -2.25` splits into its four tokens. */
  lemma SplitGoodLine()
    ensures Split("A0: 1.5 A1: -2.25") == ["A0:", "1.5", "A1:", "-2.25"]
  {
    var good := ["A0:", "1.5", "A1:", "-2.25"];
    assert Join(good) == "A0: 1.5 A1: -2.25";
    SplitJoin(good);
  }

  /** The line `A0: notanumber A1: 1.0` splits into its four tokens. */
  lemma SplitBadLine()
    ensures Split("A0: notanumber A1: 1.0") == ["A0:", "notanumber", "A1:", "1.0"]
  {
    var bad := ["A0:", "notanumber", "A1:", "1.0"];
    assert Join(bad) == "A0: notanumber A1: 1.0";
    SplitJoin(bad);
  }

  /** A good line appends one reading per channel and ticks; a bad first value rejects the line. */
  lemma ScanExamples(w: Windows, parse: Parser)
    requires WellFormed(w)
    requires parse("1.5") == Some(1.5) && parse("-2.25") == Some(-2.25) && parse("notanumber") == None
    ensures ScanLine("A0: 1.5 A1: -2.25", w, parse) == (IngestA1(IngestA0(w, 1.5), -2.25), Tick)
    ensures ScanLine("A0: notanumber A1: 1.0", w, parse) == (w, InvalidNumber(1))
  {
    SplitGoodLine();
    AcceptedLine("1.5", "-2.25", w, parse);
    SplitBadLine();
    ScanStepFails(["A0:", "notanumber", "A1:", "1.0"], 0, w, parse);
  }

  // ---------------------------------------------------------------------
  // The frame drawn on a tick

  /** The seven label values of one trace (RMS aside). */
  function Measure(data: seq<real>): Readout
    requires |data| > 0
  {
    var (high, low) := HighLow(data);
    Readout(Amplitude(data), Frequency(data, SamplingRate), PeakToPeak(data), Mean(data), high, low)
  }

  /** The label values agree with each other and with the trace they describe. */
  lemma ReadoutConsistent(data: seq<real>)
    requires |data| > 0
    ensures var r := Measure(data);
      && r.peakToPeak == r.high - r.low == 2.0 * r.amplitude && r.peakToPeak >= 0.0
      && r.low <= r.mean <= r.high
      && r.high in data && r.low in data && (forall i :: 0 <= i < |data| ==> r.low <= data[i] <= r.high)
      && 0.0 <= r.frequency <= SamplingRate
  {
    StatsAgree(data);
    FrequencyBounds(data, SamplingRate);
  }

  /** The trace drawn for a channel: offset-corrected when the toggle is on. */
  function Trace(filtered: seq<real>, correct: bool): seq<real>
  {
    if correct then CorrectOffset(filtered) else filtered
  }

  /**
   * The frame drawn after an accepted `A1:` reading: both traces span the
   * whole x axis; a corrected trace is centred on zero and an uncorrected one
   * is the smoothed window; the swing and frequency shown are those of the
   * smoothed window whatever the toggle, and the frequency is in range.
   */
  function Render(w: Windows, correctA0: bool, correctA1: bool): (f: Frame)
    requires WellFormed(w)
    ensures f.x == w.x && f.traceA0 == Trace(w.filteredA0, correctA0) && f.traceA1 == Trace(w.filteredA1, correctA1)
    ensures |f.traceA0| == Capacity && |f.traceA1| == Capacity
    ensures correctA0 ==> Mean(f.traceA0) == 0.0 && f.readoutA0.mean == 0.0
    ensures correctA1 ==> Mean(f.traceA1) == 0.0 && f.readoutA1.mean == 0.0
    ensures !correctA0 ==> f.traceA0 == w.filteredA0
    ensures !correctA1 ==> f.traceA1 == w.filteredA1
    ensures f.readoutA0.peakToPeak == PeakToPeak(w.filteredA0) && f.readoutA0.amplitude == Amplitude(w.filteredA0)
    ensures f.readoutA1.peakToPeak == PeakToPeak(w.filteredA1) && f.readoutA1.amplitude == Amplitude(w.filteredA1)
    ensures f.readoutA0.frequency == Frequency(w.filteredA0, SamplingRate) && 0.0 <= f.readoutA0.frequency <= SamplingRate
    ensures f.readoutA1.frequency == Frequency(w.filteredA1, SamplingRate) && 0.0 <= f.readoutA1.frequency <= SamplingRate
  {
    var t0 := Trace(w.filteredA0, correctA0);
    var t1 := Trace(w.filteredA1, correctA1);
    RenderedChannel(w.filteredA0, correctA0);
    RenderedChannel(w.filteredA1, correctA1);
    FrequencyBounds(w.filteredA0, SamplingRate);
    FrequencyBounds(w.filteredA1, SamplingRate);
    Frame(w.x, t0, t1, Measure(t0), Measure(t1))
  }

  /**
   * A corrected trace is centred on zero, an uncorrected one is the window
   * itself, and either way the swing and the frequency shown are those of
   * the window: the toggle moves the trace but not those readings.
   */
  lemma RenderedChannel(filtered: seq<real>, correct: bool)
    requires |filtered| > 0
    ensures |Trace(filtered, correct)| == |filtered|
    ensures correct ==> Mean(Trace(filtered, correct)) == 0.0
    ensures !correct ==> Trace(filtered, correct) == filtered
    ensures Measure(Trace(filtered, correct)).peakToPeak == PeakToPeak(filtered)
    ensures Measure(Trace(filtered, correct)).amplitude == Amplitude(filtered)
    ensures Measure(Trace(filtered, correct)).frequency == Frequency(filtered, SamplingRate)
  {
    SwingUnchangedByCorrection(filtered, 0.0);
    FrequencyUnchangedByCorrection(filtered, 0.0, SamplingRate);
  }

  // ---------------------------------------------------------------------
  // Draining the port

  function Ticks(outcomes: seq<LineOutcome>): (n: nat)
    ensures n <= |outcomes|
  {
    if outcomes == [] then 0
    else (if outcomes[0].Tick? then 1 else 0) + Ticks(outcomes[1..])
  }

  /** `while ser.in_waiting > 0`: the lines waiting on the port, in order. */
  function DrainFrom(lines: seq<string>, w: Windows, parse: Parser): (r: (Windows, seq<LineOutcome>))
    requires WellFormed(w)
    ensures WellFormed(r.0) && |r.1| == |lines|
    decreases |lines|
  {
    if lines == [] then (w, [])
    else
      var first := ScanLine(lines[0], w, parse);
      var rest := DrainFrom(lines[1..], first.0, parse);
      assert ([first.1] + rest.1)[1..] == rest.1;
      (rest.0, [first.1] + rest.1)
  }

  /** Over a whole backlog the x axis advances exactly once per accepted `A1:` reading. */
  lemma {:induction false} DrainTicks(lines: seq<string>, w: Windows, parse: Parser)
    requires WellFormed(w)
    ensures Last(DrainFrom(lines, w, parse).0.x) == Last(w.x) + Ticks(DrainFrom(lines, w, parse).1)
    ensures Ticks(DrainFrom(lines, w, parse).1) == 0 ==>
      var after := DrainFrom(lines, w, parse).0;
      after.x == w.x && after.rawA1 == w.rawA1 && after.filteredA1 == w.filteredA1
    decreases |lines|
  {
    if lines != [] {
      var first := ScanLine(lines[0], w, parse);
      var rest := DrainFrom(lines[1..], first.0, parse);
      DrainTicks(lines[1..], first.0, parse);
      assert DrainFrom(lines, w, parse).1 == [first.1] + rest.1;
      assert ([first.1] + rest.1)[1..] == rest.1;
    }
  }

  /** The first waiting line is scanned first. */
  lemma DrainAdvance(lines: seq<string>, i: nat, w: Windows, parse: Parser)
    requires WellFormed(w) && i < |lines|
    ensures var first := ScanLine(lines[i], w, parse);
      DrainFrom(lines[i..], w, parse) ==
        (DrainFrom(lines[i + 1..], first.0, parse).0, [first.1] + DrainFrom(lines[i + 1..], first.0, parse).1)
  {
    assert lines[i..][0] == lines[i] && lines[i..][1..] == lines[i + 1..];
  }

  // ---------------------------------------------------------------------
  // The running instrument

  /**
   * The state `main` builds and `update_plot` mutates: the x axis of
   * channel A0's containers (the one the plots use), the four sample
   * windows, and the two offset-correction toggles.
   */
  class Scope {
    var x: seq<int>
    var rawA0: seq<real>
    var filteredA0: seq<real>
    var rawA1: seq<real>
    var filteredA1: seq<real>
    var correctA0: bool
    var correctA1: bool

    function Contents(): Windows
      reads this
    {
      Windows(x, rawA0, filteredA0, rawA1, filteredA1)
    }

    ghost predicate Valid()
      reads this
    {
      WellFormed(Contents())
    }

    /** `create_data_containers` and the two `BooleanVar(value=True)` toggles. */
    constructor ()
      ensures Valid() && Contents() == Initial()
      ensures x == Range(Capacity)
      ensures rawA0 == filteredA0 == rawA1 == filteredA1 == Zeros(Capacity)
      ensures correctA0 && correctA1
    {
      var w := Initial();
      x, rawA0, filteredA0, rawA1, filteredA1 := w.x, w.rawA0, w.filteredA0, w.rawA1, w.filteredA1;
      correctA0, correctA1 := true, true;
    }

    /** `toggle_offset_correction_A0`, without the button colour. */
    method ToggleOffsetCorrectionA0()
      modifies this`correctA0
      ensures correctA0 == !old(correctA0)
    {
      if correctA0 {
        correctA0 := false;
      } else {
        correctA0 := true;
      }
    }

    /** `toggle_offset_correction_A1`, without the button colour. */
    method ToggleOffsetCorrectionA1()
      modifies this`correctA1
      ensures correctA1 == !old(correctA1)
    {
      if correctA1 {
        correctA1 := false;
      } else {
        correctA1 := true;
      }
    }

    /** The `A0:` branch: append the raw value, then its smoothed value. */
    method AcceptA0(value: real)
      requires Valid()
      modifies this`rawA0, this`filteredA0
      ensures Valid() && Contents() == IngestA0(old(Contents()), value)
    {
      rawA0 := Append(rawA0, value, Capacity);
      filteredA0 := Append(filteredA0, MovingAverage(rawA0, SmootherWindow), Capacity);
    }

    /** The `A1:` branch: append to A1 and advance the x axis. */
    method AcceptA1(value: real)
      requires Valid()
      modifies this`x, this`rawA1, this`filteredA1
      ensures Valid() && Contents() == IngestA1(old(Contents()), value)
    {
      rawA1 := Append(rawA1, value, Capacity);
      filteredA1 := Append(filteredA1, MovingAverage(rawA1, SmootherWindow), Capacity);
      x := Append(x, Last(x) + 1, Capacity);
    }

    /**
     * The body of the drain loop for one line: split it, walk the tokens,
     * append in place, and on the first accepted `A1:` build the frame and stop.
     */
    method ProcessLine(line: string, parse: Parser) returns (outcome: LineOutcome, frame: Option<Frame>)
      requires Valid()
      modifies this`x, this`rawA0, this`filteredA0, this`rawA1, this`filteredA1
      ensures Valid()
      ensures (Contents(), outcome) == ScanLine(line, old(Contents()), parse)
      ensures Last(x) == Last(old(x)) + (if outcome.Tick? then 1 else 0)
      ensures frame == if outcome.Tick? then Some(Render(Contents(), correctA0, correctA1)) else None
    {
      var parts := Split(line);
      outcome, frame := NoTick, None;
      var i := 0;
      while i < |parts|
        invariant 0 <= i <= |parts|
        invariant Valid()
        invariant ScanFrom(parts, i, Contents(), parse) == ScanLine(line, old(Contents()), parse)
        invariant outcome == NoTick && frame == None
        decreases |parts| - i
      {
        ghost var before := Contents();
        if IsMarker(parts[i]) {
          ScanStepFails(parts, i, before, parse);
          if i + 1 >= |parts| {
            outcome := MissingValue(i);
            break;
          }
          var value := parse(parts[i + 1]);
          if value.None? {
            outcome := InvalidNumber(i + 1);
            break;
          }
          if parts[i] == "A1:" {
            ScanStepA1(parts, i, before, parse);
            AcceptA1(value.value);
            outcome, frame := Tick, Some(Render(Contents(), correctA0, correctA1));
            break;
          }
          ScanStepA0(parts, i, before, parse);
          AcceptA0(value.value);
        } else {
          ScanStepOther(parts, i, before, parse);
        }
        i := i + 1;
      }
    }

    /**
     * One call of `update_plot`: process every line waiting on the port.
     * The frame left on screen is the one from the last accepted `A1:`.
     */
    method Drain(lines: seq<string>, parse: Parser) returns (outcomes: seq<LineOutcome>, shown: Option<Frame>)
      requires Valid()
      modifies this`x, this`rawA0, this`filteredA0, this`rawA1, this`filteredA1
      ensures Valid()
      ensures (Contents(), outcomes) == DrainFrom(lines, old(Contents()), parse)
      // the x axis advances exactly once per accepted `A1:` reading
      ensures Last(x) == Last(old(x)) + Ticks(outcomes)
      ensures shown.None? <==> Ticks(outcomes) == 0
      // nothing after the last tick moves the x axis or the A1 windows
      ensures shown.Some? ==> shown.value.x == x && shown.value.traceA1 == Trace(filteredA1, correctA1)
    {
      outcomes, shown := [], None;
      var i := 0;
      assert lines[i..] == lines;
      assert outcomes + DrainFrom(lines, Contents(), parse).1 == DrainFrom(lines, Contents(), parse).1;
      while i < |lines|
        invariant 0 <= i <= |lines|
        invariant Valid()
        invariant DrainFrom(lines, old(Contents()), parse)
          == (DrainFrom(lines[i..], Contents(), parse).0, outcomes + DrainFrom(lines[i..], Contents(), parse).1)
        invariant Last(x) == Last(old(x)) + Ticks(outcomes)
        invariant shown.None? <==> Ticks(outcomes) == 0
        invariant shown.Some? ==> shown.value.x == x && shown.value.traceA1 == Trace(filteredA1, correctA1)
        decreases |lines| - i
      {
        DrainAdvance(lines, i, Contents(), parse);
        var outcome, frame := ProcessLine(lines[i], parse);
        ghost var rest := DrainFrom(lines[i + 1..], Contents(), parse);
        assert outcomes + ([outcome] + rest.1) == (outcomes + [outcome]) + rest.1;
        TicksConcat(outcomes, [outcome]);
        outcomes := outcomes + [outcome];
        if frame.Some? {
          shown := frame;
        }
        i := i + 1;
      }
      assert lines[i..] == [] && outcomes + [] == outcomes;
    }
  }

  lemma {:induction false} TicksConcat(a: seq<LineOutcome>, b: seq<LineOutcome>)
    ensures Ticks(a + b) == Ticks(a) + Ticks(b)
    decreases |a|
  {
    if a == [] {
      assert a + b == b;
    } else {
      assert (a + b)[1..] == a[1..] + b;
      TicksConcat(a[1..], b);
    }
  }
}
