/**
 * The descriptive statistics shown beside each channel's plot, the causal
 * moving-average smoother and the DC-offset corrector.  Samples are exact
 * reals, so sums, means, shifts and extrema carry no rounding.
 */
module Stats {

  /** The sum of a series (what `np.mean` divides by the length). */
  function Sum(s: seq<real>): real
    decreases |s|
  {
    if s == [] then 0.0 else s[0] + Sum(s[1..])
  }

  /** `np.mean`: the arithmetic mean of a non-empty series. */
  function Mean(s: seq<real>): real
    requires |s| > 0
  {
    Sum(s) / (|s| as real)
  }

  /** Python's `max` over a non-empty series. */
  function Max(s: seq<real>): (m: real)
    requires |s| > 0
    ensures m in s
    ensures forall i :: 0 <= i < |s| ==> s[i] <= m
    decreases |s|
  {
    if |s| == 1 then s[0]
    else
      var rest := Max(s[1..]);
      if s[0] >= rest then s[0] else rest
  }

  /** Python's `min` over a non-empty series. */
  function Min(s: seq<real>): (m: real)
    requires |s| > 0
    ensures m in s
    ensures forall i :: 0 <= i < |s| ==> m <= s[i]
    decreases |s|
  {
    if |s| == 1 then s[0]
    else
      var rest := Min(s[1..]);
      if s[0] <= rest then s[0] else rest
  }

  /** Every element minus the same constant `c`. */
  function Shift(s: seq<real>, c: real): (r: seq<real>)
    ensures |r| == |s|
  {
    seq(|s|, i requires 0 <= i < |s| => s[i] - c)
  }

  // ---------------------------------------------------------------------
  // Facts about sums, means and extrema

  lemma {:induction false} SumShift(s: seq<real>, c: real)
    ensures Sum(Shift(s, c)) == Sum(s) - (|s| as real) * c
    decreases |s|
  {
    if s != [] {
      assert Shift(s, c)[1..] == Shift(s[1..], c);
      SumShift(s[1..], c);
    }
  }

  lemma {:induction false} SumBounds(s: seq<real>, lo: real, hi: real)
    requires forall i :: 0 <= i < |s| ==> lo <= s[i] <= hi
    ensures (|s| as real) * lo <= Sum(s) <= (|s| as real) * hi
    decreases |s|
  {
    if s != [] {
      SumBounds(s[1..], lo, hi);
    }
  }

  lemma QuotientBounds(a: real, n: real, lo: real, hi: real)
    requires n > 0.0 && n * lo <= a <= n * hi
    ensures lo <= a / n <= hi
  {
    assert a / n - lo == (a - n * lo) / n;
    assert hi - a / n == (n * hi - a) / n;
  }

  /** A mean is bounded by any bounds of its samples. */
  lemma {:induction false} MeanBetween(s: seq<real>, lo: real, hi: real)
    requires |s| > 0
    requires forall i :: 0 <= i < |s| ==> lo <= s[i] <= hi
    ensures lo <= Mean(s) <= hi
  {
    SumBounds(s, lo, hi);
    QuotientBounds(Sum(s), |s| as real, lo, hi);
  }

  /** A mean is at least any lower bound of its samples. */
  lemma MeanAtLeast(s: seq<real>, lo: real)
    requires |s| > 0
    requires forall i :: 0 <= i < |s| ==> lo <= s[i]
    ensures lo <= Mean(s)
  {
    MeanBetween(s, lo, Max(s));
  }

  /** The mean lies between the smallest and the largest sample. */
  lemma {:induction false} MeanWithinRange(s: seq<real>)
    requires |s| > 0
    ensures Min(s) <= Mean(s) <= Max(s)
  {
    MeanBetween(s, Min(s), Max(s));
  }

  lemma MeanOfOne(x: real)
    ensures Mean([x]) == x
  {
    assert Sum([x]) == x + Sum([]);
  }

  lemma MeanShift(s: seq<real>, c: real)
    requires |s| > 0
    ensures Mean(Shift(s, c)) == Mean(s) - c
  {
    var n := |s| as real;
    SumShift(s, c);
    assert Sum(Shift(s, c)) / n == Sum(s) / n - n * c / n;
  }

  /** A value that occurs in `s` and bounds it from above is its maximum. */
  lemma MaxUnique(s: seq<real>, m: real)
    requires m in s && forall i :: 0 <= i < |s| ==> s[i] <= m
    ensures Max(s) == m
  {
    var k :| 0 <= k < |s| && s[k] == m;
    assert Max(s) >= s[k];
  }

  lemma MinUnique(s: seq<real>, m: real)
    requires m in s && forall i :: 0 <= i < |s| ==> m <= s[i]
    ensures Min(s) == m
  {
    var k :| 0 <= k < |s| && s[k] == m;
    assert Min(s) <= s[k];
  }

  lemma MaxShift(s: seq<real>, c: real)
    requires |s| > 0
    ensures Max(Shift(s, c)) == Max(s) - c
  {
    var t := Shift(s, c);
    var m := Max(s);
    assert m in s;
    var k :| 0 <= k < |s| && s[k] == m;
    assert t[k] == m - c;
    forall i | 0 <= i < |t|
      ensures t[i] <= m - c
    {
      assert t[i] == s[i] - c;
    }
    MaxUnique(t, m - c);
  }

  lemma MinShift(s: seq<real>, c: real)
    requires |s| > 0
    ensures Min(Shift(s, c)) == Min(s) - c
  {
    var t := Shift(s, c);
    var m := Min(s);
    assert m in s;
    var k :| 0 <= k < |s| && s[k] == m;
    assert t[k] == m - c;
    forall i | 0 <= i < |t|
      ensures m - c <= t[i]
    {
      assert t[i] == s[i] - c;
    }
    MinUnique(t, m - c);
  }

  // ---------------------------------------------------------------------
  // Smoother

  /**
   * `moving_average(data, window_size)`: the mean of the last `windowSize`
   * samples, or of all of them when fewer are available.  A window of 0
   * slices `list(data)[-0:]`, which in Python is the whole list.
   */
  function MovingAverage(data: seq<real>, windowSize: nat := 1): (r: real)
    requires |data| > 0
    ensures windowSize == 1 ==> r == data[|data| - 1]
  {
    if |data| < windowSize then Mean(data)
    else if windowSize == 0 then Mean(data)
    else
      var recent := data[|data| - windowSize..];
      if windowSize == 1 then
        assert recent == [data[|data| - 1]];
        MeanOfOne(data[|data| - 1]);
        Mean(recent)
      else Mean(recent)
  }

  /** The smoother is causal and local: only the last `windowSize` samples matter. */
  lemma SmootherUsesOnlyRecent(older: seq<real>, recent: seq<real>, windowSize: nat)
    requires 0 < windowSize <= |recent|
    ensures MovingAverage(older + recent, windowSize) == MovingAverage(recent, windowSize)
  {
    var all := older + recent;
    assert all[|all| - windowSize..] == recent[|recent| - windowSize..];
  }

  /** The smoothed value lies within the range of the samples it averages. */
  lemma SmootherWithinRange(data: seq<real>, windowSize: nat)
    requires |data| > 0
    ensures Min(data) <= MovingAverage(data, windowSize) <= Max(data)
  {
    if |data| < windowSize || windowSize == 0 {
      MeanWithinRange(data);
    } else {
      var tail := data[|data| - windowSize..];
      MeanWithinRange(tail);
      assert tail[0] in data && Min(tail) in data;
      var k :| 0 <= k < |tail| && tail[k] == Min(tail);
      assert data[|data| - windowSize + k] == Min(tail);
      var j :| 0 <= j < |tail| && tail[j] == Max(tail);
      assert data[|data| - windowSize + j] == Max(tail);
    }
  }

  // ---------------------------------------------------------------------
  // Offset corrector

  /**
   * `correct_offset(data, reference_value)`: subtract `mean(data) - reference`
   * from every sample.  An empty series stays empty.
   */
  function CorrectOffset(data: seq<real>, reference: real := 0.0): (r: seq<real>)
    ensures |r| == |data|
    // order and spacing are kept: the same constant comes off every sample
    ensures forall i, j :: 0 <= i < |data| && 0 <= j < |data| ==> r[i] - r[j] == data[i] - data[j]
    ensures |data| > 0 ==> Mean(r) == reference
  {
    if data == [] then []
    else
      var offset := Mean(data) - reference;
      MeanShift(data, offset);
      Shift(data, offset)
  }

  /** The corrected series is the ONLY one with the input's spacing and the reference mean. */
  lemma CorrectOffsetUnique(data: seq<real>, reference: real, r: seq<real>)
    requires |r| == |data| > 0
    requires forall i, j :: 0 <= i < |data| && 0 <= j < |data| ==> r[i] - r[j] == data[i] - data[j]
    requires Mean(r) == reference
    ensures r == CorrectOffset(data, reference)
  {
    var d := data[0] - r[0];
    assert r == Shift(data, d) by {
      forall i | 0 <= i < |r| ensures r[i] == Shift(data, d)[i] {
        assert r[i] - r[0] == data[i] - data[0];
      }
    }
    MeanShift(data, d);
    assert d == Mean(data) - reference;
  }

  /** Correcting twice is correcting once to the last reference; in particular it is idempotent. */
  lemma CorrectOffsetTwice(data: seq<real>, first: real, second: real)
    ensures CorrectOffset(CorrectOffset(data, first), second) == CorrectOffset(data, second)
  {
    if data != [] {
      var once := CorrectOffset(data, first);
      var twice := CorrectOffset(once, second);
      var direct := CorrectOffset(data, second);
      forall i | 0 <= i < |data| ensures twice[i] == direct[i] {
        assert twice[i] == once[i] - (first - second);
        assert once[i] == data[i] - (Mean(data) - first);
      }
    }
  }

  /** A series whose mean already is the reference is returned unchanged. */
  lemma CorrectOffsetAtReference(data: seq<real>, reference: real)
    requires |data| > 0 && Mean(data) == reference
    ensures CorrectOffset(data, reference) == data
  {
    assert CorrectOffset(data, reference) == Shift(data, 0.0);
  }

  // ---------------------------------------------------------------------
  // Amplitude, peak-to-peak, high/low

  /** `calculate_amplitude`: half the distance between the extremes. */
  function Amplitude(s: seq<real>): real
    requires |s| > 0
  {
    (Max(s) - Min(s)) / 2.0
  }

  /** `calculate_peak_to_peak`. */
  function PeakToPeak(s: seq<real>): real
    requires |s| > 0
  {
    Max(s) - Min(s)
  }

  /** `calculate_high_low`: the pair (high, low). */
  function HighLow(s: seq<real>): (real, real)
    requires |s| > 0
  {
    (Max(s), Min(s))
  }

  /** How the statistics of one series relate to one another. */
  lemma StatsAgree(s: seq<real>)
    requires |s| > 0
    ensures PeakToPeak(s) == HighLow(s).0 - HighLow(s).1 == 2.0 * Amplitude(s)
    ensures PeakToPeak(s) >= 0.0 && Amplitude(s) >= 0.0
    ensures HighLow(s).1 <= Mean(s) <= HighLow(s).0
  {
    MeanWithinRange(s);
  }

  /** Offset correction moves the trace but leaves its swing alone. */
  lemma SwingUnchangedByCorrection(s: seq<real>, reference: real)
    requires |s| > 0
    ensures PeakToPeak(CorrectOffset(s, reference)) == PeakToPeak(s)
    ensures Amplitude(CorrectOffset(s, reference)) == Amplitude(s)
  {
    var offset := Mean(s) - reference;
    assert CorrectOffset(s, reference) == Shift(s, offset);
    MaxShift(s, offset);
    MinShift(s, offset);
  }

  /** The values listed for the series 1..5. */
  lemma StatsOfOneToFive()
    ensures Mean([1.0, 2.0, 3.0, 4.0, 5.0]) == 3.0
    ensures HighLow([1.0, 2.0, 3.0, 4.0, 5.0]) == (5.0, 1.0)
    ensures PeakToPeak([1.0, 2.0, 3.0, 4.0, 5.0]) == 4.0
    ensures Amplitude([1.0, 2.0, 3.0, 4.0, 5.0]) == 2.0
  {
  }
}
