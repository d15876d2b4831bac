/**
 * The zero-crossing frequency estimate `calculate_frequency`: remove the
 * mean, find the indices where the sign changes between neighbours (a sign
 * of 0 is a sign of its own), and return the reciprocal of the mean spacing
 * of those indices, measured in seconds at a fixed sampling rate.
 */
module ZeroCrossing {
  import opened Stats

  /** `np.sign`. */
  function Sign(v: real): int
  {
    if v > 0.0 then 1 else if v < 0.0 then -1 else 0
  }

  /** True when `d` changes sign between index `n` and index `n + 1`. */
  predicate ChangesSign(d: seq<real>, n: nat)
  {
    n + 1 < |d| && Sign(d[n]) != Sign(d[n + 1])
  }

  /** The sign-change indices from `from` on, in increasing order. */
  function CrossingsFrom(d: seq<real>, from: nat): (z: seq<nat>)
    ensures forall j :: 0 <= j < |z| ==> from <= z[j] && z[j] + 1 < |d|
    ensures forall j, k :: 0 <= j < k < |z| ==> z[j] < z[k]
    ensures forall n: nat :: n in z <==> from <= n && ChangesSign(d, n)
    decreases |d| - from
  {
    if from + 1 >= |d| then []
    else if ChangesSign(d, from) then [from] + CrossingsFrom(d, from + 1)
    else CrossingsFrom(d, from + 1)
  }

  /** `np.where(np.diff(np.sign(d)))[0]`: every sign-change index, ascending. */
  function Crossings(d: seq<real>): (z: seq<nat>)
    ensures forall j, k :: 0 <= j < k < |z| ==> z[j] < z[k]
    ensures forall n: nat :: n in z <==> ChangesSign(d, n)
  {
    CrossingsFrom(d, 0)
  }

  /** `np.diff(z) / sampling_rate`: the spacing of the crossings in seconds. */
  function Periods(z: seq<nat>, samplingRate: real): (p: seq<real>)
    requires samplingRate > 0.0
    ensures |z| > 0 ==> |p| == |z| - 1
  {
    if z == [] then []
    else seq(|z| - 1, j requires 0 <= j < |z| - 1 => (z[j + 1] as real - z[j] as real) / samplingRate)
  }

  /** `calculate_frequency(data, sampling_rate)`, with its guards as written. */
  function Frequency(data: seq<real>, samplingRate: real := 29.0): real
    requires samplingRate > 0.0
  {
    EstimateFrom(Crossings(CorrectOffset(data, 0.0)), samplingRate)
  }

  /** The part of `calculate_frequency` after the crossings are found. */
  function EstimateFrom(z: seq<nat>, samplingRate: real): real
    requires samplingRate > 0.0
  {
    if |z| < 2 then 0.0
    else
      var periods := Periods(z, samplingRate);
      if |periods| == 0 then 0.0
      else
        var avg := Mean(periods);
        if avg == 0.0 then 0.0 else 1.0 / avg
  }

  /** The distance, in samples, from the first to the last crossing. */
  function Span(z: seq<nat>): real
    requires |z| > 0
  {
    z[|z| - 1] as real - z[0] as real
  }

  // ---------------------------------------------------------------------
  // Proofs

  /** The spacings after the first are the spacings of the crossings after the first. */
  lemma PeriodsTail(z: seq<nat>, samplingRate: real)
    requires samplingRate > 0.0 && |z| > 1
    ensures Periods(z, samplingRate)[0] == (z[1] as real - z[0] as real) / samplingRate
    ensures Periods(z, samplingRate)[1..] == Periods(z[1..], samplingRate)
  {
    var p := Periods(z, samplingRate);
    var q := Periods(z[1..], samplingRate);
    forall j | 0 <= j < |q| ensures p[j + 1] == q[j] {
      assert z[1..][j] == z[j + 1] && z[1..][j + 1] == z[j + 2];
    }
  }

  /** The spacings telescope: together they span the first to the last crossing. */
  lemma {:induction false} SumPeriods(z: seq<nat>, samplingRate: real)
    requires samplingRate > 0.0 && |z| > 0
    ensures Sum(Periods(z, samplingRate)) == Span(z) / samplingRate
    decreases |z|
  {
    if |z| > 1 {
      var p := Periods(z, samplingRate);
      var first := z[1] as real - z[0] as real;
      var rest := Span(z[1..]);
      PeriodsTail(z, samplingRate);
      SumPeriods(z[1..], samplingRate);
      assert Sum(p) == first / samplingRate + rest / samplingRate;
      AddQuotients(first, rest, samplingRate);
    } else {
      assert Periods(z, samplingRate) == [];
    }
  }

  lemma AddQuotients(a: real, b: real, c: real)
    requires c > 0.0
    ensures a / c + b / c == (a + b) / c
  {
  }

  lemma ReciprocalOfMeanSpacing(span: real, rate: real, gaps: real)
    requires span > 0.0 && rate > 0.0 && gaps > 0.0
    ensures span / rate / gaps > 0.0
    ensures 1.0 / (span / rate / gaps) == rate * gaps / span
  {
    var avg := span / rate / gaps;
    assert avg == span / (rate * gaps);
  }

  /** The mean spacing of two or more crossings is positive, and its reciprocal is gaps over span. */
  lemma AveragePeriod(z: seq<nat>, samplingRate: real)
    requires samplingRate > 0.0 && |z| >= 2
    requires forall a, b :: 0 <= a < b < |z| ==> z[a] < z[b]
    ensures Mean(Periods(z, samplingRate)) > 0.0
    ensures Span(z) > 0.0
    ensures 1.0 / Mean(Periods(z, samplingRate)) == samplingRate * ((|z| - 1) as real) / Span(z)
  {
    var p := Periods(z, samplingRate);
    SumPeriods(z, samplingRate);
    assert Span(z) > 0.0;
    assert Mean(p) == Span(z) / samplingRate / ((|z| - 1) as real);
    ReciprocalOfMeanSpacing(Span(z), samplingRate, (|z| - 1) as real);
  }

  /**
   * With two or more crossings the spacings are positive, so the guards
   * `len(periods) == 0` and `avg_period == 0` are never taken, and the
   * estimate is the number of gaps over the span between the outer crossings.
   */
  lemma EstimateClosedForm(z: seq<nat>, samplingRate: real)
    requires samplingRate > 0.0
    requires forall a, b :: 0 <= a < b < |z| ==> z[a] < z[b]
    ensures |z| < 2 ==> EstimateFrom(z, samplingRate) == 0.0
    ensures |z| >= 2 ==>
      && |Periods(z, samplingRate)| > 0
      && Mean(Periods(z, samplingRate)) > 0.0
      && Span(z) > 0.0
      && EstimateFrom(z, samplingRate) == samplingRate * ((|z| - 1) as real) / Span(z)
  {
    if |z| >= 2 {
      var p := Periods(z, samplingRate);
      assert |p| == |z| - 1;
      AveragePeriod(z, samplingRate);
      assert EstimateFrom(z, samplingRate) == 1.0 / Mean(p);
    }
  }

  /** Consecutive crossings are at least one sample, so 1/samplingRate seconds, apart. */
  lemma PeriodsAtLeastOneSample(z: seq<nat>, samplingRate: real)
    requires samplingRate > 0.0
    requires forall a, b :: 0 <= a < b < |z| ==> z[a] < z[b]
    ensures forall j :: 0 <= j < |Periods(z, samplingRate)| ==> Periods(z, samplingRate)[j] >= 1.0 / samplingRate
  {
    var p := Periods(z, samplingRate);
    forall j | 0 <= j < |p| ensures p[j] >= 1.0 / samplingRate {
      assert z[j] < z[j + 1];
      DivideMonotone(z[j + 1] as real - z[j] as real, 1.0, samplingRate);
    }
  }

  lemma DivideMonotone(a: real, b: real, c: real)
    requires a >= b && c > 0.0
    ensures a / c >= b / c
  {
    assert a / c - b / c == (a - b) / c;
  }

  lemma ReciprocalBounds(avg: real, rate: real)
    requires rate > 0.0 && avg >= 1.0 / rate
    ensures 0.0 < 1.0 / avg <= rate
  {
    assert avg * rate >= 1.0;
  }

  /** The estimate never exceeds the sampling rate, and is non-zero exactly when two crossings exist. */
  lemma EstimateBounds(z: seq<nat>, samplingRate: real)
    requires samplingRate > 0.0
    requires forall a, b :: 0 <= a < b < |z| ==> z[a] < z[b]
    ensures 0.0 <= EstimateFrom(z, samplingRate) <= samplingRate
    ensures EstimateFrom(z, samplingRate) > 0.0 <==> |z| >= 2
  {
    if |z| >= 2 {
      var p := Periods(z, samplingRate);
      PeriodsAtLeastOneSample(z, samplingRate);
      MeanAtLeast(p, 1.0 / samplingRate);
      ReciprocalBounds(Mean(p), samplingRate);
    }
  }

  /** Removing the mean first, as the offset corrector does, changes no estimate. */
  lemma FrequencyUnchangedByCorrection(data: seq<real>, reference: real, samplingRate: real)
    requires samplingRate > 0.0
    ensures Frequency(CorrectOffset(data, reference), samplingRate) == Frequency(data, samplingRate)
  {
    CorrectOffsetTwice(data, reference, 0.0);
  }

  /** The estimate never exceeds the sampling rate. */
  lemma FrequencyBounds(data: seq<real>, samplingRate: real)
    requires samplingRate > 0.0
    ensures 0.0 <= Frequency(data, samplingRate) <= samplingRate
  {
    EstimateBounds(Crossings(CorrectOffset(data, 0.0)), samplingRate);
  }

  /** The estimate is non-zero exactly when the centred series changes sign at two places. */
  lemma FrequencyPositiveIffTwoCrossings(data: seq<real>, samplingRate: real)
    requires samplingRate > 0.0
    ensures Frequency(data, samplingRate) > 0.0 <==>
      exists n: nat, m: nat :: n < m && ChangesSign(CorrectOffset(data, 0.0), n) && ChangesSign(CorrectOffset(data, 0.0), m)
  {
    var c := CorrectOffset(data, 0.0);
    var z := Crossings(c);
    EstimateBounds(z, samplingRate);
    if |z| >= 2 {
      assert z[0] in z && z[1] in z;
      assert ChangesSign(c, z[0]) && ChangesSign(c, z[1]);
    } else {
      forall n: nat, m: nat | n < m && ChangesSign(c, n)
        ensures !ChangesSign(c, m)
      {
        if ChangesSign(c, m) {
          assert false;
        }
      }
    }
  }

  lemma ReciprocalOfRatio(a: real, b: real)
    requires a > 0.0 && b > 0.0
    ensures a / b > 0.0 && 1.0 / (a / b) == b / a
  {
  }

  /**
   * Crossings `spacing` samples apart give `samplingRate / spacing`.  A
   * signal whose sign flips every `spacing` samples has a period of twice
   * that, so the estimate is twice the signal's frequency.
   */
  lemma EvenlySpacedCrossings(z: seq<nat>, samplingRate: real, spacing: nat)
    requires samplingRate > 0.0 && |z| >= 2 && spacing > 0
    requires forall j :: 0 <= j < |z| - 1 ==> z[j + 1] == z[j] + spacing
    ensures EstimateFrom(z, samplingRate) == samplingRate / (spacing as real)
  {
    var p := Periods(z, samplingRate);
    var gap := (spacing as real) / samplingRate;
    forall j | 0 <= j < |p|
      ensures gap <= p[j] <= gap
    {
      assert p[j] == (z[j + 1] as real - z[j] as real) / samplingRate;
    }
    MeanBetween(p, gap, gap);
    ReciprocalOfRatio(spacing as real, samplingRate);
  }

  /**
   * A sample that sits exactly on the mean counts as a crossing on both of
   * its sides: the monotone series 1, 2, 3 reports the full sampling rate.
   */
  lemma SampleOnTheMeanCountsTwice()
    ensures Frequency([1.0, 2.0, 3.0]) == 29.0
  {
    var d := [1.0, 2.0, 3.0];
    assert Sum(d) == 6.0;
    assert CorrectOffset(d, 0.0) == [-1.0, 0.0, 1.0] by {
      assert CorrectOffset(d, 0.0) == Shift(d, 2.0);
    }
    var c := [-1.0, 0.0, 1.0];
    assert Crossings(c) == [0, 1] by {
      assert CrossingsFrom(c, 2) == [];
      assert CrossingsFrom(c, 1) == [1];
    }
    assert Periods([0, 1], 29.0) == [1.0 / 29.0];
    MeanOfOne(1.0 / 29.0);
  }
}
