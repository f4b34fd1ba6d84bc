/** The non-drawing logic of `HistogramView`: binning the calculator's data into
    half-open bins `[v, v + binStep)` for `v` striding from `binStart` through
    `binEnd`, colouring a bin by its distance from the mean, and fitting the bin
    range to the data. */
module Histogram {
  import opened SeqMath
  import opened Statistics

  /** One entry of `frequencies`: the bin's lower edge and how many values fall in it. */
  datatype Bin = Bin(bin: real, count: nat)

  datatype Color = Green | Blue | Red | Yellow | Gray

  // ---------------------------------------------------------------------------
  // Binning

  /** `data.filter { $0 >= lo && $0 < hi }.count`. */
  function CountInRange(data: seq<real>, lo: real, hi: real): (r: nat)
    ensures r <= |data|
  {
    if data == [] then 0
    else CountInRange(data[..|data| - 1], lo, hi) + (if lo <= data[|data| - 1] < hi then 1 else 0)
  }

  /** The count is 0 exactly when no value lies in `[lo, hi)`. */
  lemma {:induction false} CountInRangeZero(data: seq<real>, lo: real, hi: real)
    ensures CountInRange(data, lo, hi) == 0 <==> forall i :: 0 <= i < |data| ==> !(lo <= data[i] < hi)
  {
    if data != [] {
      var front := data[..|data| - 1];
      CountInRangeZero(front, lo, hi);
      assert forall i :: 0 <= i < |front| ==> front[i] == data[i];
    }
  }

  /** `v` has not passed `end` in the direction of `step`: the condition under
      which `stride(from:through:by:)` yields `v`. */
  predicate NotPast(v: real, end: real, step: real)
  {
    if 0.0 < step then v <= end else end <= v
  }

  /** How many values `stride(from: start, through: end, by: step)` yields. Swift
      computes the i-th value as `start + i * step` and stops at the first one
      past `end`; a zero step is a runtime trap. */
  function BinCount(start: real, end: real, step: real): nat
    requires step != 0.0
  {
    var q := (end - start) / step;
    if q < 0.0 then 0 else q.Floor + 1
  }

  /** The values of `stride(from: start, through: end, by: step)`. */
  function Stride(start: real, end: real, step: real): (r: seq<real>)
    requires step != 0.0
    ensures |r| == BinCount(start, end, step)
  {
    seq(BinCount(start, end, step), i => start + (i as real) * step)
  }

  /** The stride yields exactly the values `start + i * step` that have not passed
      `end`: every value it yields is on the near side of `end`, and the next one
      would not be. */
  lemma StrideStopsAtEnd(start: real, end: real, step: real)
    requires step != 0.0
    ensures forall i :: 0 <= i < |Stride(start, end, step)| ==> NotPast(Stride(start, end, step)[i], end, step)
    ensures !NotPast(start + (BinCount(start, end, step) as real) * step, end, step)
  {
    var s := Stride(start, end, step);
    forall i | 0 <= i < |s|
      ensures NotPast(s[i], end, step)
    {
      StrideIndex(start, end, step, i);
    }
    StrideIndex(start, end, step, BinCount(start, end, step));
  }

  /** Index `i` is within the stride exactly when `start + i * step` has not passed `end`. */
  lemma StrideIndex(start: real, end: real, step: real, i: nat)
    requires step != 0.0
    ensures i < BinCount(start, end, step) <==> NotPast(start + (i as real) * step, end, step)
  {
    var q := (end - start) / step;
    QuotientTimes(end - start, step);
    QuotientTimesNegative(end - start, step);
    FloorBound(i, q);
    ScaleCompare(i as real, q, step);
  }

  lemma QuotientTimesNegative(s: real, n: real)
    ensures n < 0.0 ==> n * (s / n) == s
  {
  }

  /** An integer is at most `q` exactly when it is at most `q`'s floor. */
  lemma FloorBound(i: int, q: real)
    ensures (i as real) <= q <==> i <= q.Floor
  {
  }

  /** Multiplying by a positive number keeps the order; by a negative one reverses it. */
  lemma ScaleCompare(x: real, y: real, s: real)
    ensures 0.0 < s ==> (x <= y <==> x * s <= y * s)
    ensures s < 0.0 ==> (x <= y <==> y * s <= x * s)
  {
    if 0.0 < s {
      ScaleMonotone(x, y, s);
      ScaleMonotone(y, x, s);
    } else if s < 0.0 {
      ScaleMonotone(x, y, -s);
      ScaleMonotone(y, x, -s);
    }
  }

  lemma ScaleMonotone(x: real, y: real, s: real)
    requires 0.0 < s
    ensures x < y ==> x * s < y * s
  {
    if x < y {
      assert y * s - x * s == (y - x) * s;
    }
  }

  /** Each bin starts at least one step after the previous one. */
  predicate Spaced(bins: seq<real>, step: real)
  {
    forall i, j :: 0 <= i < j < |bins| ==> bins[i] + step <= bins[j]
  }

  /** With a positive step the stride's values increase by at least a step at a time. */
  lemma StrideSpaced(start: real, end: real, step: real)
    requires 0.0 < step
    ensures Spaced(Stride(start, end, step), step)
  {
    var s := Stride(start, end, step);
    forall i, j | 0 <= i < j < |s|
      ensures s[i] + step <= s[j]
    {
      StepApart(s[i], s[j], start, i as real, j as real, step);
    }
  }

  lemma StepApart(vi: real, vj: real, start: real, i: real, j: real, step: real)
    requires 0.0 < step && i + 1.0 <= j
    requires vi == start + i * step && vj == start + j * step
    ensures vi + step <= vj
  {
    var d := j - i - 1.0;
    assert 0.0 <= d * step;
    assert j * step == i * step + step + d * step;
  }

  /** A start past the end, in the direction of the step, yields no bins. */
  lemma NoBinsWhenStartPastEnd(start: real, end: real, step: real)
    requires step != 0.0
    requires !NotPast(start, end, step)
    ensures Stride(start, end, step) == []
  {
    StrideIndex(start, end, step, 0);
  }

  /** The frequency table built for `bins`: each bin with its count of values in
      `[bin, bin + step)`, in the order of the bins. */
  function Frequencies(bins: seq<real>, data: seq<real>, step: real): (r: seq<Bin>)
    ensures |r| == |bins|
    ensures forall i :: 0 <= i < |bins| ==> r[i].bin == bins[i]
    ensures forall i :: 0 <= i < |bins| ==> r[i].count == CountInRange(data, bins[i], bins[i] + step)
  {
    if bins == [] then []
    else
      var b := bins[|bins| - 1];
      Frequencies(bins[..|bins| - 1], data, step) + [Bin(b, CountInRange(data, b, b + step))]
  }

  /** The table for one more bin is the table so far with that bin's entry appended. */
  lemma FrequenciesOfLongerPrefix(bins: seq<real>, i: nat, data: seq<real>, step: real)
    requires i < |bins|
    ensures Frequencies(bins[..i + 1], data, step)
         == Frequencies(bins[..i], data, step) + [Bin(bins[i], CountInRange(data, bins[i], bins[i] + step))]
  {
    assert bins[..i + 1][..i] == bins[..i];
  }

  /** The sum of the counts of a frequency table. */
  function TotalCount(frequencies: seq<Bin>): nat
  {
    if frequencies == [] then 0
    else TotalCount(frequencies[..|frequencies| - 1]) + frequencies[|frequencies| - 1].count
  }

  /** How many of the bins contain `x`. */
  function Hits(bins: seq<real>, x: real, step: real): nat
  {
    if bins == [] then 0
    else
      var b := bins[|bins| - 1];
      Hits(bins[..|bins| - 1], x, step) + (if b <= x < b + step then 1 else 0)
  }

  /** Adding one value to the data adds, to the table's total, the number of bins
      that contain it. */
  lemma {:induction false} TotalCountAppendValue(bins: seq<real>, data: seq<real>, x: real, step: real)
    ensures TotalCount(Frequencies(bins, data + [x], step))
         == TotalCount(Frequencies(bins, data, step)) + Hits(bins, x, step)
  {
    if bins != [] {
      var b := bins[|bins| - 1];
      var front := bins[..|bins| - 1];
      TotalCountAppendValue(front, data, x, step);
      assert (data + [x])[..|data + [x]| - 1] == data;
      assert Frequencies(bins, data, step)[..|bins| - 1] == Frequencies(front, data, step);
      assert Frequencies(bins, data + [x], step)[..|bins| - 1] == Frequencies(front, data + [x], step);
    }
  }

  /** No bin ending at or before `x` contains it. */
  lemma {:induction false} NoHitsBelow(bins: seq<real>, x: real, step: real)
    requires forall i :: 0 <= i < |bins| ==> bins[i] + step <= x
    ensures Hits(bins, x, step) == 0
  {
    if bins != [] {
      NoHitsBelow(bins[..|bins| - 1], x, step);
    }
  }

  /** Spaced bins are disjoint: a value lies in at most one of them. */
  lemma {:induction false} SpacedHitsAtMostOnce(bins: seq<real>, x: real, step: real)
    requires Spaced(bins, step)
    ensures Hits(bins, x, step) <= 1
  {
    if bins != [] {
      var b := bins[|bins| - 1];
      var front := bins[..|bins| - 1];
      if b <= x < b + step {
        assert forall i :: 0 <= i < |front| ==> front[i] + step <= x by {
          assert forall i :: 0 <= i < |front| ==> front[i] == bins[i];
        }
        NoHitsBelow(front, x, step);
      } else {
        assert Spaced(front, step);
        SpacedHitsAtMostOnce(front, x, step);
      }
    }
  }

  /** Over disjoint bins no value is counted twice, so the counts add up to at
      most the number of values. */
  lemma {:induction false} SpacedCountsAtMostData(bins: seq<real>, data: seq<real>, step: real)
    requires Spaced(bins, step)
    ensures TotalCount(Frequencies(bins, data, step)) <= |data|
  {
    if data == [] {
      NoValuesNoCounts(bins, step);
    } else {
      var front := data[..|data| - 1];
      assert data == front + [data[|data| - 1]];
      SpacedCountsAtMostData(bins, front, step);
      TotalCountAppendValue(bins, front, data[|data| - 1], step);
      SpacedHitsAtMostOnce(bins, data[|data| - 1], step);
    }
  }

  lemma {:induction false} NoValuesNoCounts(bins: seq<real>, step: real)
    ensures TotalCount(Frequencies(bins, [], step)) == 0
  {
    if bins != [] {
      NoValuesNoCounts(bins[..|bins| - 1], step);
      assert Frequencies(bins, [], step)[..|bins| - 1] == Frequencies(bins[..|bins| - 1], [], step);
    }
  }

  /** The table `calculateFrequencies` builds with a positive step counts no value twice. */
  lemma FrequencyTableCountsAtMostData(start: real, end: real, step: real, data: seq<real>)
    requires 0.0 < step
    ensures TotalCount(Frequencies(Stride(start, end, step), data, step)) <= |data|
  {
    StrideSpaced(start, end, step);
    SpacedCountsAtMostData(Stride(start, end, step), data, step);
  }

  /** A bin that contains `x` makes at least one hit. */
  lemma {:induction false} HitsAtLeastOne(bins: seq<real>, k: nat, x: real, step: real)
    requires k < |bins| && bins[k] <= x < bins[k] + step
    ensures 1 <= Hits(bins, x, step)
  {
    if k < |bins| - 1 {
      HitsAtLeastOne(bins[..|bins| - 1], k, x, step);
    }
  }

  /** The bin of index floor((x - start) / step) contains `x`. */
  lemma BinHoldsValue(start: real, step: real, x: real, q: real, i: int)
    requires 0.0 < step && q == (x - start) / step && i == q.Floor
    ensures start + (i as real) * step <= x < start + (i as real) * step + step
  {
    QuotientTimes(x - start, step);
    FloorTimesStep(i as real, q, step, x - start);
  }

  lemma FloorTimesStep(r: real, q: real, step: real, d: real)
    requires 0.0 < step && step * q == d && r <= q < r + 1.0
    ensures r * step <= d < r * step + step
  {
    FloorTimesStepBelow(r, q, step, d);
    FloorTimesStepAbove(r, q, step, d);
  }

  lemma FloorTimesStepBelow(r: real, q: real, step: real, d: real)
    requires 0.0 < step && step * q == d && r <= q
    ensures r * step <= d
  {
    assert q * step == d;
    ScaleCompare(r, q, step);
  }

  lemma FloorTimesStepAbove(r: real, q: real, step: real, d: real)
    requires 0.0 < step && step * q == d && q < r + 1.0
    ensures d < r * step + step
  {
    assert q * step == d;
    ScaleMonotone(q, r + 1.0, step);
    assert (r + 1.0) * step == r * step + step;
  }

  /** With a positive step, every value from `start` through `end` lies in exactly
      one bin of the stride. */
  lemma ValueInOneBin(start: real, end: real, step: real, x: real)
    requires 0.0 < step && start <= x <= end
    ensures Hits(Stride(start, end, step), x, step) == 1
  {
    var bins := Stride(start, end, step);
    var q := (x - start) / step;
    QuotientAtLeast(x - start, step, 0.0);
    var i := q.Floor;
    BinHoldsValue(start, step, x, q, i);
    StrideIndex(start, end, step, i);
    assert bins[i] == start + (i as real) * step;
    HitsAtLeastOne(bins, i, x, step);
    StrideSpaced(start, end, step);
    SpacedHitsAtMostOnce(bins, x, step);
  }

  /** When every value lies from `start` through `end` and the step is positive,
      the table counts every value exactly once. */
  lemma {:induction false} CountsCoverData(start: real, end: real, step: real, data: seq<real>)
    requires 0.0 < step
    requires forall i :: 0 <= i < |data| ==> start <= data[i] <= end
    ensures TotalCount(Frequencies(Stride(start, end, step), data, step)) == |data|
  {
    var bins := Stride(start, end, step);
    if data == [] {
      NoValuesNoCounts(bins, step);
    } else {
      var front := data[..|data| - 1];
      var x := data[|data| - 1];
      assert data == front + [x];
      CountsCoverData(start, end, step, front);
      TotalCountAppendValue(bins, front, x, step);
      ValueInOneBin(start, end, step, x);
    }
  }

  /** After `updateBinRange` on non-empty data, a positive step gives a table that
      counts every value exactly once. */
  lemma FittedRangeCountsEveryValue(data: seq<real>, step: real)
    requires data != [] && 0.0 < step
    ensures TotalCount(Frequencies(Stride(Min(data), Max(data), step), data, step)) == |data|
  {
    CountsCoverData(Min(data), Max(data), step, data);
  }

  // ---------------------------------------------------------------------------
  // Colouring

  function Abs(x: real): real
  {
    if x < 0.0 then -x else x
  }

  /** `colorForBin`: green for the bin range `mean...mean + binStep` holding the
      mean, which takes priority; otherwise the colour is fixed by the distance of
      the bin from the mean, in standard deviations: blue from 2 to 3, red from 1
      up to (not including) 2, yellow below 1 and gray beyond 3. Swift's closed
      ranges trap unless their bounds are ordered, hence the preconditions. */
  function ColorForBin(bin: real, mean: real, standardDeviation: real, binStep: real): (c: Color)
    requires 0.0 <= binStep && 0.0 <= standardDeviation
    ensures c == Green <==> mean <= bin <= mean + binStep
    ensures c == Blue <==> !(mean <= bin <= mean + binStep)
                           && 2.0 * standardDeviation <= Abs(bin - mean) <= 3.0 * standardDeviation
    ensures c == Red <==> !(mean <= bin <= mean + binStep)
                          && standardDeviation <= Abs(bin - mean) < 2.0 * standardDeviation
    ensures c == Yellow <==> !(mean <= bin <= mean + binStep) && Abs(bin - mean) < standardDeviation
    ensures c == Gray <==> !(mean <= bin <= mean + binStep) && 3.0 * standardDeviation < Abs(bin - mean)
  {
    var sd := standardDeviation;
    if mean <= bin <= mean + binStep then Green
    else if (mean - 3.0 * sd <= bin <= mean - 2.0 * sd) || (mean + 2.0 * sd <= bin <= mean + 3.0 * sd) then Blue
    else if (mean - 2.0 * sd <= bin <= mean - sd) || (mean + sd <= bin <= mean + 2.0 * sd) then Red
    else if bin >= mean - sd && bin < mean + sd then Yellow
    else Gray
  }

  /** A calculator that describes its data publishes a non-negative standard
      deviation, so colouring only needs a non-negative bin step. */
  lemma PublishedDeviationNonNegative(calculator: StatisticsCalculator)
    requires calculator.Valid()
    ensures 0.0 <= calculator.standardDeviation
  {
  }

  // ---------------------------------------------------------------------------
  // The view's state

  class HistogramView {
    const calculator: StatisticsCalculator
    var binStart: real
    var binEnd: real
    var binStep: real
    var frequencies: seq<Bin>

    /** The `@State` defaults: bins of width 0.5 from 0 through 10, no table yet. */
    constructor (calculator: StatisticsCalculator)
      ensures this.calculator == calculator
      ensures binStart == 0.0 && binEnd == 10.0 && binStep == 0.5 && frequencies == []
    {
      this.calculator := calculator;
      binStart := 0.0;
      binEnd := 10.0;
      binStep := 0.5;
      frequencies := [];
    }

    /** `calculateFrequencies`: clears the table, then appends one entry per value
        of the stride from `binStart` through `binEnd`. */
    method CalculateFrequencies()
      requires binStep != 0.0
      modifies this`frequencies
      ensures frequencies == Frequencies(Stride(binStart, binEnd, binStep), calculator.data, binStep)
    {
      frequencies := [];
      var data, step := calculator.data, binStep;
      var bins := Stride(binStart, binEnd, step);
      for i := 0 to |bins|
        invariant frequencies == Frequencies(bins[..i], data, step)
        invariant bins == Stride(binStart, binEnd, binStep) && data == calculator.data && step == binStep
      {
        var value := bins[i];
        var count := CountInRange(data, value, value + step);
        FrequenciesOfLongerPrefix(bins, i, data, step);
        frequencies := frequencies + [Bin(value, count)];
      }
      assert bins[..|bins|] == bins;
    }

    /** `updateBinRange`: for non-empty data the bins span its smallest to its
        largest value; for empty data the range is left as it is. */
    method UpdateBinRange()
      modifies this`binStart, this`binEnd
      ensures calculator.data == [] ==> binStart == old(binStart) && binEnd == old(binEnd)
      ensures calculator.data != [] ==> binStart == Min(calculator.data) && binEnd == Max(calculator.data)
    {
      if calculator.data == [] {
        return;
      }
      binStart := Min(calculator.data);
      binEnd := Max(calculator.data);
    }
  }
}
