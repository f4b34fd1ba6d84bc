/** The bootstrap illustration of the central limit theorem: `CLTStatisticsCalculator`
    draws `n` samples of size `k` from the data of a `StatisticsCalculator`, and
    publishes their means, the mean of those means and the standard error.

    `randomElement()` is replaced by a supplied choice: `draw(t, j)` is the index,
    reduced modulo the data's count, of the element that task `t` picks on its
    `j`-th draw. Every sequence of random outcomes is one such choice. */
module CentralLimit {
  import opened SeqMath
  import opened Statistics

  /** `sample(from:size:)`: the data itself when it has fewer than `size` values;
      otherwise `size` values picked, with replacement, by `pick`. */
  function Sample(data: seq<real>, size: nat, pick: nat -> nat): (r: seq<real>)
    ensures size > |data| ==> r == data
    ensures size <= |data| ==> |r| == size
    ensures forall i :: 0 <= i < |r| ==> r[i] in data
  {
    if size > |data| then data
    else seq(size, j requires 0 <= j < size => data[pick(j) % |data|])
  }

  /** Every sample drawn from non-empty data, with a positive size, is non-empty. */
  lemma SampleNonEmpty(data: seq<real>, size: nat, pick: nat -> nat)
    requires data != [] && 0 < size
    ensures Sample(data, size, pick) != []
  {
    var s := Sample(data, size, pick);
    assert |s| == size || s == data;
  }

  /** The choices of task `t`: its `j`-th `randomElement()` picks index `draw(t, j)`. */
  function TaskDraws(draw: (nat, nat) -> nat, t: nat): nat -> nat
  {
    j => draw(t, j)
  }

  /** The `sample.reduce(0, +) / Double(sample.count)` of task `t`. */
  function SampleMean(data: seq<real>, size: nat, draw: (nat, nat) -> nat, t: nat): (r: real)
    requires data != [] && 0 < size
    ensures Min(data) <= r <= Max(data)
  {
    var s := Sample(data, size, TaskDraws(draw, t));
    SampleNonEmpty(data, size, TaskDraws(draw, t));
    MeanBounds(s);
    MinMaxOfSubset(data, s);
    Mean(s)
  }

  /** The means of tasks `0 .. count - 1`, in task order. The task group appends
      results in completion order; since any task may draw any values, every
      completion order is covered by renumbering the tasks in `draw`. */
  function SampleMeans(data: seq<real>, count: nat, size: nat, draw: (nat, nat) -> nat): (r: seq<real>)
    requires data != [] && 0 < size
    ensures |r| == count
    ensures forall i :: 0 <= i < count ==> r[i] == SampleMean(data, size, draw, i)
    ensures forall i :: 0 <= i < count ==> Min(data) <= r[i] <= Max(data)
  {
    if count == 0 then []
    else SampleMeans(data, count - 1, size, draw) + [SampleMean(data, size, draw, count - 1)]
  }

  /** `stdDevOfMeans / sqrt(Double(k))`, stated without the square roots: it is
      the non-negative number whose square times `k` is the variance of the means. */
  predicate IsStandardError(se: real, varianceOfMeans: real, k: nat)
  {
    0.0 <= se && se * se * (k as real) == varianceOfMeans
  }

  /** What a run that passes the guard publishes, for data, `n` and `k`. */
  ghost predicate IsRunOf(data: seq<real>, n: int, k: int, draw: (nat, nat) -> nat,
                          sampleMeans: seq<real>, standardError: real, meanOfMeans: real)
    requires data != [] && 0 < n && 0 < k
  {
    sampleMeans == SampleMeans(data, n, k, draw)
    && meanOfMeans == Mean(sampleMeans)
    && IsStandardError(standardError, Variance(sampleMeans, Some(meanOfMeans)), k)
  }

  /** Dividing the square root of `v` by the square root of `k` gives the number
      whose square times `k` is `v`. */
  lemma QuotientOfRoots(a: real, b: real, v: real, k: real, se: real)
    requires IsSquareRoot(a, v) && IsSquareRoot(b, k) && 0.0 < k
    requires se == a / b
    ensures 0.0 <= se && se * se * k == v
  {
    assert b != 0.0;
    assert 0.0 < b;
    assert se * b == a;
    QuotientAtLeast(a, b, 0.0);
    assert se * se * k == (se * b) * (se * b);
  }

  /** `sqrt(v) / sqrt(Double(k))` is the standard error for the variance `v`. */
  lemma RootQuotientIsStandardError(sqrt: real -> real, v: real, k: nat)
    requires IsSqrt(sqrt) && 0.0 <= v && 0 < k
    ensures IsStandardError(sqrt(v) / sqrt(k as real), v, k)
  {
    QuotientOfRoots(sqrt(v), sqrt(k as real), v, k as real, sqrt(v) / sqrt(k as real));
  }

  /** The mean of the sample means lies within the range of the data. */
  lemma MeanOfMeansWithinData(data: seq<real>, n: nat, k: nat, draw: (nat, nat) -> nat)
    requires data != [] && 0 < n && 0 < k
    ensures Min(data) <= Mean(SampleMeans(data, n, k, draw)) <= Max(data)
  {
    var means := SampleMeans(data, n, k, draw);
    MeanBounds(means);
    MinMaxWithin(means, Min(data), Max(data));
  }

  /** With a sample size above the data's count every "sample" is the whole data:
      every sample mean, and so the mean of means, is the data's mean. */
  lemma OversizedSampleMeans(data: seq<real>, n: nat, k: nat, draw: (nat, nat) -> nat)
    requires data != [] && 0 < n && |data| < k
    ensures forall i :: 0 <= i < n ==> SampleMeans(data, n, k, draw)[i] == Mean(data)
    ensures Mean(SampleMeans(data, n, k, draw)) == Mean(data)
  {
    var means := SampleMeans(data, n, k, draw);
    forall i | 0 <= i < n
      ensures means[i] == Mean(data)
    {
      assert Sample(data, k, TaskDraws(draw, i)) == data;
    }
    MeanOfConstant(means, Mean(data));
  }

  /** ... and the variance of the means, hence the standard error, is 0. */
  lemma OversizedSampleHasNoError(data: seq<real>, n: nat, k: nat, draw: (nat, nat) -> nat, standardError: real)
    requires data != [] && 0 < n && |data| < k
    requires IsStandardError(standardError, Variance(SampleMeans(data, n, k, draw), Some(Mean(SampleMeans(data, n, k, draw)))), k)
    ensures standardError == 0.0
  {
    var means := SampleMeans(data, n, k, draw);
    OversizedSampleMeans(data, n, k, draw);
    VarianceOfConstant(means, Mean(data));
    NoErrorWithoutVariance(standardError, Variance(means, Some(Mean(data))), k);
  }

  lemma {:induction false} SumOfConstant(s: seq<real>, c: real)
    requires forall i :: 0 <= i < |s| ==> s[i] == c
    ensures Sum(s) == (|s| as real) * c
  {
    if s != [] {
      var t := s[..|s| - 1];
      SumOfConstant(t, c);
      assert (|s| as real) * c == (|t| as real) * c + c;
    }
  }

  lemma MeanOfConstant(s: seq<real>, c: real)
    requires s != [] && forall i :: 0 <= i < |s| ==> s[i] == c
    ensures Mean(s) == c
  {
    SumOfConstant(s, c);
  }

  lemma {:induction false} SumSquaredDeviationsOfConstant(s: seq<real>, c: real)
    requires forall i :: 0 <= i < |s| ==> s[i] == c
    ensures SumSquaredDeviations(s, c) == 0.0
  {
    if s != [] {
      SumSquaredDeviationsOfConstant(s[..|s| - 1], c);
    }
  }

  /** Values that all equal `c` do not vary around `c`. */
  lemma VarianceOfConstant(s: seq<real>, c: real)
    requires s != [] && forall i :: 0 <= i < |s| ==> s[i] == c
    ensures Variance(s, Some(c)) == 0.0
  {
    SumSquaredDeviationsOfConstant(s, c);
    CountTimesVariance(s, c);
    ZeroFactor(|s| as real, Variance(s, Some(c)));
  }

  lemma ZeroFactor(n: real, v: real)
    requires 0.0 < n && n * v == 0.0
    ensures v == 0.0
  {
  }

  lemma NoErrorWithoutVariance(se: real, v: real, k: nat)
    requires 0 < k && v == 0.0 && IsStandardError(se, v, k)
    ensures se == 0.0
  {
    MultiplyStrict(0.0, se);
  }

  /** The task group: task `t` samples with its own draws and contributes the
      sample's mean to `means`. */
  method CollectSampleMeans(data: seq<real>, n: nat, k: nat, draw: (nat, nat) -> nat) returns (means: seq<real>)
    requires data != [] && 0 < k
    ensures means == SampleMeans(data, n, k, draw)
  {
    means := [];
    for t := 0 to n
      invariant means == SampleMeans(data, t, k, draw)
    {
      var sample := Sample(data, k, TaskDraws(draw, t));
      SampleNonEmpty(data, k, TaskDraws(draw, t));
      means := means + [Mean(sample)];
    }
  }

  /** The body of a run past the guard: `n` tasks each append the mean of one
      sample to `means`, then the means are aggregated into their mean, their
      population variance and the standard error `sqrt(variance) / sqrt(k)`. */
  method SampleAndAggregate(data: seq<real>, n: nat, k: nat, draw: (nat, nat) -> nat, sqrt: real -> real)
    returns (means: seq<real>, standardError: real, meanOfMeans: real)
    requires data != [] && 0 < n && 0 < k
    requires IsSqrt(sqrt)
    ensures IsRunOf(data, n, k, draw, means, standardError, meanOfMeans)
  {
    means := CollectSampleMeans(data, n, k, draw);
    meanOfMeans := Mean(means);
    var varianceOfMeans := Variance(means, Some(meanOfMeans));
    VarianceNonNegative(means, Some(meanOfMeans));
    standardError := StandardErrorOf(varianceOfMeans, k, sqrt);
  }

  /** The standard deviation of the sample means, `sqrt(variance)`, divided by
      `sqrt(Double(k))`. */
  method StandardErrorOf(varianceOfMeans: real, k: nat, sqrt: real -> real) returns (standardError: real)
    requires 0.0 <= varianceOfMeans && 0 < k
    requires IsSqrt(sqrt)
    ensures IsStandardError(standardError, varianceOfMeans, k)
  {
    var stdDevOfMeans := sqrt(varianceOfMeans);
    var rootK := sqrt(k as real);
    standardError := stdDevOfMeans / rootK;
    RootQuotientIsStandardError(sqrt, varianceOfMeans, k);
  }

  class CLTStatisticsCalculator {
    const statisticsCalculator: StatisticsCalculator
    var sampleMeans: seq<real>
    var standardError: real
    var n: int
    var k: int
    var meanOfMeans: real

    /** `init(statisticsCalculator:n:k:)`: stores the parameters and runs once. */
    constructor (statisticsCalculator: StatisticsCalculator, n: int, k: int, draw: (nat, nat) -> nat)
      requires IsSqrt(statisticsCalculator.sqrt)
      ensures this.statisticsCalculator == statisticsCalculator && this.n == n && this.k == k
      ensures Published(draw, 0.0)
    {
      this.statisticsCalculator := statisticsCalculator;
      this.n := n;
      this.k := k;
      sampleMeans, standardError, meanOfMeans := [], 0.0, 0.0;
      new;
      CalculateCentralLimitTheorem(draw);
    }

    /** The published fields after a run whose previous `meanOfMeans` was
        `previousMeanOfMeans`: the guard's neutral values, or the run's results. */
    ghost predicate Published(draw: (nat, nat) -> nat, previousMeanOfMeans: real)
      reads this, statisticsCalculator
    {
      var data := statisticsCalculator.data;
      if data == [] || n <= 0 || k <= 0 then
        sampleMeans == [] && standardError == 0.0 && meanOfMeans == previousMeanOfMeans
      else
        IsRunOf(data, n, k, draw, sampleMeans, standardError, meanOfMeans)
    }

    /** `updateParameters(n:k:)`: stores the new parameters, then reruns with them. */
    method UpdateParameters(n: int, k: int, draw: (nat, nat) -> nat)
      requires IsSqrt(statisticsCalculator.sqrt)
      modifies this
      ensures this.n == n && this.k == k
      ensures Published(draw, old(meanOfMeans))
    {
      this.n := n;
      this.k := k;
      CalculateCentralLimitTheorem(draw);
    }

    /** `calculateCentralLimitTheorem`: the guard, the `n` sampling tasks, and the
        aggregation into mean of means, variance of means and standard error,
        published together. The calculator's data is only read. */
    method CalculateCentralLimitTheorem(draw: (nat, nat) -> nat)
      requires IsSqrt(statisticsCalculator.sqrt)
      modifies this`sampleMeans, this`standardError, this`meanOfMeans
      ensures Published(draw, old(meanOfMeans))
    {
      var data := statisticsCalculator.data;
      if data == [] || n <= 0 || k <= 0 {
        sampleMeans := [];
        standardError := 0.0;
        return;
      }
      var means, se, meanValue := SampleAndAggregate(data, n, k, draw, statisticsCalculator.sqrt);
      sampleMeans := means;
      standardError := se;
      meanOfMeans := meanValue;
    }
  }
}
