/** The descriptive-statistics engine of ParaBulletStatKit: the `StatisticsCalculator`
    class, which republishes mean, mode, median, population variance and standard
    deviation whenever its `data` is assigned, and the calculations it runs. */
module Statistics {
  import opened SeqMath

  datatype Option<T> = None | Some(value: T)

  /** The law Foundation's `sqrt` obeys on non-negative arguments. The square root
      cannot be computed exactly over the reals, so the calculators are given a
      routine satisfying this law and every result involving it is stated squared. */
  ghost predicate IsSqrt(sqrt: real -> real)
  {
    forall x: real :: 0.0 <= x ==> IsSquareRoot(sqrt(x), x)
  }

  /** `r` is the non-negative square root of `x`. */
  predicate IsSquareRoot(r: real, x: real)
  {
    0.0 <= r && r * r == x
  }

  // ---------------------------------------------------------------------------
  // Mean

  /** `calculateMean`: the sum of the data divided by its count. The engine only
      calls it on non-empty data. */
  function Mean(data: seq<real>): real
    requires data != []
  {
    Sum(data) / (|data| as real)
  }

  /** The mean lies between the smallest and the largest value. */
  lemma MeanBounds(data: seq<real>)
    requires data != []
    ensures Min(data) <= Mean(data) <= Max(data)
  {
    MeanAtLeastMin(data);
    MeanAtMostMax(data);
  }

  lemma MeanAtLeastMin(data: seq<real>)
    requires data != []
    ensures Min(data) <= Mean(data)
  {
    SumAtLeast(data, Min(data));
    QuotientAtLeast(Sum(data), |data| as real, Min(data));
  }

  lemma MeanAtMostMax(data: seq<real>)
    requires data != []
    ensures Mean(data) <= Max(data)
  {
    SumAtMost(data, Max(data));
    QuotientAtMost(Sum(data), |data| as real, Max(data));
  }

  /** The count times the mean gives back the sum. */
  lemma CountTimesMean(data: seq<real>)
    requires data != []
    ensures Sum(data) == (|data| as real) * Mean(data)
  {
    QuotientTimes(Sum(data), |data| as real);
  }

  // ---------------------------------------------------------------------------
  // Mode

  /** The largest number of occurrences in `data` of any of the `keys`. */
  function MaxCountAmong(keys: seq<real>, data: seq<real>): (r: nat)
    ensures forall i :: 0 <= i < |keys| ==> multiset(data)[keys[i]] <= r
    ensures keys == [] ==> r == 0
    ensures keys != [] ==> exists i :: 0 <= i < |keys| && multiset(data)[keys[i]] == r
  {
    if keys == [] then 0
    else
      var rest := MaxCountAmong(keys[1..], data);
      var here := multiset(data)[keys[0]];
      assert forall i :: 1 <= i < |keys| ==> keys[i] == keys[1..][i - 1];
      if rest < here then here else rest
  }

  /** The highest frequency of any value in `data`, or 0 when it is empty. */
  function MaxFrequency(data: seq<real>): nat
  {
    MaxCountAmong(data, data)
  }

  predicate NoDuplicates(s: seq<real>)
  {
    forall i, j :: 0 <= i < j < |s| ==> s[i] != s[j]
  }

  /** `mode` lists, once each and in some order, exactly the values that occur in
      `data` with the highest frequency. */
  ghost predicate IsModeOf(mode: seq<real>, data: seq<real>)
  {
    NoDuplicates(mode) &&
    forall x :: x in mode <==> x in data && multiset(data)[x] == MaxFrequency(data)
  }

  /** `data.forEach { frequency[$0, default: 0] += 1 }`: the frequency dictionary. */
  method CountFrequencies(data: seq<real>) returns (frequency: map<real, nat>)
    ensures forall i :: 0 <= i < |data| ==> data[i] in frequency
    ensures forall x :: x in frequency ==> x in data
    ensures forall x :: x in frequency ==> frequency[x] == multiset(data)[x]
  {
    frequency := map[];
    for i := 0 to |data|
      invariant forall j :: 0 <= j < i ==> data[j] in frequency
      invariant forall x :: x in frequency ==> x in data[..i]
      invariant forall x :: x in frequency ==> frequency[x] == multiset(data[..i])[x]
    {
      var x := data[i];
      frequency := frequency[x := (if x in frequency then frequency[x] else 0) + 1];
      assert data[..i + 1] == data[..i] + [x];
    }
    assert data[..|data|] == data;
  }

  /** `frequency.values.max() ?? 0`: the largest count, or 0 for an empty dictionary. */
  method LargestCount(frequency: map<real, nat>) returns (maxFrequency: nat)
    ensures forall x :: x in frequency ==> frequency[x] <= maxFrequency
    ensures frequency == map[] ==> maxFrequency == 0
    ensures frequency != map[] ==> exists x :: x in frequency && frequency[x] == maxFrequency
  {
    maxFrequency := 0;
    var pending := frequency.Keys;
    while pending != {}
      invariant pending <= frequency.Keys
      invariant forall x :: x in frequency.Keys - pending ==> frequency[x] <= maxFrequency
      invariant pending == frequency.Keys ==> maxFrequency == 0
      invariant pending != frequency.Keys ==> exists x :: x in frequency.Keys - pending && frequency[x] == maxFrequency
      decreases pending
    {
      HasElement(pending);
      var x :| x in pending;
      if frequency[x] > maxFrequency {
        maxFrequency := frequency[x];
      }
      pending := pending - {x};
    }
    if frequency != map[] {
      assert frequency.Keys != {};
    }
  }

  /** `frequency.filter { $0.value == maxFrequency }.map { $0.key }`: the keys whose
      count is `maxFrequency`, once each, in the dictionary's unspecified order
      (modelled by choosing the next key arbitrarily). */
  method KeysWithCount(frequency: map<real, nat>, maxFrequency: nat) returns (keys: seq<real>)
    ensures NoDuplicates(keys)
    ensures forall x :: x in keys <==> x in frequency && frequency[x] == maxFrequency
  {
    keys := [];
    var pending := frequency.Keys;
    while pending != {}
      invariant pending <= frequency.Keys
      invariant NoDuplicates(keys)
      invariant forall x :: x in keys <==> x in frequency.Keys - pending && frequency[x] == maxFrequency
      decreases pending
    {
      HasElement(pending);
      var x :| x in pending;
      if frequency[x] == maxFrequency {
        keys := keys + [x];
      }
      pending := pending - {x};
    }
  }

  /** `calculateMode`: builds the frequency dictionary, takes the largest count and
      returns every value whose count reaches it. */
  method CalculateMode(data: seq<real>) returns (mode: seq<real>)
    ensures IsModeOf(mode, data)
    ensures data != [] ==> mode != []
  {
    var frequency := CountFrequencies(data);
    var maxFrequency := LargestCount(frequency);
    mode := KeysWithCount(frequency, maxFrequency);
    if data != [] {
      LargestCountIsMaxFrequency(data, frequency, maxFrequency);
      var i :| 0 <= i < |data| && multiset(data)[data[i]] == MaxFrequency(data);
      assert data[i] in data;
    } else {
      assert frequency == map[];
    }
  }

  /** The largest value of the frequency dictionary is the highest frequency. */
  lemma LargestCountIsMaxFrequency(data: seq<real>, frequency: map<real, nat>, maxFrequency: nat)
    requires data != []
    requires forall i :: 0 <= i < |data| ==> data[i] in frequency
    requires forall x :: x in frequency ==> x in data
    requires forall x :: x in frequency ==> frequency[x] == multiset(data)[x]
    requires forall x :: x in frequency ==> frequency[x] <= maxFrequency
    requires frequency != map[] ==> exists x :: x in frequency && frequency[x] == maxFrequency
    ensures maxFrequency == MaxFrequency(data)
  {
    var i :| 0 <= i < |data| && multiset(data)[data[i]] == MaxFrequency(data);
    var v := data[i];
    assert v in frequency;
    assert frequency[v] == MaxFrequency(data);
    var y :| y in frequency && frequency[y] == maxFrequency;
    assert y in data;
    var j :| 0 <= j < |data| && data[j] == y;
    assert multiset(data)[data[j]] <= MaxCountAmong(data, data);
  }

  /** A non-empty set has an element. */
  lemma HasElement(s: set<real>)
    ensures s != {} ==> exists y :: y in s
  {
    if forall y :: y !in s {
      assert s == {};
    }
  }

  /** A sequence without duplicates holds each of its values exactly once. */
  lemma {:induction false} NoDuplicatesCountsOne(s: seq<real>, x: real)
    requires NoDuplicates(s)
    ensures multiset(s)[x] == if x in s then 1 else 0
  {
    if s != [] {
      assert s == [s[0]] + s[1..];
      assert NoDuplicates(s[1..]);
      NoDuplicatesCountsOne(s[1..], x);
      assert s[0] !in s[1..];
    }
  }

  /** Two results that both satisfy the mode contract are the same values in
      possibly different orders: the mode is determined by the data up to the
      dictionary's ordering. */
  lemma ModeUniqueUpToOrder(data: seq<real>, m1: seq<real>, m2: seq<real>)
    requires IsModeOf(m1, data) && IsModeOf(m2, data)
    ensures multiset(m1) == multiset(m2)
  {
    forall x | true
      ensures multiset(m1)[x] == multiset(m2)[x]
    {
      NoDuplicatesCountsOne(m1, x);
      NoDuplicatesCountsOne(m2, x);
    }
  }

  // ---------------------------------------------------------------------------
  // Median

  /** `calculateMedian`: sorts the data, then takes the middle element for an odd
      count and the average of the two middle elements for an even count. An
      empty array would be indexed at -1, so the data must be non-empty. */
  function Median(data: seq<real>): real
    requires data != []
  {
    Middle(Sort(data))
  }

  /** The median of non-empty data lies between its minimum and its maximum. */
  lemma MedianWithinRange(data: seq<real>)
    requires data != []
    ensures Min(data) <= Median(data) <= Max(data)
  {
    var sortedData := Sort(data);
    forall i | 0 <= i < |sortedData|
      ensures Min(data) <= sortedData[i] <= Max(data)
    {
      assert sortedData[i] in multiset(data);
    }
  }

  /** The middle element of `s` for an odd count, the average of the two middle
      elements for an even count. */
  function Middle(s: seq<real>): real
    requires s != []
  {
    var n := |s|;
    if n % 2 == 0 then (s[n / 2 - 1] + s[n / 2]) / 2.0 else s[n / 2]
  }

  /** The median does not depend on the sorting routine: for every ascending
      arrangement `t` of the data it is the middle element of `t` (odd count) or
      the average of its two middle elements (even count). */
  lemma MedianOfAscendingArrangement(data: seq<real>, t: seq<real>)
    requires data != []
    requires IsSorted(t) && multiset(t) == multiset(data)
    ensures |t| == |data|
    ensures |t| % 2 == 1 ==> Median(data) == t[|t| / 2]
    ensures |t| % 2 == 0 ==> Median(data) == (t[|t| / 2 - 1] + t[|t| / 2]) / 2.0
  {
    SortedUnique(Sort(data), t);
    assert Median(data) == Middle(t);
  }

  // ---------------------------------------------------------------------------
  // Variance and standard deviation

  /** The sum of `pow(x - m, 2)` over the data, folded from the left. */
  function SumSquaredDeviations(data: seq<real>, m: real): real
  {
    if data == [] then 0.0
    else
      SumSquaredDeviations(data[..|data| - 1], m) + (data[|data| - 1] - m) * (data[|data| - 1] - m)
  }

  lemma {:induction false} SumSquaredDeviationsNonNegative(data: seq<real>, m: real)
    ensures 0.0 <= SumSquaredDeviations(data, m)
  {
    if data != [] {
      SumSquaredDeviationsNonNegative(data[..|data| - 1], m);
      SquarePositive(data[|data| - 1] - m);
    }
  }

  /** `calculateVariance`: the population variance, i.e. the squared deviations
      from the mean summed and divided by the count N (not N - 1). The mean is the
      one passed in, or else computed from the data. */
  function Variance(data: seq<real>, mean: Option<real>): real
    requires data != []
  {
    var meanValue := if mean.Some? then mean.value else Mean(data);
    SumSquaredDeviations(data, meanValue) / (|data| as real)
  }

  lemma VarianceNonNegative(data: seq<real>, mean: Option<real>)
    requires data != []
    ensures 0.0 <= Variance(data, mean)
  {
    var meanValue := if mean.Some? then mean.value else Mean(data);
    SumSquaredDeviationsNonNegative(data, meanValue);
    QuotientAtLeast(SumSquaredDeviations(data, meanValue), |data| as real, 0.0);
  }

  /** Letting the function compute the mean is the same as passing it in. */
  lemma VarianceOfComputedMean(data: seq<real>)
    requires data != []
    ensures Variance(data, None) == Variance(data, Some(Mean(data)))
  {
  }

  /** The count times the variance around `c` is the sum of squared deviations. */
  lemma CountTimesVariance(data: seq<real>, c: real)
    requires data != []
    ensures (|data| as real) * Variance(data, Some(c)) == SumSquaredDeviations(data, c)
  {
    QuotientTimes(SumSquaredDeviations(data, c), |data| as real);
  }

  /** `calculateStandardDeviation`: the mean is computed once and passed to the
      variance, whose square root is returned. */
  method CalculateStandardDeviation(data: seq<real>, sqrt: real -> real) returns (r: real)
    requires data != []
    requires IsSqrt(sqrt)
    ensures IsSquareRoot(r, Variance(data, None))
  {
    var meanValue := Mean(data);
    var variance := Variance(data, Some(meanValue));
    VarianceNonNegative(data, Some(meanValue));
    r := sqrt(variance);
  }

  // ---------------------------------------------------------------------------
  // The published snapshot

  /** The five published fields are those of `data`: all neutral for empty data,
      otherwise each computed from this one `data` value. */
  ghost predicate IsSnapshotOf(data: seq<real>, mean: real, mode: seq<real>,
                               standardDeviation: real, median: real, variance: real)
  {
    if data == [] then
      mean == 0.0 && mode == [] && standardDeviation == 0.0 && median == 0.0 && variance == 0.0
    else
      mean == Mean(data) && IsModeOf(mode, data) && median == Median(data) && variance == Variance(data, None)
      && IsSquareRoot(standardDeviation, variance)
  }

  lemma ComputedSnapshot(data: seq<real>, mean: real, mode: seq<real>,
                         standardDeviation: real, median: real, variance: real)
    requires data != [] && mean == Mean(data) && IsModeOf(mode, data) && median == Median(data)
    requires variance == Variance(data, None)
    requires IsSquareRoot(standardDeviation, variance)
    ensures IsSnapshotOf(data, mean, mode, standardDeviation, median, variance)
  {
  }

  /** The five calculations of `calculateStatistics`, each run on the same
      non-empty data. */
  method ComputeStatistics(data: seq<real>, sqrt: real -> real)
    returns (mean: real, mode: seq<real>, standardDeviation: real, median: real, variance: real)
    requires data != []
    requires IsSqrt(sqrt)
    ensures IsSnapshotOf(data, mean, mode, standardDeviation, median, variance)
  {
    mean := Mean(data);
    mode := CalculateMode(data);
    standardDeviation := CalculateStandardDeviation(data, sqrt);
    median := Median(data);
    variance := Variance(data, None);
    ComputedSnapshot(data, mean, mode, standardDeviation, median, variance);
  }

  class StatisticsCalculator {
    /** The square-root routine (Foundation's `sqrt`). */
    const sqrt: real -> real
    var data: seq<real>
    var mean: real
    var mode: seq<real>
    var standardDeviation: real
    var median: real
    var variance: real

    /** The published statistics describe the current data. */
    ghost predicate Valid()
      reads this
    {
      IsSnapshotOf(data, mean, mode, standardDeviation, median, variance)
    }

    /** `init(data:)`: stores the data and computes its statistics. */
    constructor (data: seq<real>, sqrt: real -> real)
      requires IsSqrt(sqrt)
      ensures Valid()
      ensures this.data == data && this.sqrt == sqrt
    {
      this.sqrt := sqrt;
      this.data := data;
      new;
      CalculateStatistics();
    }

    /** Assigning `data`: the `didSet` observer recomputes every statistic. */
    method SetData(newData: seq<real>)
      requires IsSqrt(sqrt)
      modifies this
      ensures Valid()
      ensures data == newData
    {
      data := newData;
      CalculateStatistics();
    }

    /** `calculateStatistics`: resets for empty data; otherwise computes all five
        statistics from the same data and publishes them together. */
    method CalculateStatistics()
      requires IsSqrt(sqrt)
      modifies this`mean, this`mode, this`standardDeviation, this`median, this`variance
      ensures Valid()
    {
      if data == [] {
        ResetStatistics();
        return;
      }
      var meanValue, modeValue, stdDevValue, medianValue, varianceValue := ComputeStatistics(data, sqrt);
      UpdateStatistics(meanValue, modeValue, stdDevValue, medianValue, varianceValue);
    }

    /** `resetStatistics`: every statistic back to its neutral value. */
    method ResetStatistics()
      modifies this`mean, this`mode, this`standardDeviation, this`median, this`variance
      ensures mean == 0.0 && mode == [] && standardDeviation == 0.0 && median == 0.0 && variance == 0.0
    {
      mean := 0.0;
      mode := [];
      standardDeviation := 0.0;
      median := 0.0;
      variance := 0.0;
    }

    /** `updateStatistics`: publishes the five values in one step. */
    method UpdateStatistics(mean: real, mode: seq<real>, standardDeviation: real, median: real, variance: real)
      modifies this`mean, this`mode, this`standardDeviation, this`median, this`variance
      ensures this.mean == mean && this.mode == mode && this.standardDeviation == standardDeviation
      ensures this.median == median && this.variance == variance
    {
      this.mean := mean;
      this.mode := mode;
      this.standardDeviation := standardDeviation;
      this.median := median;
      this.variance := variance;
    }
  }

  /** Recomputing for unchanged data gives the same snapshot, except for the
      order in which the mode's values are listed. */
  lemma SnapshotDeterminedByData(data: seq<real>,
                                 mean1: real, mode1: seq<real>, sd1: real, median1: real, variance1: real,
                                 mean2: real, mode2: seq<real>, sd2: real, median2: real, variance2: real)
    requires IsSnapshotOf(data, mean1, mode1, sd1, median1, variance1)
    requires IsSnapshotOf(data, mean2, mode2, sd2, median2, variance2)
    ensures mean1 == mean2 && sd1 == sd2 && median1 == median2 && variance1 == variance2
    ensures multiset(mode1) == multiset(mode2)
  {
    if data != [] {
      ModeUniqueUpToOrder(data, mode1, mode2);
      SquareRootUnique(sd1, sd2);
    }
  }
}
