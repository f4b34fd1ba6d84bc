# ParaBulletStatKit statistics engine in Dafny

This project models the computational core of ParaBulletStatKit, a SwiftUI
package for descriptive statistics and a central-limit-theorem demonstration.

- **`StatisticsCalculator`** (module `Statistics`, `statistics_calculator.dfy`)
  holds `data` and publishes five statistics: mean, mode, median, population
  variance and standard deviation. Assigning `data` recomputes them. Empty data
  resets all five to neutral values. Otherwise all five are computed from the
  same data and published together. The class invariant `Valid` says that the
  five fields describe the current `data`.
- **`CLTStatisticsCalculator`** (module `CentralLimit`,
  `clt_statistics_calculator.dfy`) draws `n` bootstrap samples of size `k` from
  the calculator's data. It publishes the sample means, their mean and the
  standard error, which is the standard deviation of the means divided by
  `sqrt(k)`. It has a guard for empty data and for non-positive `n` or `k`. It
  also has the silent branch that returns the whole data when `k` exceeds its
  count.
- **Histogram logic** (module `Histogram`, `histogram.dfy`). Three parts:
  - the frequency table over half-open bins `[v, v + binStep)` for `v` striding
    from `binStart` through `binEnd`;
  - the colour of a bin by its position relative to mean ± multiples of the
    standard deviation;
  - fitting the bin range to the data.
- **`SeqMath`** (`seq_math.dfy`) holds the Swift standard-library folds these
  rely on: `reduce(0, +)`, `min()`, `max()` and `sorted()`.

## How things are modelled

- `Double` is an exact `real`.
- Foundation's `sqrt` is a function value that obeys the square-root law
  (`IsSqrt`). Results that involve it are stated squared.
- `randomElement()` becomes a supplied choice `draw(t, j)`: the index, modulo
  the data's count, that task `t` picks on its `j`-th draw.
- Swift concurrency (`Task`, `async let`, the task group, `MainActor.run`) runs
  sequentially. Each method computes everything first, then assigns the
  published fields together.

## Model

| member | source | states |
|---|---|---|
| SeqMath.Min | Sources/ParaBulletStatKit/HistogramView.swift:145 | `min()` of non-empty data is one of its values and is at most every value |
| SeqMath.Max | Sources/ParaBulletStatKit/HistogramView.swift:146 | `max()` of non-empty data is one of its values and is at least every value |
| SeqMath.Sort | Sources/ParaBulletStatKit/StatisticsCalculator.swift:89 | `sorted()` yields an ascending sequence with the same multiset of values (a permutation) and the same length |
| SeqMath.SortedUnique | Sources/ParaBulletStatKit/StatisticsCalculator.swift:89 | two ascending arrangements of the same values are equal, so the sorted order the median reads is unique |
| SeqMath.MinMaxWithin | Sources/ParaBulletStatKit/CLTStatisticsCalculator.swift:59 | bounds that hold for every element bound the minimum and the maximum |
| Statistics.MeanBounds | Sources/ParaBulletStatKit/StatisticsCalculator.swift:70-73 | sum divided by count lies between the data's minimum and maximum |
| Statistics.CountTimesMean | Sources/ParaBulletStatKit/StatisticsCalculator.swift:70-73 | the count times the mean gives back the sum |
| Statistics.CountFrequencies | Sources/ParaBulletStatKit/StatisticsCalculator.swift:76-77 | the frequency dictionary has exactly the data's values as keys, each mapped to its number of occurrences |
| Statistics.LargestCount | Sources/ParaBulletStatKit/StatisticsCalculator.swift:78 | the result is at least every count and is attained by some key, or 0 for an empty dictionary |
| Statistics.KeysWithCount | Sources/ParaBulletStatKit/StatisticsCalculator.swift:79 | the result lists, once each, exactly the keys whose count equals the given maximum |
| Statistics.LargestCountIsMaxFrequency | Sources/ParaBulletStatKit/StatisticsCalculator.swift:76-78 | the dictionary's largest count is the highest number of occurrences of any value in the data |
| Statistics.CalculateMode | Sources/ParaBulletStatKit/StatisticsCalculator.swift:75-80 | every returned value reaches the highest frequency, every value that reaches it is returned, none twice, and non-empty data has a non-empty mode |
| Statistics.ModeUniqueUpToOrder | Sources/ParaBulletStatKit/StatisticsCalculator.swift:75-80 | any two results that satisfy the mode contract hold the same values, so only the dictionary's order is left open |
| Statistics.MedianWithinRange | Sources/ParaBulletStatKit/StatisticsCalculator.swift:88-96 | the median of non-empty data lies between its minimum and maximum |
| Statistics.MedianOfAscendingArrangement | Sources/ParaBulletStatKit/StatisticsCalculator.swift:88-96 | for any ascending arrangement of the data, the median is its element at count/2 for an odd count, or the average of the elements at count/2 - 1 and count/2 for an even count |
| Statistics.SumSquaredDeviationsNonNegative | Sources/ParaBulletStatKit/StatisticsCalculator.swift:106 | the sum of squared differences is never negative |
| Statistics.VarianceNonNegative | Sources/ParaBulletStatKit/StatisticsCalculator.swift:98-108 | the variance is at least 0, whichever mean is passed |
| Statistics.VarianceOfComputedMean | Sources/ParaBulletStatKit/StatisticsCalculator.swift:98-108 | omitting the mean gives the same variance as passing the computed mean |
| Statistics.CountTimesVariance | Sources/ParaBulletStatKit/StatisticsCalculator.swift:106-107 | the count times the variance is the sum of squared differences, so the divisor is N (population variance), not N - 1 |
| Statistics.CalculateStandardDeviation | Sources/ParaBulletStatKit/StatisticsCalculator.swift:82-86 | the result is non-negative and its square is the variance of the data around its one computed mean |
| Statistics.ComputeStatistics | Sources/ParaBulletStatKit/StatisticsCalculator.swift:35-48 | the five values computed from non-empty data form a snapshot of that data |
| Statistics.StatisticsCalculator.constructor | Sources/ParaBulletStatKit/StatisticsCalculator.swift:24-27 | the new calculator holds the given data and statistics that describe it |
| Statistics.StatisticsCalculator.SetData | Sources/ParaBulletStatKit/StatisticsCalculator.swift:12-16 | after assigning `data`, the statistics describe the new data |
| Statistics.StatisticsCalculator.CalculateStatistics | Sources/ParaBulletStatKit/StatisticsCalculator.swift:29-50 | afterwards the five fields are the neutral values for empty data, otherwise the statistics of the current data |
| Statistics.StatisticsCalculator.ResetStatistics | Sources/ParaBulletStatKit/StatisticsCalculator.swift:52-58 | mean, standard deviation, median and variance become 0 and mode becomes empty |
| Statistics.StatisticsCalculator.UpdateStatistics | Sources/ParaBulletStatKit/StatisticsCalculator.swift:60-68 | the five fields take the five given values together |
| Statistics.SnapshotDeterminedByData | Sources/ParaBulletStatKit/StatisticsCalculator.swift:29-50 | two snapshots of the same data agree on mean, standard deviation, median and variance, and their modes hold the same values |
| CentralLimit.Sample | Sources/ParaBulletStatKit/CLTStatisticsCalculator.swift:71-76 | returns the data unchanged when `size` exceeds its count; otherwise exactly `size` values, each one of the data's values |
| CentralLimit.SampleNonEmpty | Sources/ParaBulletStatKit/CLTStatisticsCalculator.swift:72-73 | a positive sample size on non-empty data never gives an empty sample, so no sample mean divides by zero |
| CentralLimit.SampleMean | Sources/ParaBulletStatKit/CLTStatisticsCalculator.swift:48-49 | each sample mean lies between the data's minimum and maximum |
| CentralLimit.SampleMeans | Sources/ParaBulletStatKit/CLTStatisticsCalculator.swift:44-57 | the collected means number exactly `n`, entry t is task t's sample mean, and each lies within the data's range |
| CentralLimit.QuotientOfRoots | Sources/ParaBulletStatKit/CLTStatisticsCalculator.swift:61-62 | `sqrt(v) / sqrt(k)` is non-negative, and its square times k is v |
| CentralLimit.RootQuotientIsStandardError | Sources/ParaBulletStatKit/CLTStatisticsCalculator.swift:61-62 | for a non-negative variance v and positive k, `sqrt(v) / sqrt(Double(k))` is a standard error for v: non-negative, with square times k equal to v |
| CentralLimit.StandardErrorOf | Sources/ParaBulletStatKit/CLTStatisticsCalculator.swift:61-62 | the square root of the variance of the means divided by the square root of k is a standard error for that variance |
| CentralLimit.CollectSampleMeans | Sources/ParaBulletStatKit/CLTStatisticsCalculator.swift:44-57 | the loop over the n tasks collects exactly the n sample means, in task order |
| CentralLimit.SampleAndAggregate | Sources/ParaBulletStatKit/CLTStatisticsCalculator.swift:44-62 | the collected means, their mean and the standard error form a run of the data for n and k |
| CentralLimit.MeanOfMeansWithinData | Sources/ParaBulletStatKit/CLTStatisticsCalculator.swift:59 | the mean of means lies between the data's minimum and maximum |
| CentralLimit.OversizedSampleMeans | Sources/ParaBulletStatKit/CLTStatisticsCalculator.swift:72 | when k exceeds the data's count, every sample mean, and the mean of means, equals the data's mean |
| CentralLimit.OversizedSampleHasNoError | Sources/ParaBulletStatKit/CLTStatisticsCalculator.swift:60-62 | in that case the variance of the means is 0, so the published standard error is 0 |
| CentralLimit.CLTStatisticsCalculator.constructor | Sources/ParaBulletStatKit/CLTStatisticsCalculator.swift:20-27 | stores the calculator, n and k, then publishes the result of one run |
| CentralLimit.CLTStatisticsCalculator.UpdateParameters | Sources/ParaBulletStatKit/CLTStatisticsCalculator.swift:29-35 | stores the new n and k, and the published result is the run for those new values |
| CentralLimit.CLTStatisticsCalculator.CalculateCentralLimitTheorem | Sources/ParaBulletStatKit/CLTStatisticsCalculator.swift:37-69 | on empty data or n ≤ 0 or k ≤ 0: no sample means and standard error 0, with the mean of means kept. Otherwise: the n sample means, their mean, and a standard error whose square times k is the population variance of the means. The calculator's data is only read. |
| Histogram.CountInRange | Sources/ParaBulletStatKit/HistogramView.swift:111 | the count of values in `[lo, hi)` is at most the number of values |
| Histogram.CountInRangeZero | Sources/ParaBulletStatKit/HistogramView.swift:111 | the count is 0 exactly when no value lies in `[lo, hi)` |
| Histogram.StrideIndex | Sources/ParaBulletStatKit/HistogramView.swift:110 | index i is in the stride exactly when `binStart + i·binStep` has not passed `binEnd` in the step's direction |
| Histogram.StrideStopsAtEnd | Sources/ParaBulletStatKit/HistogramView.swift:110 | every yielded bin is on the near side of `binEnd`, and the next stride value is past it |
| Histogram.StrideSpaced | Sources/ParaBulletStatKit/HistogramView.swift:110 | with a positive step, each bin starts at least one step after every earlier bin, so bins increase strictly and do not overlap |
| Histogram.NoBinsWhenStartPastEnd | Sources/ParaBulletStatKit/HistogramView.swift:110 | a start already past the end gives an empty table |
| Histogram.Frequencies | Sources/ParaBulletStatKit/HistogramView.swift:108-113 | the table has one entry per bin, in bin order, holding the bin and the number of values in `[bin, bin + step)` |
| Histogram.TotalCountAppendValue | Sources/ParaBulletStatKit/HistogramView.swift:111 | one more value raises the table's total by the number of bins that contain it |
| Histogram.SpacedHitsAtMostOnce | Sources/ParaBulletStatKit/HistogramView.swift:110-111 | a value lies in at most one of a set of spaced bins |
| Histogram.SpacedCountsAtMostData | Sources/ParaBulletStatKit/HistogramView.swift:110-111 | over spaced bins the counts add up to at most the number of values |
| Histogram.FrequencyTableCountsAtMostData | Sources/ParaBulletStatKit/HistogramView.swift:108-113 | with a positive step the table's counts add up to at most the number of values, so no value is counted twice |
| Histogram.ValueInOneBin | Sources/ParaBulletStatKit/HistogramView.swift:110-111 | with a positive step, every value from start through end lies in exactly one bin |
| Histogram.CountsCoverData | Sources/ParaBulletStatKit/HistogramView.swift:110-111 | when all values lie in the bin range, the counts add up to exactly the number of values |
| Histogram.FittedRangeCountsEveryValue | Sources/ParaBulletStatKit/HistogramView.swift:143-147 | after the range is fitted to non-empty data, a positive step gives a table that counts every value exactly once |
| Histogram.ColorForBin | Sources/ParaBulletStatKit/HistogramView.swift:116-141 | green exactly when the bin is within `[mean, mean + binStep]`, which takes priority. Otherwise it goes by the distance d from the mean: blue for 2σ ≤ d ≤ 3σ, red for σ ≤ d < 2σ, yellow for d < σ, gray for d > 3σ |
| Histogram.PublishedDeviationNonNegative | Sources/ParaBulletStatKit/HistogramView.swift:117-118 | a calculator whose statistics describe its data publishes a non-negative standard deviation, as colouring needs |
| Histogram.HistogramView.constructor | Sources/ParaBulletStatKit/HistogramView.swift:14-17 | bins start at 0, end at 10 and step by 0.5, and the table is empty |
| Histogram.HistogramView.CalculateFrequencies | Sources/ParaBulletStatKit/HistogramView.swift:108-114 | the table becomes the frequency table of the calculator's data over the stride from `binStart` through `binEnd` |
| Histogram.HistogramView.UpdateBinRange | Sources/ParaBulletStatKit/HistogramView.swift:143-147 | empty data leaves the range alone; otherwise the range becomes the data's minimum through its maximum |

## Left out

- The SwiftUI views are not part of this model: `body`, `Chart`, text fields,
  `onChange`/`onAppear` triggers, number formatting, previews, and the views and
  styles in the other files. So are the Excel import and `Package.swift`.
- IEEE-754 rounding, `pow` and `sqrt` are not modelled. Arithmetic is exact over
  `real`, so bin edges `start + i·step` and every quotient are exact.
- Statistics.Mean, Statistics.Variance: for empty data Swift divides 0 by 0 and
  gets NaN. NaN is not a real, so both require non-empty data. The calculator
  only calls them after its non-empty guard. Statistics.Median requires
  non-empty data because Swift would trap indexing at -1.
- Statistics.CalculateStandardDeviation: states that the result squared is the
  variance, rather than naming `sqrt(variance)`, because the square root is
  given by its law.
- CentralLimit.CLTStatisticsCalculator.CalculateCentralLimitTheorem: states the
  standard error squared (times k), for the same reason.
- Concurrency: `Task`, `async let`, the task group and `MainActor.run` are
  modelled sequentially. Two `data` assignments whose tasks finish out of order
  could publish stale statistics; this is not modelled. The task group appends
  means in completion order, which the model fixes to task order. Any completion
  order is the same as renumbering the tasks in `draw`, so no outcome is lost.
- The guard of `calculateCentralLimitTheorem` leaves `meanOfMeans` unchanged,
  as the code does. It is not reset to 0.
- Randomness: `randomElement()` is a supplied `draw` function, not a
  distribution. No statistical property of the resampling is stated.
- The `print(result)` in `sample` has no observable effect on state.
- The order of `mode` follows Swift's dictionary order, which is unspecified.
  The model chooses keys arbitrarily and states the mode as a set of values
  without repeats. Double key equality (`-0.0 == 0.0`, NaN keys) is not
  modelled.
- `StatisticsCalculator.Valid` does not include the square-root law. Each
  method that computes statistics requires it of the calculator's `sqrt`.
- Histogram.HistogramView.CalculateFrequencies requires a non-zero step,
  because Swift's `stride` traps on a zero step. Negative steps are modelled as
  Swift runs them.
- Histogram.ColorForBin requires a non-negative step and standard deviation,
  because Swift's closed ranges trap when the lower bound exceeds the upper.
- `Int` overflow of `n` and `k` is not modelled.
- The `?? 0.0` and `?? 10.0` fallbacks in `updateBinRange` are unreachable after
  its guard, so they are not modelled.
