# Eco-energy tracker, modelled in Dafny

The tracker keeps a list of hourly readings, each a timestamp and the energy
used in that hour in kWh. `simulate_data(days)` appends 24 readings per day
and sorts the list. `analyze_data()` refuses an empty list. Otherwise it
folds the list into a dictionary from calendar date to that date's total.
It then reports the mean, the maximum ("peak") and the minimum ("off-peak")
of those daily totals. `provide_recommendations` prints a heading, the
average, and up to three advisories chosen by fixed thresholds.

The Dafny project follows that pipeline, one module per stage:

- `wrappers.dfy` (`Wrappers`): the `Option` type standing for "a summary or `None`".
- `readings.dfy` (`Readings`): the `Reading` record and timestamps.
  Timestamps are integers counting microseconds from midnight of a fixed
  origin date, so `DateOf` (the calendar date) is floor division by one day.
  The module also holds Python's ordering of `(timestamp, kWh)` tuples, the
  sort, and sums of consumption (`Total`, `TotalOn` a date) with the facts
  that reordering the readings does not change them.
- `statistics.dfy` (`Statistics`): `Sum`, `Max` and `Min` as Python computes
  them (left-to-right scans), and `Summarize`, the mean/max/min step.
  `Times(x, n)` is `n` copies of `x` added up. Contracts use it in place of
  `x * n` to say what the mean is.
- `aggregation.dfy` (`Aggregation`): the `daily_consumption` dictionary.
  It keeps its keys in insertion order, as Python dictionaries do, so
  `values()` lists the totals in the order their dates first appear. `Add` is
  one iteration of the grouping loop and `Aggregate` the whole loop.
- `recommendations.dfy` (`Recommendations`): the printed lines as message
  tokens and the threshold rules.
- `tracker.dfy` (`Tracker`): the `EcoEnergy` class. Its field `energyData`
  is the reading list. `SimulateData` and `AnalyzeData` are methods with the
  source's loops. `Analyze` is the function that specifies `AnalyzeData`, and
  the lemmas tie the summary back to the readings.

The clock and the random source are parameters of `SimulateData`. `now` is
the timestamp `datetime.now()` would return. `draw(k)` is the value the
`k`-th call of `random.uniform(0.1, 5.0)` would return. `analyze_data` has no
`modifies` clause in the model, so Dafny checks that it leaves the reading
list alone.

Two consequences of the code are worth stating:

- Every generated reading is stamped between `days` days and 23 hours
  before `now` (loop day 0, hour 23) and one day before `now` (the last loop
  day, hour 0), so none is stamped at `now` itself (`SimulatedSpan`).
- Daily totals 2.0, 4.0, 3.0 print only the heading and the average line:
  4.0 - 3.0 is not above 1.5 and the average 3.0 is not above 3.0
  (`SummarizeThreeDays`, `ThreeDaySummaryAdvice`).

## Model

| member | source | states |
|---|---|---|
| `Readings.DateOf` | main.py:34 | the date of a timestamp is the unique day index whose day contains it, so the time of day is dropped |
| `Readings.PrecedesIsTotalOrder` | main.py:23 | `Precedes`, the order `sort()` uses on `(timestamp, kWh)` tuples (by timestamp, then by consumption), is total, antisymmetric and transitive |
| `Readings.SortReadings` | main.py:23 | `energy_data.sort()` yields a list sorted by (timestamp, kWh) that is a permutation of the list before |
| `Readings.SortSortedIsIdentity` | main.py:23 | sorting a list that is already sorted changes nothing |
| `Readings.SortedByTime` | main.py:23 | in the sorted list, timestamps never decrease |
| `Statistics.Max` | main.py:40 | `max` returns one of the values, and no value exceeds it |
| `Statistics.Min` | main.py:41 | `min` returns one of the values, and no value is below it |
| `Statistics.Summarize` | main.py:38-41 | on non-empty totals: the peak is the largest total, the off-peak the smallest, the average repeated once per total adds up to their sum, and off-peak <= average <= peak |
| `Statistics.SummarizeThreeDays` | main.py:38-41 | daily totals 2.0, 4.0, 3.0 summarise to average 3.0, peak 4.0, off-peak 2.0 |
| `Aggregation.DailyConsumption.Values` | main.py:38 | `values()` lists one value per key, in insertion order, each the total stored under that key |
| `Aggregation.Add` | main.py:35 | one loop iteration raises the reading's date's total by the reading's consumption, leaves every other date's total alone, appends the date at the end of the key list if it is new and leaves the key list alone otherwise, and keeps the dictionary well-formed |
| `Aggregation.Aggregate` | main.py:32-35 | the dictionary the loop builds is well-formed: its keys are distinct, each listed exactly once, and they are exactly the map's keys (their order is fixed by `Add`) |
| `Aggregation.AggregateKeys` | main.py:32-35 | the dictionary's keys are exactly the dates of the readings, each listed once |
| `Aggregation.AggregateTotals` | main.py:33-35 | the value under each date is the sum of the consumption of the readings on that date |
| `Aggregation.AddToKnownDate` | main.py:35 | an iteration on a date already in the dictionary raises the sum of its values by exactly the reading's consumption |
| `Aggregation.AddNewDate` | main.py:35 | an iteration on a new date raises the sum of its values by exactly the reading's consumption |
| `Aggregation.AddConserves` | main.py:35 | one loop iteration raises the sum of the dictionary's values by exactly the reading's consumption |
| `Aggregation.Conservation` | main.py:32-35 | the daily totals add up to the total consumption of all readings |
| `Recommendations.Recommend` | main.py:55-72 | no result gives only the notice; a result gives the heading, then the average, then the reduce advisory iff average > 3.0, the spike advisory iff peak - average > 1.5 and the praise iff off-peak < 1.0, in that fixed order, none twice |
| `Recommendations.ThreeDaySummaryAdvice` | main.py:67-72 | the summary of daily totals 2.0, 4.0, 3.0 (average 3.0, peak 4.0, off-peak 2.0) fires no advisory: only the heading and the average are printed |
| `Recommendations.ThresholdsAreStrict` | main.py:67-72 | average exactly 3.0, peak exactly 1.5 above it and off-peak exactly 1.0 fire no advisory, so all three tests are strict |
| `Recommendations.AllAdvisoriesFire` | main.py:65-72 | average 3.5, peak 5.5, off-peak 0.5 fires all three advisories in order |
| `Tracker.HourlyReading` | main.py:18-22 | the reading for step `k` carries the `k`-th drawn value |
| `Tracker.Simulated` | main.py:18-22 | the first `n` steps produce `n` readings, the `k`-th carrying the `k`-th drawn value |
| `Tracker.SimulatedConsumption` | main.py:21-22 | each appended reading carries the value the source drew for its step, so a source within [0.1, 5.0] gives readings within [0.1, 5.0] |
| `Tracker.SimulatedSpan` | main.py:17-20 | the appended timestamps lie between `days` days 23 hours before `now` and one day before `now` |
| `Tracker.SimulatedTimesDistinct` | main.py:18-20 | no two readings of one call share a timestamp |
| `Tracker.Analyze` | main.py:25-53 | the analysis yields no summary exactly when the reading list is empty |
| `Tracker.AggregateCount` | main.py:38 | the dictionary has one value per distinct date of the readings |
| `Tracker.AggregateValues` | main.py:33-38 | the values, in order, are the totals of the dictionary's dates, and every date of the readings is a key |
| `Tracker.PeakIsLargestDailyTotal` | main.py:40 | the peak is some date's total, and no date's total exceeds it |
| `Tracker.OffPeakIsSmallestDailyTotal` | main.py:41 | the off-peak is some date's total, and no date's total is below it |
| `Tracker.AverageIsTotalPerDate` | main.py:38-39 | the average repeated once per date adds up to the total consumption, and off-peak <= average <= peak |
| `Tracker.AnalyzeIgnoresOrder` | main.py:32-41 | any reordering of the readings gives the same analysis result |
| `Tracker.SortKeepsAnalysis` | main.py:23 | the sort at the end of `simulate_data` does not change what `analyze_data` reports |
| `Tracker.NoDataGivesOnlyNotice` | main.py:57-59 | `provide_recommendations` given `None` (what `analyze_data` returns for no readings) prints only the "no analysis results" notice |
| `Tracker.EcoEnergy.constructor` | main.py:11-13 | a new tracker holds no readings |
| `Tracker.EcoEnergy.SimulateData` | main.py:15-23 | the new list is the sorted old list plus one reading per (day, hour) step. It grows by exactly `days * 24` readings when `days > 0`. When `days <= 0` it grows by none, and a list that was already sorted is left unchanged |
| `Tracker.EcoEnergy.AnalyzeData` | main.py:25-53 | returns `None` exactly for an empty list, before computing anything. Otherwise the loop builds the date dictionary, the result has off-peak <= average <= peak, and it equals `Analyze` of the list, which the lemmas above characterise |

## Left out

- Output text: `print`, the exact wording of each line and the `:.2f` rounding of the average. Lines are message tokens, and the average token carries the exact real value.
- Floating point: consumption, sums and the mean are mathematical reals. Float rounding in `+` and the fraction arithmetic inside `statistics.mean` are not modelled.
- The "Error: No energy data to analyze." line `analyze_data` prints for an empty list (main.py:28-29, 48-49): `AnalyzeData` only returns `None` there.
- The catch-all `except Exception` branch and its message. With well-formed readings the only failure is the empty-list guard, which becomes `None`.
- `random.uniform` and `datetime.now()`: foreign, non-deterministic calls, replaced by the parameters `draw` and `now`. The model assumes nothing about the distribution. A range of [0.1, 5.0] is a hypothesis of `SimulatedConsumption`.
- Calendar and overflow behaviour of `datetime`: timestamps are unbounded integers in microseconds from a midnight origin, with no time zones. The `OverflowError` Python raises for dates before year 1 is not modelled.
- `list.sort()` (Timsort) as an algorithm: `SortReadings` is an insertion sort on the same tuple order. Under a total order the sorted permutation is unique, so the resulting list is the same. The steps and the in-place update are not modelled.
- Non-integer `days` arguments and the default value 30 are not modelled: `SimulateData` takes any integer `days` explicitly.
- `main()`, which only wires the three calls together with `days=30`.
