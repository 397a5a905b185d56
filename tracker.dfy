/**
 * The `EcoEnergy` tracker: a list of readings that `simulate_data` extends
 * and sorts in place and that `analyze_data` reads to produce a summary.
 */
module Tracker {
  import opened Wrappers
  import opened Readings
  import opened Statistics
  import opened Aggregation
  import opened Recommendations

  /** The number of readings `simulate_data(days)` appends: 24 per day, and
      none when `range(days)` is empty. */
  function ReadingCount(days: int): nat {
    if days > 0 then days * 24 else 0
  }

  /** The reading the nested loops append at step `k = day * 24 + hour`: it is
      stamped `days - day` days and `hour` hours before `now`, and its
      consumption is the `k`-th value drawn from the consumption source. */
  function HourlyReading(days: int, now: int, draw: nat -> real, k: nat): (r: Reading)
    ensures r.kwh == draw(k)
  {
    var day, hour := k / 24, k % 24;
    Reading(now - ((days - day) * MicrosPerDay + hour * MicrosPerHour), draw(k))
  }

  /** The first `n` readings the nested loops append, in append order. */
  function Simulated(days: int, now: int, draw: nat -> real, n: nat): (s: seq<Reading>)
    ensures |s| == n
    ensures forall k :: 0 <= k < n ==> s[k].kwh == draw(k)
  {
    seq(n, k requires 0 <= k < n => HourlyReading(days, now, draw, k))
  }

  /** Step `day * 24 + hour` of the nested loops appends the reading for that
      day and hour. */
  lemma SimulatedStep(days: int, now: int, draw: nat -> real, day: nat, hour: nat)
    requires hour < 24
    ensures Simulated(days, now, draw, day * 24 + hour + 1)
         == Simulated(days, now, draw, day * 24 + hour)
            + [Reading(now - ((days - day) * MicrosPerDay + hour * MicrosPerHour), draw(day * 24 + hour))]
  {
    var k := day * 24 + hour;
    assert k / 24 == day && k % 24 == hour;
  }

  /** Every appended reading carries the value the consumption source
      returned for its step, so a source that keeps to [0.1, 5.0], as
      `random.uniform(0.1, 5.0)` does, yields readings in that range. */
  lemma SimulatedConsumption(days: int, now: int, draw: nat -> real, n: nat)
    ensures (forall k :: 0 <= k < n ==> 0.1 <= draw(k) <= 5.0) ==>
              forall r :: r in Simulated(days, now, draw, n) ==> 0.1 <= r.kwh <= 5.0
  {
  }

  /** The appended readings span from `days` days and 23 hours before `now`
      (loop day 0, hour 23) up to one day before `now` (the last loop day,
      hour 0); none is stamped at `now` itself. */
  lemma SimulatedSpan(days: int, now: int, draw: nat -> real)
    ensures forall r :: r in Simulated(days, now, draw, ReadingCount(days)) ==>
              now - (days * MicrosPerDay + 23 * MicrosPerHour) <= r.time <= now - MicrosPerDay
  {
    var s := Simulated(days, now, draw, ReadingCount(days));
    forall k | 0 <= k < |s|
      ensures now - (days * MicrosPerDay + 23 * MicrosPerHour) <= s[k].time <= now - MicrosPerDay
    {
      var day, hour := k / 24, k % 24;
      assert 0 <= day < days && 0 <= hour < 24;
      assert s[k].time == now - ((days - day) * MicrosPerDay + hour * MicrosPerHour);
    }
  }

  /** No two readings of one call share a timestamp: step `day * 24 + hour`
      lies `(days - day) * 24 + hour` hours before `now`, and distinct steps
      give distinct hour counts. */
  lemma SimulatedTimesDistinct(days: int, now: int, draw: nat -> real, i: int, j: int)
    requires 0 <= i < j < ReadingCount(days)
    ensures Simulated(days, now, draw, ReadingCount(days))[i].time
         != Simulated(days, now, draw, ReadingCount(days))[j].time
  {
    var s := Simulated(days, now, draw, ReadingCount(days));
    var hoursI := (days - i / 24) * 24 + i % 24;
    var hoursJ := (days - j / 24) * 24 + j % 24;
    assert s[i].time == now - hoursI * MicrosPerHour;
    assert s[j].time == now - hoursJ * MicrosPerHour;
    assert i / 24 < j / 24 || (i / 24 == j / 24 && i % 24 < j % 24);
    assert hoursI != hoursJ;
  }

  /** What `analyze_data` returns for the reading list `s`: nothing for an
      empty list, otherwise the summary of the per-date totals. */
  function Analyze(s: seq<Reading>): (r: Option<Summary>)
    ensures r.None? <==> s == []
  {
    if s == [] then None else
      AggregateNonEmpty(s);
      Some(Summarize(Aggregate(s).Values()))
  }

  lemma AggregateNonEmpty(s: seq<Reading>)
    requires s != []
    ensures |Aggregate(s).Values()| > 0
  {
    AggregateKeys(s);
    assert DateOf(s[0].time) in Dates(s);
  }

  /** A list of distinct dates has as many elements as its set of dates. */
  lemma {:induction false} DistinctCardinality(xs: seq<int>)
    requires forall i, j :: 0 <= i < j < |xs| ==> xs[i] != xs[j]
    ensures |set x | x in xs| == |xs|
  {
    if xs != [] {
      var init := xs[..|xs| - 1];
      DistinctCardinality(init);
      assert (set x | x in xs) == (set x | x in init) + {xs[|xs| - 1]};
      assert xs[|xs| - 1] !in (set x | x in init);
    }
  }

  /** The dictionary holds one value per date of the readings. */
  lemma AggregateCount(s: seq<Reading>)
    ensures |Aggregate(s).Values()| == |Dates(s)|
  {
    var daily := Aggregate(s);
    AggregateKeys(s);
    assert Dates(s) == set x | x in daily.dates;
    DistinctCardinality(daily.dates);
  }

  /** The dictionary's values, in order, are the totals of its dates, and
      every date of the readings is among its keys. */
  lemma AggregateValues(s: seq<Reading>)
    ensures var daily := Aggregate(s);
      && |daily.Values()| == |daily.dates|
      && (forall i :: 0 <= i < |daily.dates| ==>
            daily.dates[i] in Dates(s) && daily.Values()[i] == TotalOn(s, daily.dates[i]))
      && (forall d :: d in Dates(s) ==> exists i :: 0 <= i < |daily.dates| && daily.dates[i] == d)
  {
    var daily := Aggregate(s);
    AggregateKeys(s);
    forall i | 0 <= i < |daily.dates|
      ensures daily.Values()[i] == TotalOn(s, daily.dates[i])
    {
      AggregateTotals(s, daily.dates[i]);
    }
  }

  /** The peak is the total of some date of the readings, and no date's
      total exceeds it. */
  lemma PeakIsLargestDailyTotal(s: seq<Reading>)
    requires s != []
    ensures exists d :: d in Dates(s) && Analyze(s).value.peakUsage == TotalOn(s, d)
    ensures forall d :: d in Dates(s) ==> TotalOn(s, d) <= Analyze(s).value.peakUsage
  {
    var daily := Aggregate(s);
    var v := daily.Values();
    var peak := Analyze(s).value.peakUsage;
    assert peak == Summarize(v).peakUsage;
    AggregateValues(s);
    var i :| 0 <= i < |v| && v[i] == peak;
    assert daily.dates[i] in Dates(s) && peak == TotalOn(s, daily.dates[i]);
    forall d | d in Dates(s)
      ensures TotalOn(s, d) <= peak
    {
      var j :| 0 <= j < |daily.dates| && daily.dates[j] == d;
      assert v[j] == TotalOn(s, d);
    }
  }

  /** The off-peak is the total of some date of the readings, and no date's
      total is below it. */
  lemma OffPeakIsSmallestDailyTotal(s: seq<Reading>)
    requires s != []
    ensures exists d :: d in Dates(s) && Analyze(s).value.offPeakUsage == TotalOn(s, d)
    ensures forall d :: d in Dates(s) ==> Analyze(s).value.offPeakUsage <= TotalOn(s, d)
  {
    var daily := Aggregate(s);
    var v := daily.Values();
    var offPeak := Analyze(s).value.offPeakUsage;
    assert offPeak == Summarize(v).offPeakUsage;
    AggregateValues(s);
    var i :| 0 <= i < |v| && v[i] == offPeak;
    assert daily.dates[i] in Dates(s) && offPeak == TotalOn(s, daily.dates[i]);
    forall d | d in Dates(s)
      ensures offPeak <= TotalOn(s, d)
    {
      var j :| 0 <= j < |daily.dates| && daily.dates[j] == d;
      assert v[j] == TotalOn(s, d);
    }
  }

  /** The average daily usage is the total consumption of all readings
      spread evenly over the dates they fall on, and it lies between the
      off-peak and the peak. */
  lemma AverageIsTotalPerDate(s: seq<Reading>)
    requires s != []
    ensures Times(Analyze(s).value.averageDailyUsage, |Dates(s)|) == Total(s)
    ensures Analyze(s).value.offPeakUsage <= Analyze(s).value.averageDailyUsage <= Analyze(s).value.peakUsage
  {
    var v := Aggregate(s).Values();
    AggregateNonEmpty(s);
    AggregateCount(s);
    Conservation(s);
    assert Analyze(s).value == Summarize(v);
  }

  /** Two reading lists that fall on the same dates with the same total on
      every date. */
  ghost predicate SameDailyTotals(s: seq<Reading>, t: seq<Reading>) {
    && Dates(s) == Dates(t)
    && Total(s) == Total(t)
    && forall d :: TotalOn(s, d) == TotalOn(t, d)
  }

  lemma SamePeak(s: seq<Reading>, t: seq<Reading>)
    requires s != [] && t != [] && SameDailyTotals(s, t)
    ensures Analyze(s).value.peakUsage == Analyze(t).value.peakUsage
  {
    PeakIsLargestDailyTotal(s);
    PeakIsLargestDailyTotal(t);
  }

  lemma SameOffPeak(s: seq<Reading>, t: seq<Reading>)
    requires s != [] && t != [] && SameDailyTotals(s, t)
    ensures Analyze(s).value.offPeakUsage == Analyze(t).value.offPeakUsage
  {
    OffPeakIsSmallestDailyTotal(s);
    OffPeakIsSmallestDailyTotal(t);
  }

  lemma SameAverage(s: seq<Reading>, t: seq<Reading>)
    requires s != [] && t != [] && SameDailyTotals(s, t)
    ensures Analyze(s).value.averageDailyUsage == Analyze(t).value.averageDailyUsage
  {
    AverageIsTotalPerDate(s);
    AverageIsTotalPerDate(t);
    var a, b := Analyze(s).value.averageDailyUsage, Analyze(t).value.averageDailyUsage;
    assert DateOf(s[0].time) in Dates(s);
    if a < b {
      TimesStrictlyMonotone(a, b, |Dates(s)|);
    } else if b < a {
      TimesStrictlyMonotone(b, a, |Dates(s)|);
    }
  }

  /** The order of the readings does not matter to the analysis: any
      reordering, the sort in `simulate_data` included, yields the same
      result. */
  lemma AnalyzeIgnoresOrder(s: seq<Reading>, t: seq<Reading>)
    requires multiset(s) == multiset(t)
    ensures Analyze(s) == Analyze(t)
  {
    if s != [] {
      assert s[0] in multiset(t);
      DatesPermutation(s, t);
      TotalPermutation(s, t);
      forall d ensures TotalOn(s, d) == TotalOn(t, d) {
        TotalOnPermutation(s, t, d);
      }
      SamePeak(s, t);
      SameOffPeak(s, t);
      SameAverage(s, t);
    } else {
      assert |t| == |multiset(t)| == 0;
    }
  }

  /** Sorting the list, as `simulate_data` does last, leaves the analysis
      unchanged. */
  lemma SortKeepsAnalysis(s: seq<Reading>)
    ensures Analyze(SortReadings(s)) == Analyze(s)
  {
    AnalyzeIgnoresOrder(SortReadings(s), s);
  }

  /** Given `None`, which `Analyze([])` is, the recommendations are only the
      notice. */
  lemma NoDataGivesOnlyNotice()
    ensures Recommend(Analyze([])) == [NoAnalysisResults]
  {
  }

  /** The tracker object: `energy_data`, the list of readings. */
  class EcoEnergy {
    var energyData: seq<Reading>

    /** `__init__`: the tracker starts with no readings. */
    constructor ()
      ensures energyData == []
    {
      energyData := [];
    }

    /** `simulate_data(days)`: appends one reading per (day, hour) pair, then
        sorts the whole list. The clock is `now` and the random source is
        `draw`, whose `k`-th value is the consumption of the `k`-th reading
        appended. */
    method SimulateData(days: int, now: int, draw: nat -> real)
      modifies this
      ensures energyData == SortReadings(old(energyData) + Simulated(days, now, draw, ReadingCount(days)))
      ensures Sorted(energyData)
      ensures multiset(energyData) == multiset(old(energyData)) + multiset(Simulated(days, now, draw, ReadingCount(days)))
      ensures |energyData| == |old(energyData)| + ReadingCount(days)
      ensures days <= 0 && Sorted(old(energyData)) ==> energyData == old(energyData)
    {
      var day := 0;
      while day < days
        invariant 0 <= day && (day <= days || day == 0)
        invariant energyData == old(energyData) + Simulated(days, now, draw, day * 24)
      {
        for hour := 0 to 24
          invariant energyData == old(energyData) + Simulated(days, now, draw, day * 24 + hour)
        {
          var time := now - ((days - day) * MicrosPerDay + hour * MicrosPerHour);
          var consumption := draw(day * 24 + hour);
          SimulatedStep(days, now, draw, day, hour);
          energyData := energyData + [Reading(time, consumption)];
        }
        day := day + 1;
      }
      assert day * 24 == ReadingCount(days);
      var appended := energyData;
      energyData := SortReadings(energyData);
      assert multiset(appended) == multiset(old(energyData)) + multiset(Simulated(days, now, draw, ReadingCount(days)));
      if days <= 0 && Sorted(old(energyData)) {
        assert appended == old(energyData);
        SortSortedIsIdentity(appended);
      }
    }

    /** `analyze_data()`: an empty list yields `None` before any statistic is
        computed; otherwise the readings are grouped by date into a
        dictionary and the mean, maximum and minimum of its values are
        returned. The list is only read. */
    method AnalyzeData() returns (result: Option<Summary>)
      ensures result == Analyze(energyData)
      ensures result.None? <==> energyData == []
      ensures result.Some? ==>
        result.value.offPeakUsage <= result.value.averageDailyUsage <= result.value.peakUsage
    {
      if energyData == [] {
        return None;
      }
      var dates: seq<int> := [];
      var totals: map<int, real> := map[];
      for i := 0 to |energyData|
        invariant DailyConsumption(dates, totals) == Aggregate(energyData[..i])
      {
        assert energyData[..i + 1][..i] == energyData[..i];
        var date := DateOf(energyData[i].time);
        if date !in totals {
          dates := dates + [date];
        }
        totals := totals[date := (if date in totals then totals[date] else 0.0) + energyData[i].kwh];
      }
      assert energyData[..|energyData|] == energyData;
      var dailyValues := DailyConsumption(dates, totals).Values();
      AggregateNonEmpty(energyData);
      result := Some(Summarize(dailyValues));
      AverageIsTotalPerDate(energyData);
    }
  }
}
