/**
 * The grouping loop of `analyze_data`: readings are folded, in list order,
 * into a dictionary from calendar date to that date's running total.
 */
module Aggregation {
  import opened Readings
  import opened Statistics

  /** The `daily_consumption` dictionary: its keys in insertion order (the
      order `values()` lists them in) and the total stored under each key. */
  datatype DailyConsumption = DailyConsumption(dates: seq<int>, totals: map<int, real>)
  {
    /** Every key of `totals` is listed in `dates`, exactly once. */
    ghost predicate Valid() {
      && (forall i, j :: 0 <= i < j < |dates| ==> dates[i] != dates[j])
      && (forall d :: d in totals <==> d in dates)
    }

    /** `daily_consumption.get(d, 0)`. */
    function Get(d: int): real {
      if d in totals then totals[d] else 0.0
    }

    /** `list(daily_consumption.values())`. */
    function Values(): (v: seq<real>)
      ensures |v| == |dates|
      ensures forall i :: 0 <= i < |dates| ==> v[i] == Get(dates[i])
    {
      ValuesOf(dates)
    }

    /** The values stored under `keys`, in the order of `keys`. */
    function ValuesOf(keys: seq<int>): (v: seq<real>)
      ensures |v| == |keys|
      ensures forall i :: 0 <= i < |keys| ==> v[i] == Get(keys[i])
    {
      if keys == [] then [] else ValuesOf(keys[..|keys| - 1]) + [Get(keys[|keys| - 1])]
    }
  }

  /** The empty dictionary the loop starts from. */
  const NoDays := DailyConsumption([], map[])

  /** One iteration: `daily[date] = daily.get(date, 0) + kwh`, where a date
      not yet present becomes the dictionary's last key. */
  function Add(daily: DailyConsumption, r: Reading): (next: DailyConsumption)
    ensures next.Get(DateOf(r.time)) == daily.Get(DateOf(r.time)) + r.kwh
    ensures forall d :: d != DateOf(r.time) ==> next.Get(d) == daily.Get(d)
    ensures next.totals.Keys == daily.totals.Keys + {DateOf(r.time)}
    ensures DateOf(r.time) in daily.totals ==> next.dates == daily.dates
    ensures DateOf(r.time) !in daily.totals ==> next.dates == daily.dates + [DateOf(r.time)]
    ensures daily.Valid() ==> next.Valid()
  {
    var d := DateOf(r.time);
    DailyConsumption(
      if d in daily.totals then daily.dates else daily.dates + [d],
      daily.totals[d := daily.Get(d) + r.kwh])
  }

  /** The dictionary after the loop has run over all of `s`. */
  function Aggregate(s: seq<Reading>): (daily: DailyConsumption)
    ensures daily.Valid()
  {
    if s == [] then NoDays else Add(Aggregate(s[..|s| - 1]), s[|s| - 1])
  }

  lemma DatesOfSnoc(s: seq<Reading>)
    requires s != []
    ensures Dates(s) == Dates(s[..|s| - 1]) + {DateOf(s[|s| - 1].time)}
  {
    assert s == s[..|s| - 1] + [s[|s| - 1]];
  }

  /** The dictionary's keys are exactly the dates of the readings, each
      listed once in insertion order. */
  lemma {:induction false} AggregateKeys(s: seq<Reading>)
    ensures Aggregate(s).Valid()
    ensures Aggregate(s).totals.Keys == Dates(s)
  {
    if s != [] {
      AggregateKeys(s[..|s| - 1]);
      DatesOfSnoc(s);
    }
  }

  /** The total stored under each date is the sum of the consumption of the
      readings on that date (and a date with no readings reads as 0). */
  lemma {:induction false} AggregateTotals(s: seq<Reading>, d: int)
    ensures Aggregate(s).Get(d) == TotalOn(s, d)
  {
    if s != [] {
      AggregateTotals(s[..|s| - 1], d);
    }
  }

  /** One iteration raises the sum of the dictionary's values by exactly the
      reading's consumption. */
  lemma AddConserves(daily: DailyConsumption, r: Reading)
    requires daily.Valid()
    ensures Sum(Add(daily, r).Values()) == Sum(daily.Values()) + r.kwh
  {
    if DateOf(r.time) in daily.totals {
      AddToKnownDate(daily, r);
    } else {
      AddNewDate(daily, r);
    }
  }

  /** A reading on a date already present raises that date's value in place. */
  lemma AddToKnownDate(daily: DailyConsumption, r: Reading)
    requires daily.Valid() && DateOf(r.time) in daily.totals
    ensures Sum(Add(daily, r).Values()) == Sum(daily.Values()) + r.kwh
  {
    var d := DateOf(r.time);
    var k :| 0 <= k < |daily.dates| && daily.dates[k] == d;
    var next := Add(daily, r);
    assert next.dates == daily.dates && next.totals == daily.totals[d := daily.Get(d) + r.kwh];
    var v := daily.Values();
    RaiseOneValue(daily, k, r.kwh);
    assert next.Values() == v[k := v[k] + r.kwh];
    SumUpdate(v, k, r.kwh);
  }

  /** Raising the total of the `k`-th key raises the `k`-th value and no other. */
  lemma RaiseOneValue(daily: DailyConsumption, k: int, x: real)
    requires daily.Valid() && 0 <= k < |daily.dates|
    ensures var d := daily.dates[k];
      DailyConsumption(daily.dates, daily.totals[d := daily.Get(d) + x]).Values()
        == daily.Values()[k := daily.Values()[k] + x]
  {
    var d := daily.dates[k];
    var v := daily.Values();
    var v' := DailyConsumption(daily.dates, daily.totals[d := daily.Get(d) + x]).Values();
    var w := v[k := v[k] + x];
    forall i | 0 <= i < |w|
      ensures v'[i] == w[i]
    {
      if i != k {
        assert daily.dates[i] != d;
      }
    }
  }

  /** A reading on a new date appends that date's value at the end. */
  lemma AddNewDate(daily: DailyConsumption, r: Reading)
    requires daily.Valid() && DateOf(r.time) !in daily.totals
    ensures Sum(Add(daily, r).Values()) == Sum(daily.Values()) + r.kwh
  {
    var d := DateOf(r.time);
    var next := Add(daily, r);
    assert next.dates == daily.dates + [d] && next.totals == daily.totals[d := r.kwh];
    AppendKey(daily, d, r.kwh);
    var v := daily.Values();
    assert (v + [r.kwh])[..|v|] == v;
  }

  /** Adding a new key appends its value after all the others. */
  lemma AppendKey(daily: DailyConsumption, d: int, x: real)
    requires daily.Valid() && d !in daily.totals
    ensures DailyConsumption(daily.dates + [d], daily.totals[d := x]).Values()
         == daily.Values() + [x]
  {
    var v := daily.Values();
    var v' := DailyConsumption(daily.dates + [d], daily.totals[d := x]).Values();
    forall i | 0 <= i < |v'|
      ensures v'[i] == (v + [x])[i]
    {
      if i < |v| {
        assert daily.dates[i] != d;
      }
    }
  }

  /** Conservation: the per-date totals add up to the total consumption of
      all readings. */
  lemma {:induction false} Conservation(s: seq<Reading>)
    ensures Sum(Aggregate(s).Values()) == Total(s)
  {
    if s != [] {
      Conservation(s[..|s| - 1]);
      AggregateKeys(s[..|s| - 1]);
      AddConserves(Aggregate(s[..|s| - 1]), s[|s| - 1]);
    }
  }
}
