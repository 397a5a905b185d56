/**
 * Hourly meter readings: a timestamp and the energy used in that hour, the
 * calendar date of a timestamp, the order in which the tracker sorts its
 * readings, and sums of consumption over a reading sequence.
 */
module Readings {

  /** Timestamps count microseconds from midnight of a fixed origin date, the
      resolution of the naive datetime values the tracker stores. */
  const MicrosPerHour: int := 3_600_000_000
  const MicrosPerDay: int := 86_400_000_000

  /** One (timestamp, consumption in kWh) pair of `energy_data`. */
  datatype Reading = Reading(time: int, kwh: real)

  /** The calendar date of a timestamp, as a day index: `datetime.date()`,
      which drops the time of day. */
  function DateOf(t: int): (d: int)
    ensures d * MicrosPerDay <= t < d * MicrosPerDay + MicrosPerDay
  {
    t / MicrosPerDay
  }

  /** Python's ordering of (timestamp, consumption) tuples: by timestamp, and
      on equal timestamps by consumption. */
  function Precedes(a: Reading, b: Reading): bool
  {
    a.time < b.time || (a.time == b.time && a.kwh <= b.kwh)
  }

  /** The tuple order is a total order on readings: any two are comparable,
      it is transitive, and two readings that precede each other are equal. */
  lemma PrecedesIsTotalOrder(a: Reading, b: Reading, c: Reading)
    ensures Precedes(a, b) || Precedes(b, a)
    ensures Precedes(a, b) && Precedes(b, a) ==> a == b
    ensures Precedes(a, b) && Precedes(b, c) ==> Precedes(a, c)
  {
  }

  predicate Sorted(s: seq<Reading>) {
    forall i, j :: 0 <= i < j < |s| ==> Precedes(s[i], s[j])
  }

  /** Places `x` into the sorted sequence `s`. */
  function Insert(x: Reading, s: seq<Reading>): (r: seq<Reading>)
    requires Sorted(s)
    ensures Sorted(r)
    ensures multiset(r) == multiset(s) + multiset{x}
  {
    if s == [] || Precedes(x, s[0]) then
      [x] + s
    else
      var rest := Insert(x, s[1..]);
      assert s == [s[0]] + s[1..];
      HeadPrecedesInsert(x, s, rest);
      [s[0]] + rest
  }

  /** The head of `s` precedes everything `Insert` puts after it. */
  lemma HeadPrecedesInsert(x: Reading, s: seq<Reading>, rest: seq<Reading>)
    requires Sorted(s) && s != [] && !Precedes(x, s[0]) && Sorted(rest)
    requires multiset(rest) == multiset(s[1..]) + multiset{x}
    ensures Sorted([s[0]] + rest)
  {
    forall j | 0 <= j < |rest|
      ensures Precedes(s[0], rest[j])
    {
      assert rest[j] in multiset(rest);
      if rest[j] != x {
        assert rest[j] in multiset(s[1..]);
        var k :| 0 <= k < |s[1..]| && s[1..][k] == rest[j];
        assert s[k + 1] == rest[j];
      }
    }
  }

  /** `list.sort()` on the reading list: the sorted permutation of `s`. */
  function SortReadings(s: seq<Reading>): (r: seq<Reading>)
    ensures Sorted(r)
    ensures multiset(r) == multiset(s)
  {
    if s == [] then [] else
      assert s == [s[0]] + s[1..];
      Insert(s[0], SortReadings(s[1..]))
  }

  /** Sorting a list that is already sorted leaves it as it is. */
  lemma {:induction false} SortSortedIsIdentity(s: seq<Reading>)
    requires Sorted(s)
    ensures SortReadings(s) == s
  {
    if s != [] {
      assert Sorted(s[1..]);
      SortSortedIsIdentity(s[1..]);
    }
  }

  /** A sorted reading list is in non-decreasing timestamp order. */
  lemma SortedByTime(s: seq<Reading>, i: int, j: int)
    requires Sorted(s) && 0 <= i <= j < |s|
    ensures s[i].time <= s[j].time
  {
    if i < j {
      assert Precedes(s[i], s[j]);
    }
  }

  /** Sum of the consumption of all readings. */
  function Total(s: seq<Reading>): real {
    if s == [] then 0.0 else Total(s[..|s| - 1]) + s[|s| - 1].kwh
  }

  /** Sum of the consumption of the readings dated `d`. */
  function TotalOn(s: seq<Reading>, d: int): real {
    if s == [] then 0.0
    else TotalOn(s[..|s| - 1], d) + (if DateOf(s[|s| - 1].time) == d then s[|s| - 1].kwh else 0.0)
  }

  /** The calendar dates the readings fall on. */
  function Dates(s: seq<Reading>): set<int> {
    set r | r in s :: DateOf(r.time)
  }

  lemma {:induction false} TotalAppend(a: seq<Reading>, b: seq<Reading>)
    ensures Total(a + b) == Total(a) + Total(b)
  {
    if b != [] {
      assert (a + b)[..|a + b| - 1] == a + b[..|b| - 1];
      TotalAppend(a, b[..|b| - 1]);
    } else {
      assert a + b == a;
    }
  }

  lemma {:induction false} TotalOnAppend(a: seq<Reading>, b: seq<Reading>, d: int)
    ensures TotalOn(a + b, d) == TotalOn(a, d) + TotalOn(b, d)
  {
    if b != [] {
      assert (a + b)[..|a + b| - 1] == a + b[..|b| - 1];
      TotalOnAppend(a, b[..|b| - 1], d);
    } else {
      assert a + b == a;
    }
  }

  /** Splits `t` around one occurrence of the last reading of `s`. */
  lemma SplitAtLast(s: seq<Reading>, t: seq<Reading>) returns (k: int)
    requires s != [] && multiset(s) == multiset(t)
    ensures 0 <= k < |t| && t[k] == s[|s| - 1]
    ensures t == t[..k] + [t[k]] + t[k + 1..]
    ensures multiset(s[..|s| - 1]) == multiset(t[..k] + t[k + 1..])
  {
    var x := s[|s| - 1];
    assert s == s[..|s| - 1] + [x];
    assert x in multiset(t);
    k :| 0 <= k < |t| && t[k] == x;
    assert t == t[..k] + [t[k]] + t[k + 1..];
    assert multiset(s) == multiset(s[..|s| - 1]) + multiset{x};
    assert multiset(t) == multiset(t[..k]) + multiset{x} + multiset(t[k + 1..]);
    assert multiset(t[..k] + t[k + 1..]) == multiset(t[..k]) + multiset(t[k + 1..]);
    assert multiset(s[..|s| - 1]) == multiset(s) - multiset{x};
    assert multiset(t[..k] + t[k + 1..]) == multiset(t) - multiset{x};
  }

  /** Reordering the readings does not change their total consumption. */
  lemma {:induction false} TotalPermutation(s: seq<Reading>, t: seq<Reading>)
    requires multiset(s) == multiset(t)
    ensures Total(s) == Total(t)
  {
    if s == [] {
      assert |t| == |multiset(t)| == 0;
    } else {
      var k := SplitAtLast(s, t);
      TotalPermutation(s[..|s| - 1], t[..k] + t[k + 1..]);
      TotalAppend(t[..k], t[k + 1..]);
      TotalAppend(t[..k] + [t[k]], t[k + 1..]);
    }
  }

  /** Reordering the readings does not change any date's total. */
  lemma {:induction false} TotalOnPermutation(s: seq<Reading>, t: seq<Reading>, d: int)
    requires multiset(s) == multiset(t)
    ensures TotalOn(s, d) == TotalOn(t, d)
  {
    if s == [] {
      assert |t| == |multiset(t)| == 0;
    } else {
      var k := SplitAtLast(s, t);
      TotalOnPermutation(s[..|s| - 1], t[..k] + t[k + 1..], d);
      TotalOnAppend(t[..k], t[k + 1..], d);
      TotalOnAppend(t[..k] + [t[k]], t[k + 1..], d);
    }
  }

  /** Reordering the readings does not change the set of dates. */
  lemma DatesPermutation(s: seq<Reading>, t: seq<Reading>)
    requires multiset(s) == multiset(t)
    ensures Dates(s) == Dates(t)
  {
    forall r ensures r in s <==> r in t {
      assert r in s <==> r in multiset(s);
      assert r in t <==> r in multiset(t);
    }
  }
}
