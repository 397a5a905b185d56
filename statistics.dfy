/**
 * The summary step of `analyze_data`: the mean, the maximum and the minimum
 * of the per-date totals, computed on mathematical reals.
 */
module Statistics {

  /** Sum of a list of reals, accumulated left to right. */
  function Sum(s: seq<real>): real {
    if s == [] then 0.0 else Sum(s[..|s| - 1]) + s[|s| - 1]
  }

  /** Raising one element by `x` raises the sum by `x`. */
  lemma {:induction false} SumUpdate(s: seq<real>, k: int, x: real)
    requires 0 <= k < |s|
    ensures Sum(s[k := s[k] + x]) == Sum(s) + x
  {
    var t := s[k := s[k] + x];
    if k < |s| - 1 {
      assert t[..|t| - 1] == s[..|s| - 1][k := s[k] + x];
      SumUpdate(s[..|s| - 1], k, x);
    } else {
      assert t[..|t| - 1] == s[..|s| - 1];
    }
  }

  /** If every element is at least `lo`, the sum is at least `|s| * lo`;
      if every element is at most `hi`, the sum is at most `|s| * hi`. */
  lemma {:induction false} SumBounds(s: seq<real>, lo: real, hi: real)
    requires forall i :: 0 <= i < |s| ==> lo <= s[i] <= hi
    ensures (|s| as real) * lo <= Sum(s) <= (|s| as real) * hi
  {
    if s != [] {
      var n := |s| - 1;
      SumBounds(s[..n], lo, hi);
      assert (|s| as real) * lo == (n as real) * lo + lo;
      assert (|s| as real) * hi == (n as real) * hi + hi;
    }
  }

  /** `max(values)`: scans left to right, keeping the first largest value. */
  function Max(s: seq<real>): (m: real)
    requires |s| > 0
    ensures m in s
    ensures forall i :: 0 <= i < |s| ==> s[i] <= m
  {
    if |s| == 1 then s[0] else
      var m := Max(s[..|s| - 1]);
      assert forall i :: 0 <= i < |s| - 1 ==> s[..|s| - 1][i] == s[i];
      if s[|s| - 1] > m then s[|s| - 1] else m
  }

  /** `min(values)`: scans left to right, keeping the first smallest value. */
  function Min(s: seq<real>): (m: real)
    requires |s| > 0
    ensures m in s
    ensures forall i :: 0 <= i < |s| ==> m <= s[i]
  {
    if |s| == 1 then s[0] else
      var m := Min(s[..|s| - 1]);
      assert forall i :: 0 <= i < |s| - 1 ==> s[..|s| - 1][i] == s[i];
      if s[|s| - 1] < m then s[|s| - 1] else m
  }

  /** `n` copies of `x` added up: `x * n` written with additions only. */
  function Times(x: real, n: nat): real {
    if n == 0 then 0.0 else Times(x, n - 1) + x
  }

  lemma {:induction false} TimesIsProduct(x: real, n: nat)
    ensures Times(x, n) == x * (n as real)
  {
    if n > 0 {
      TimesIsProduct(x, n - 1);
      assert x * (n as real) == x * ((n - 1) as real) + x;
    }
  }

  /** For a positive count, a larger value repeated gives a larger sum; so
      the repeated value is determined by the sum. */
  lemma {:induction false} TimesStrictlyMonotone(x: real, y: real, n: nat)
    requires x < y && n > 0
    ensures Times(x, n) < Times(y, n)
  {
    if n > 1 {
      TimesStrictlyMonotone(x, y, n - 1);
    }
  }

  /** The dictionary `analyze_data` returns on success. */
  datatype Summary = Summary(averageDailyUsage: real, peakUsage: real, offPeakUsage: real)

  /** `statistics.mean`, `max` and `min` of the per-date totals: the peak is
      the largest total, the off-peak the smallest, the average taken once
      per total adds up to the sum of the totals, and it lies between the
      off-peak and the peak. */
  function Summarize(values: seq<real>): (r: Summary)
    requires |values| > 0
    ensures Times(r.averageDailyUsage, |values|) == Sum(values)
    ensures r.peakUsage in values && forall i :: 0 <= i < |values| ==> values[i] <= r.peakUsage
    ensures r.offPeakUsage in values && forall i :: 0 <= i < |values| ==> r.offPeakUsage <= values[i]
    ensures r.offPeakUsage <= r.averageDailyUsage <= r.peakUsage
  {
    var n := |values| as real;
    var lo, hi := Min(values), Max(values);
    SumBounds(values, lo, hi);
    MeanBetween(Sum(values), n, lo, hi);
    TimesIsProduct(Sum(values) / n, |values|);
    Summary(Sum(values) / n, hi, lo)
  }

  /** Daily totals of 2.0, 4.0 and 3.0 give an average of 3.0, a peak of 4.0
      and an off-peak of 2.0. */
  lemma SummarizeThreeDays()
    ensures Summarize([2.0, 4.0, 3.0]) == Summary(3.0, 4.0, 2.0)
  {
    assert Sum([2.0, 4.0, 3.0]) == 9.0 by {
      assert [2.0, 4.0, 3.0][..2] == [2.0, 4.0];
      assert [2.0, 4.0][..1] == [2.0];
      assert [2.0][..0] == [];
    }
    assert Max([2.0, 4.0, 3.0]) == 4.0;
    assert Min([2.0, 4.0, 3.0]) == 2.0;
  }

  /** Dividing a sum that lies between `n * lo` and `n * hi` by `n` gives a
      value between `lo` and `hi`. */
  lemma MeanBetween(sum: real, n: real, lo: real, hi: real)
    requires n > 0.0 && n * lo <= sum <= n * hi
    ensures (sum / n) * n == sum
    ensures lo <= sum / n <= hi
  {
    var mean := sum / n;
    assert mean * n == sum;
    assert (mean - lo) * n == sum - n * lo;
    assert (hi - mean) * n == n * hi - sum;
  }
}
