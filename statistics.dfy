/**
 * The summary statistics the benchmark harness takes of a list of latencies:
 * Python's `min`, `max`, `statistics.mean`, `statistics.median` and
 * `statistics.stdev`, over exact reals.
 */
module Statistics {
  import opened Wrappers

  /** Python `min(xs)` of a non-empty list. */
  function Min(xs: seq<real>): (m: real)
    requires |xs| > 0
    ensures m in xs && forall i :: 0 <= i < |xs| ==> m <= xs[i]
    decreases |xs|
  {
    if |xs| == 1 then xs[0]
    else
      var rest := Min(xs[1..]);
      assert forall i :: 1 <= i < |xs| ==> xs[i] == xs[1..][i - 1];
      if xs[0] <= rest then xs[0] else rest
  }

  /** Python `max(xs)` of a non-empty list. */
  function Max(xs: seq<real>): (m: real)
    requires |xs| > 0
    ensures m in xs && forall i :: 0 <= i < |xs| ==> xs[i] <= m
    decreases |xs|
  {
    if |xs| == 1 then xs[0]
    else
      var rest := Max(xs[1..]);
      assert forall i :: 1 <= i < |xs| ==> xs[i] == xs[1..][i - 1];
      if xs[0] >= rest then xs[0] else rest
  }

  function Sum(xs: seq<real>): real
    decreases |xs|
  {
    if xs == [] then 0.0 else xs[0] + Sum(xs[1..])
  }

  /** A sum of values between `lo` and `hi` lies between `n * lo` and `n * hi`. */
  lemma {:induction false} SumBounds(xs: seq<real>, lo: real, hi: real)
    requires forall i :: 0 <= i < |xs| ==> lo <= xs[i] <= hi
    ensures (|xs| as real) * lo <= Sum(xs) <= (|xs| as real) * hi
    decreases |xs|
  {
    if xs != [] {
      assert forall i :: 0 <= i < |xs[1..]| ==> xs[1..][i] == xs[i + 1];
      SumBounds(xs[1..], lo, hi);
    }
  }

  /** `statistics.mean(xs)` of a non-empty list, as an exact real. */
  function Mean(xs: seq<real>): (r: real)
    requires |xs| > 0
    ensures Min(xs) <= r <= Max(xs)
  {
    AverageBetween(xs, Min(xs), Max(xs));
    Sum(xs) / (|xs| as real)
  }

  /** The sum divided by the count lies between any bounds of the samples. */
  lemma AverageBetween(xs: seq<real>, lo: real, hi: real)
    requires |xs| > 0
    requires forall i :: 0 <= i < |xs| ==> lo <= xs[i] <= hi
    ensures lo <= Sum(xs) / (|xs| as real) <= hi
  {
    SumBounds(xs, lo, hi);
    DivideBounds(Sum(xs), |xs| as real, lo, hi);
  }

  lemma MeanBetween(xs: seq<real>, lo: real, hi: real)
    requires |xs| > 0
    requires forall i :: 0 <= i < |xs| ==> lo <= xs[i] <= hi
    ensures lo <= Mean(xs) <= hi
  {
    AverageBetween(xs, lo, hi);
  }

  lemma DivideBounds(a: real, n: real, lo: real, hi: real)
    requires n > 0.0 && n * lo <= a <= n * hi
    ensures lo <= a / n <= hi
  {
    var q := a / n;
    assert a == n * q;
  }

  predicate SortedAsc(s: seq<real>) {
    forall i, j :: 0 <= i < j < |s| ==> s[i] <= s[j]
  }

  /** A list stays sorted when an element no larger than all of it is put in front. */
  lemma ConsSorted(h: real, t: seq<real>)
    requires SortedAsc(t) && forall k :: 0 <= k < |t| ==> h <= t[k]
    ensures SortedAsc([h] + t)
  {
    var r := [h] + t;
    forall i, j | 0 <= i < j < |r| ensures r[i] <= r[j] {
      if i > 0 {
        assert r[i] == t[i - 1] && r[j] == t[j - 1];
      } else {
        assert r[j] == t[j - 1];
      }
    }
  }

  /** A bound on every element of a multiset bounds every element of a list with that multiset. */
  lemma BoundedByMultiset(h: real, t: seq<real>, m: multiset<real>)
    requires multiset(t) == m && forall y :: y in m ==> h <= y
    ensures forall k :: 0 <= k < |t| ==> h <= t[k]
  {
    forall k | 0 <= k < |t| ensures h <= t[k] {
      assert t[k] in multiset(t);
    }
  }

  /** Inserting into a sorted list. */
  function Insert(x: real, s: seq<real>): (r: seq<real>)
    requires SortedAsc(s)
    ensures SortedAsc(r) && multiset(r) == multiset(s) + multiset{x} && |r| == |s| + 1
    decreases |s|
  {
    if s == [] then [x]
    else if x <= s[0] then
      ConsSorted(x, s);
      [x] + s
    else
      var t := Insert(x, s[1..]);
      assert s == [s[0]] + s[1..];
      forall y | y in multiset(s[1..]) + multiset{x} ensures s[0] <= y {
        if y != x {
          assert y in s[1..];
          var k :| 0 <= k < |s[1..]| && s[1..][k] == y;
          assert s[k + 1] == y;
        }
      }
      BoundedByMultiset(s[0], t, multiset(s[1..]) + multiset{x});
      ConsSorted(s[0], t);
      [s[0]] + t
  }

  /** Python `sorted(xs)`: the samples in ascending order. */
  function Sort(xs: seq<real>): (r: seq<real>)
    ensures SortedAsc(r) && multiset(r) == multiset(xs) && |r| == |xs|
    decreases |xs|
  {
    if xs == [] then []
    else
      assert xs == [xs[0]] + xs[1..];
      Insert(xs[0], Sort(xs[1..]))
  }

  /** The middle element of a list, or the mean of its two middle elements. */
  function MiddleOf(s: seq<real>): real
    requires |s| > 0
  {
    var n := |s|;
    if n % 2 == 1 then s[n / 2] else (s[n / 2 - 1] + s[n / 2]) / 2.0
  }

  /** `statistics.median(xs)` of a non-empty list: the middle of the sorted copy. */
  function Median(xs: seq<real>): (r: real)
    requires |xs| > 0
    ensures Min(xs) <= r <= Max(xs)
  {
    SortEnds(xs);
    MiddleBounds(Sort(xs));
    MiddleOf(Sort(xs))
  }

  /** The middle of a sorted list lies between its first and its last element. */
  lemma MiddleBounds(s: seq<real>)
    requires SortedAsc(s) && |s| > 0
    ensures s[0] <= MiddleOf(s) <= s[|s| - 1]
  {
    var n := |s|;
    var h := n / 2;
    assert 0 <= h < n;
    assert s[0] <= s[h] <= s[n - 1];
    if n % 2 == 0 {
      assert 1 <= h;
      assert s[0] <= s[h - 1] <= s[n - 1];
    }
  }

  /** A sorted rearrangement of `xs` starts with its minimum. */
  lemma SortedRearrangementFirst(s: seq<real>, xs: seq<real>)
    requires SortedAsc(s) && multiset(s) == multiset(xs) && |xs| > 0
    ensures |s| == |xs| && s[0] == Min(xs)
  {
    assert |s| == |multiset(xs)| == |xs|;
    var lo := Min(xs);
    assert s[0] in multiset(xs);
    var a :| 0 <= a < |xs| && xs[a] == s[0];
    assert lo in multiset(s);
    var i :| 0 <= i < |s| && s[i] == lo;
    assert s[0] <= s[i] && lo <= xs[a];
  }

  /** A sorted rearrangement of `xs` ends with its maximum. */
  lemma SortedRearrangementLast(s: seq<real>, xs: seq<real>)
    requires SortedAsc(s) && multiset(s) == multiset(xs) && |xs| > 0
    ensures |s| == |xs| && s[|s| - 1] == Max(xs)
  {
    assert |s| == |multiset(xs)| == |xs|;
    var n := |s|;
    var hi := Max(xs);
    assert s[n - 1] in multiset(xs);
    var b :| 0 <= b < |xs| && xs[b] == s[n - 1];
    assert hi in multiset(s);
    var j :| 0 <= j < n && s[j] == hi;
    assert s[j] <= s[n - 1] && xs[b] <= hi;
  }

  /** The sorted copy starts with the minimum and ends with the maximum. */
  lemma SortEnds(xs: seq<real>)
    requires |xs| > 0
    ensures Sort(xs)[0] == Min(xs) && Sort(xs)[|xs| - 1] == Max(xs)
  {
    SortedRearrangementFirst(Sort(xs), xs);
    SortedRearrangementLast(Sort(xs), xs);
  }

  /** Of a single sample, the mean and the median are that sample. */
  lemma SingleSample(x: real)
    ensures Mean([x]) == x && Median([x]) == x
  {
    assert [x][1..] == [];
    assert Sort([x]) == [x];
    assert Sum([x]) == x;
  }

  lemma SquareNonNegative(d: real)
    ensures d * d >= 0.0
  {
    if d < 0.0 {
      assert d * d == (-d) * (-d);
    }
  }

  /** The sum of squared distances from `c`. */
  function SquaredDeviations(xs: seq<real>, c: real): (r: real)
    ensures r >= 0.0
    decreases |xs|
  {
    if xs == [] then 0.0
    else
      SquareNonNegative(xs[0] - c);
      (xs[0] - c) * (xs[0] - c) + SquaredDeviations(xs[1..], c)
  }

  /** The sample variance of at least two samples (divisor `n - 1`). */
  function Variance(xs: seq<real>): (v: real)
    requires |xs| >= 2
    ensures v >= 0.0
  {
    SquaredDeviations(xs, Mean(xs)) / ((|xs| - 1) as real)
  }

  /**
   * A standard deviation, kept exact: the non-negative square root of `variance`.
   * Floating-point square roots are not part of this model.
   */
  datatype StdDev = SqrtOf(variance: real)

  /** `statistics.stdev` raised `StatisticsError`. */
  datatype StatisticsError = NeedsTwoDataPoints

  /** `statistics.stdev(xs)`: fails for fewer than two data points. */
  function Stdev(xs: seq<real>): (r: Result<StdDev, StatisticsError>)
    ensures r.Success? <==> |xs| >= 2
    ensures r.Success? ==> r.value.variance >= 0.0
  {
    if |xs| < 2 then Failure(NeedsTwoDataPoints) else Success(SqrtOf(Variance(xs)))
  }

  /** Identical samples have no spread. */
  lemma {:induction false} SquaredDeviationsConstant(xs: seq<real>, c: real)
    requires forall i :: 0 <= i < |xs| ==> xs[i] == c
    ensures SquaredDeviations(xs, c) == 0.0
    decreases |xs|
  {
    if xs != [] {
      assert forall i :: 0 <= i < |xs[1..]| ==> xs[1..][i] == xs[i + 1];
      SquaredDeviationsConstant(xs[1..], c);
    }
  }

  lemma VarianceOfIdenticalSamples(xs: seq<real>)
    requires |xs| >= 2 && forall i :: 0 <= i < |xs| ==> xs[i] == xs[0]
    ensures Variance(xs) == 0.0
  {
    SumBounds(xs, xs[0], xs[0]);
    var n := |xs| as real;
    assert Sum(xs) == n * xs[0];
    DivideBounds(Sum(xs), n, xs[0], xs[0]);
    assert Mean(xs) == xs[0];
    SquaredDeviationsConstant(xs, xs[0]);
  }
}
