/** The numeric reductions the aggregator applies to a list of values: the arithmetic mean,
    the population variance, and the percentile by linear interpolation between the two
    nearest ranks of the sorted list. Values are exact reals. */
module Statistics {

  /** Every value of `xs` lies in [lo, hi]. */
  predicate AllBetween(xs: seq<real>, lo: real, hi: real)
  {
    forall i :: 0 <= i < |xs| ==> lo <= xs[i] <= hi
  }

  function Sum(xs: seq<real>): real
  {
    if xs == [] then 0.0 else xs[0] + Sum(xs[1..])
  }

  /** The sum of values in [lo, hi] lies between n * lo and n * hi. */
  lemma {:induction false} SumBounds(xs: seq<real>, lo: real, hi: real)
    requires AllBetween(xs, lo, hi)
    ensures |xs| as real * lo <= Sum(xs) <= |xs| as real * hi
  {
    if xs != [] {
      var n := |xs[1..]| as real;
      assert AllBetween(xs[1..], lo, hi);
      SumBounds(xs[1..], lo, hi);
      assert |xs| as real * lo == lo + n * lo;
      assert |xs| as real * hi == hi + n * hi;
    }
  }

  /** The arithmetic mean: the sum divided by the length. */
  function Mean(xs: seq<real>): (r: real)
    requires |xs| > 0
    ensures |xs| == 1 ==> r == xs[0]
    ensures r * |xs| as real == Sum(xs)
  {
    assert |xs| == 1 ==> xs[1..] == [] && Sum(xs) == xs[0] + Sum([]);
    Sum(xs) / |xs| as real
  }

  /** The mean of values in [lo, hi] lies in [lo, hi]. */
  lemma MeanBounds(xs: seq<real>, lo: real, hi: real)
    requires |xs| > 0 && AllBetween(xs, lo, hi)
    ensures lo <= Mean(xs) <= hi
  {
    SumBounds(xs, lo, hi);
    QuotientBounds(Sum(xs), |xs| as real, lo, hi);
  }

  /** Dividing by a positive n maps [n * lo, n * hi] onto [lo, hi]. */
  lemma QuotientBounds(total: real, n: real, lo: real, hi: real)
    requires 0.0 < n && n * lo <= total <= n * hi
    ensures lo <= total / n <= hi
  {
    assert total / n - lo == (total - n * lo) / n;
    assert hi - total / n == (n * hi - total) / n;
  }

  /** A sum of non-negative values is non-negative. */
  lemma {:induction false} SumNonNegative(xs: seq<real>)
    requires forall i :: 0 <= i < |xs| ==> 0.0 <= xs[i]
    ensures 0.0 <= Sum(xs)
  {
    if xs != [] {
      SumNonNegative(xs[1..]);
    }
  }

  function Square(d: real): (r: real)
    ensures 0.0 <= r
  {
    d * d
  }

  /** The squared distance of each value from `mu`. */
  function SquaredDeviations(xs: seq<real>, mu: real): (r: seq<real>)
    ensures |r| == |xs|
    ensures forall i :: 0 <= i < |xs| ==> r[i] == Square(xs[i] - mu)
  {
    seq(|xs|, i requires 0 <= i < |xs| => Square(xs[i] - mu))
  }

  /** The population variance (divisor n): the mean squared deviation from the mean. */
  function Variance(xs: seq<real>): (r: real)
    requires |xs| > 0
    ensures 0.0 <= r
    ensures |xs| == 1 ==> r == 0.0
  {
    var devs := SquaredDeviations(xs, Mean(xs));
    SumNonNegative(devs);
    Mean(devs)
  }

  // ---------------------------------------------------------------------------
  // Sorting, the first step of a percentile

  predicate Sorted(s: seq<real>)
  {
    forall i, j :: 0 <= i < j < |s| ==> s[i] <= s[j]
  }

  /** A value below every element of a sorted list can be put in front of it. */
  lemma SortedCons(b: real, t: seq<real>)
    requires Sorted(t) && forall k :: 0 <= k < |t| ==> b <= t[k]
    ensures Sorted([b] + t)
  {
    var r := [b] + t;
    forall i, j | 0 <= i < j < |r| ensures r[i] <= r[j] {
      if i == 0 {
        assert r[j] == t[j - 1];
      } else {
        assert r[i] == t[i - 1] && r[j] == t[j - 1];
      }
    }
  }

  /** A lower bound of every element of `t` and of `x` bounds every element of a list
      holding the same values as `t` plus `x`. */
  lemma LowerBoundKept(b: real, t: seq<real>, x: real, r: seq<real>)
    requires forall k :: 0 <= k < |t| ==> b <= t[k]
    requires b <= x && multiset(r) == multiset(t) + multiset{x}
    ensures forall k :: 0 <= k < |r| ==> b <= r[k]
  {
    forall k | 0 <= k < |r| ensures b <= r[k] {
      assert r[k] in multiset(r);
      if r[k] != x {
        assert r[k] in multiset(t);
        assert r[k] in t;
      }
    }
  }

  /** Inserts `x` into a sorted list, keeping it sorted. */
  function Insert(x: real, s: seq<real>): (r: seq<real>)
    requires Sorted(s)
    ensures Sorted(r)
    ensures multiset(r) == multiset(s) + multiset{x}
    ensures |r| == |s| + 1
  {
    if s == [] || x <= s[0] then
      SortedCons(x, s);
      [x] + s
    else
      var tail := s[1..];
      assert s == [s[0]] + tail;
      var rest := Insert(x, tail);
      LowerBoundKept(s[0], tail, x, rest);
      SortedCons(s[0], rest);
      [s[0]] + rest
  }

  /** The sorted permutation of `xs`. */
  function Sort(xs: seq<real>): (r: seq<real>)
    ensures Sorted(r)
    ensures multiset(r) == multiset(xs)
    ensures |r| == |xs|
  {
    if xs == [] then []
    else
      assert xs == [xs[0]] + xs[1..];
      Insert(xs[0], Sort(xs[1..]))
  }

  /** Sorting keeps every value: bounds on the input are bounds on the sorted list. */
  lemma SortBetween(xs: seq<real>, lo: real, hi: real)
    requires AllBetween(xs, lo, hi)
    ensures AllBetween(Sort(xs), lo, hi)
  {
    var s := Sort(xs);
    forall k | 0 <= k < |s| ensures lo <= s[k] <= hi {
      assert s[k] in multiset(s);
      assert s[k] in multiset(xs);
      assert s[k] in xs;
    }
  }

  // ---------------------------------------------------------------------------
  // Percentile by linear interpolation

  /** The position of the q-th percentile in a sorted list of n values: q / 100 * (n - 1). */
  function Rank(n: nat, q: real): (v: real)
    requires n > 0 && 0.0 <= q <= 100.0
    ensures 0.0 <= v <= (n - 1) as real
  {
    ScaleMonotoneReal(q / 100.0, 1.0, (n - 1) as real);
    (q / 100.0) * (n - 1) as real
  }

  lemma ScaleMonotoneReal(a: real, b: real, c: real)
    requires 0.0 <= a <= b && 0.0 <= c
    ensures 0.0 <= a * c <= b * c
  {
    assert b * c - a * c == (b - a) * c;
  }

  /** A higher percentile sits at a higher rank. */
  lemma RankMonotone(n: nat, p: real, q: real)
    requires n > 0 && 0.0 <= p <= q <= 100.0
    ensures Rank(n, p) <= Rank(n, q)
  {
    assert p / 100.0 <= q / 100.0;
    ScaleMonotoneReal(p / 100.0, q / 100.0, (n - 1) as real);
  }

  /** The point a fraction t of the way from a to b. */
  function Lerp(a: real, b: real, t: real): (r: real)
    ensures a <= b && 0.0 <= t <= 1.0 ==> a <= r <= b
  {
    FractionOfGap(t, b - a);
    a + t * (b - a)
  }

  /** A fraction in [0, 1] of a non-negative gap lies between 0 and the gap. */
  lemma FractionOfGap(t: real, gap: real)
    ensures 0.0 <= t <= 1.0 && 0.0 <= gap ==> 0.0 <= t * gap <= gap
  {
    if 0.0 <= t <= 1.0 && 0.0 <= gap {
      ScaleMonotoneReal(t, 1.0, gap);
      assert 1.0 * gap == gap;
    }
  }

  /** Moving further along the way from a to b never goes back. */
  lemma LerpMonotone(a: real, b: real, t: real, u: real)
    requires a <= b && 0.0 <= t <= u
    ensures Lerp(a, b, t) <= Lerp(a, b, u)
  {
    ScaleMonotoneReal(t, u, b - a);
    assert t * (b - a) <= u * (b - a);
    assert Lerp(a, b, t) == a + t * (b - a);
    assert Lerp(a, b, u) == a + u * (b - a);
    assert a + t * (b - a) <= a + u * (b - a);
  }

  /** The index of the value at or below rank v. */
  function Below(v: real): (k: int)
    ensures k as real <= v < k as real + 1.0
  {
    v.Floor
  }

  /** The index of the value above rank v, clipped to the last index n - 1. */
  function Above(n: nat, v: real): (k: int)
    ensures k <= Below(v) + 1
    ensures 0.0 <= v <= (n - 1) as real ==> 0 <= Below(v) <= k < n && v <= k as real
  {
    if v.Floor + 1 < n then v.Floor + 1 else n - 1
  }

  /** Linear interpolation between the values either side of the rank, by the fractional
      part of the rank. */
  function Interpolate(s: seq<real>, v: real): (r: real)
    requires |s| > 0 && 0.0 <= v <= (|s| - 1) as real
    ensures v == Below(v) as real ==> r == s[Below(v)]
  {
    Lerp(s[Below(v)], s[Above(|s|, v)], v - Below(v) as real)
  }

  /** The q-th percentile of `xs` (0 <= q <= 100). */
  function Percentile(xs: seq<real>, q: real): (r: real)
    requires |xs| > 0 && 0.0 <= q <= 100.0
    ensures |xs| == 1 ==> r == xs[0]
  {
    Interpolate(Sort(xs), Rank(|xs|, q))
  }

  /** An interpolated value lies between the two values it interpolates. */
  lemma InterpolateBetween(s: seq<real>, v: real)
    requires |s| > 0 && 0.0 <= v <= (|s| - 1) as real && Sorted(s)
    ensures 0 <= Below(v) <= Above(|s|, v) < |s|
    ensures s[Below(v)] <= Interpolate(s, v) <= s[Above(|s|, v)]
  {
    assert s[Below(v)] <= s[Above(|s|, v)];
  }

  /** A percentile of values in [lo, hi] lies in [lo, hi]. */
  lemma PercentileBetween(xs: seq<real>, q: real, lo: real, hi: real)
    requires |xs| > 0 && 0.0 <= q <= 100.0 && AllBetween(xs, lo, hi)
    ensures lo <= Percentile(xs, q) <= hi
  {
    SortBetween(xs, lo, hi);
    InterpolateBetween(Sort(xs), Rank(|xs|, q));
  }

  /** Interpolating at a higher rank in a sorted list never gives a lower value. */
  lemma InterpolateMonotone(s: seq<real>, v: real, w: real)
    requires |s| > 0 && 0.0 <= v <= w <= (|s| - 1) as real && Sorted(s)
    ensures Interpolate(s, v) <= Interpolate(s, w)
  {
    InterpolateBetween(s, v);
    InterpolateBetween(s, w);
    if Below(v) == Below(w) {
      LerpMonotone(s[Below(v)], s[Above(|s|, v)], v - Below(v) as real, w - Below(w) as real);
    } else {
      assert Above(|s|, v) <= Below(w);
    }
  }

  /** A lower percentile never exceeds a higher one, so a percentile interval is well formed. */
  lemma PercentileMonotone(xs: seq<real>, p: real, q: real)
    requires |xs| > 0 && 0.0 <= p <= q <= 100.0
    ensures Percentile(xs, p) <= Percentile(xs, q)
  {
    RankMonotone(|xs|, p, q);
    InterpolateMonotone(Sort(xs), Rank(|xs|, p), Rank(|xs|, q));
  }
}
