/** The latency estimators of the benchmark harness (test/bench/measure.go), over the reals. */
module Quantile {

  /** One histogram bucket: its upper bound and the number of samples at or below it. */
  datatype Bucket = Bucket(bound: real, count: nat)

  function PowerOfTen(n: nat): (r: real)
    ensures r >= 1.0
  {
    if n == 0 then 1.0 else 10.0 * PowerOfTen(n - 1)
  }

  /** A bound this large is the +Inf bucket. */
  function Infinite(): (r: real)
    ensures r >= 1.0
  {
    PowerOfTen(300)
  }

  predicate Sorted(bs: seq<Bucket>)
  {
    forall i, j :: 0 <= i < j < |bs| ==> bs[i].bound <= bs[j].bound
  }

  /** What a scrape guarantees, in whatever order the buckets come: bounds are not negative and a larger bound counts
      at least as many samples. */
  predicate Histogram(bs: seq<Bucket>)
  {
    && (forall i :: 0 <= i < |bs| ==> bs[i].bound >= 0.0)
    && (forall i, j :: 0 <= i < |bs| && 0 <= j < |bs| && bs[i].bound <= bs[j].bound ==> bs[i].count <= bs[j].count)
  }

  // ----- The estimate as a function of the sorted buckets -----

  function LowerBound(bs: seq<Bucket>, i: nat): real
    requires i <= |bs|
  {
    if i == 0 then 0.0 else bs[i - 1].bound
  }

  function LowerCount(bs: seq<Bucket>, i: nat): real
    requires i <= |bs|
  {
    if i == 0 then 0.0 else bs[i - 1].count as real
  }

  /** The first bucket that holds the target rank, |bs| if there is none. */
  function Holding(bs: seq<Bucket>, target: real): (i: nat)
    ensures i <= |bs|
    ensures forall j :: 0 <= j < i ==> (bs[j].count as real) < target
    ensures i < |bs| ==> bs[i].count as real >= target
  {
    HoldingFrom(bs, target, 0)
  }

  function HoldingFrom(bs: seq<Bucket>, target: real, k: nat): (i: nat)
    requires k <= |bs|
    ensures k <= i <= |bs|
    ensures forall j :: k <= j < i ==> (bs[j].count as real) < target
    ensures i < |bs| ==> bs[i].count as real >= target
    decreases |bs| - k
  {
    if k == |bs| || bs[k].count as real >= target then k else HoldingFrom(bs, target, k + 1)
  }

  /** The value reported when bucket i is the one that holds the target. */
  function Within(bs: seq<Bucket>, i: nat, target: real): real
    requires i <= |bs|
  {
    if i == |bs| || bs[i].bound >= Infinite() then LowerBound(bs, i)
    else if bs[i].count as real == LowerCount(bs, i) then bs[i].bound
    else Interpolate(LowerBound(bs, i), bs[i].bound, LowerCount(bs, i), bs[i].count as real, target)
  }

  function Interpolate(lo: real, hi: real, before: real, upto: real, target: real): real
    requires before != upto
  {
    var frac := (target - before) / (upto - before);
    lo + frac * (hi - lo)
  }

  function Estimate(bs: seq<Bucket>, target: real): real
  {
    Within(bs, Holding(bs, target), target)
  }

  // ----- histogramQuantile -----

  predicate SortingOf(bs: seq<Bucket>, given: seq<Bucket>)
  {
    Sorted(bs) && multiset(bs) == multiset(given)
  }

  method HistogramQuantile(buckets: array<Bucket>, total: nat, q: real) returns (r: real)
    modifies buckets
    ensures SortingOf(buckets[..], old(buckets[..]))
    ensures buckets.Length == 0 ==> r == 0.0
    ensures r == Estimate(buckets[..], total as real * q)
  {
    if buckets.Length == 0 {
      return 0.0;
    }
    SortByBound(buckets);
    r := Scan(buckets, total as real * q);
  }

  /** The scan over the sorted buckets with its two loop-carried values. */
  method Scan(buckets: array<Bucket>, target: real) returns (r: real)
    ensures r == Estimate(buckets[..], target)
  {
    var prevCount, prevBound := 0.0, 0.0;
    ghost var bs := buckets[..];
    for i := 0 to buckets.Length
      invariant prevCount == LowerCount(bs, i) && prevBound == LowerBound(bs, i)
      invariant Holding(bs, target) == HoldingFrom(bs, target, i)
    {
      var count := buckets[i].count as real;
      if count >= target {
        var bound := buckets[i].bound;
        if bound >= Infinite() {
          return prevBound;
        }
        if count == prevCount {
          return bound;
        }
        return Interpolate(prevBound, bound, prevCount, count, target);
      }
      prevCount := count;
      prevBound := buckets[i].bound;
    }
    return prevBound;
  }

  /** sort.Slice by upper bound: the order of equal bounds is not part of the promise. */
  method SortByBound(a: array<Bucket>)
    modifies a
    ensures SortingOf(a[..], old(a[..]))
  {
    for n := 0 to a.Length
      invariant Sorted(a[..n])
      invariant multiset(a[..]) == multiset(old(a[..]))
    {
      SinkInto(a, n);
    }
    assert a[..a.Length] == a[..];
  }

  /** Moves a[n] down to its place among the sorted a[..n]. */
  method SinkInto(a: array<Bucket>, n: nat)
    requires n < a.Length && Sorted(a[..n])
    modifies a
    ensures Sorted(a[..n + 1])
    ensures multiset(a[..]) == multiset(old(a[..]))
  {
    var k := n;
    while k > 0 && a[k].bound < a[k - 1].bound
      invariant 0 <= k <= n
      invariant forall i, j :: 0 <= i < j <= n && j != k ==> a[i].bound <= a[j].bound
      invariant multiset(a[..]) == multiset(old(a[..]))
    {
      Swap(a, k);
      k := k - 1;
    }
  }

  method Swap(a: array<Bucket>, k: nat)
    requires 0 < k < a.Length
    modifies a
    ensures a[k] == old(a[k - 1]) && a[k - 1] == old(a[k])
    ensures forall i :: 0 <= i < a.Length && i != k && i != k - 1 ==> a[i] == old(a[i])
    ensures multiset(a[..]) == multiset(old(a[..]))
  {
    a[k], a[k - 1] := a[k - 1], a[k];
  }

  // ----- What the estimate means -----

  /** Any permutation of a histogram is one. */
  lemma HistogramPermuted(bs: seq<Bucket>, given: seq<Bucket>)
    requires multiset(bs) == multiset(given) && Histogram(given)
    ensures Histogram(bs)
  {
    forall i | 0 <= i < |bs| ensures exists k :: 0 <= k < |given| && given[k] == bs[i] {
      assert bs[i] in multiset(given);
    }
  }

  /** Counts follow the order of the sorted buckets. */
  lemma CountsGrow(bs: seq<Bucket>, i: nat, j: nat)
    requires Sorted(bs) && Histogram(bs) && i <= j < |bs|
    ensures LowerCount(bs, i) <= bs[j].count as real && 0.0 <= LowerBound(bs, i) <= bs[j].bound
    ensures LowerCount(bs, i) <= LowerCount(bs, j) && LowerBound(bs, i) <= LowerBound(bs, j)
  {
  }

  /** The estimate does not depend on how the sort breaks ties: a histogram has one sorted order. */
  lemma SortingUnique(a: seq<Bucket>, b: seq<Bucket>, given: seq<Bucket>)
    requires SortingOf(a, given) && SortingOf(b, given) && Histogram(given)
    ensures a == b
  {
    HistogramPermuted(a, given);
    HistogramPermuted(b, given);
    SameOrder(a, b);
  }

  predicate Rising(bs: seq<Bucket>)
  {
    Sorted(bs) && Histogram(bs)
  }

  lemma {:induction false} SameOrder(a: seq<Bucket>, b: seq<Bucket>)
    requires multiset(a) == multiset(b) && Rising(a) && Rising(b)
    ensures a == b
  {
    SameLength(a, b);
    if a != [] {
      Shorter(a, b);
      SameOrder(Front(a), Front(b));
      Rejoin(a, b);
    }
  }

  function Front(a: seq<Bucket>): seq<Bucket>
    requires a != []
  {
    a[..|a| - 1]
  }

  lemma Rejoin(a: seq<Bucket>, b: seq<Bucket>)
    requires a != [] && b != [] && Front(a) == Front(b) && a[|a| - 1] == b[|b| - 1]
    ensures a == b
  {
    assert a == Front(a) + [a[|a| - 1]] && b == Front(b) + [b[|b| - 1]];
  }

  lemma Shorter(a: seq<Bucket>, b: seq<Bucket>)
    requires |a| == |b| > 0 && multiset(a) == multiset(b) && Rising(a) && Rising(b)
    ensures a[|a| - 1] == b[|b| - 1]
    ensures multiset(Front(a)) == multiset(Front(b)) && Rising(Front(a)) && Rising(Front(b))
  {
    LastAgree(a, b);
    DropLast(a);
    DropLast(b);
  }

  lemma SameLength(a: seq<Bucket>, b: seq<Bucket>)
    requires multiset(a) == multiset(b)
    ensures |a| == |b|
  {
    assert |a| == |multiset(a)| && |b| == |multiset(b)|;
  }

  lemma DropLast(a: seq<Bucket>)
    requires a != []
    ensures multiset(Front(a)) == multiset(a) - multiset{a[|a| - 1]}
    ensures Rising(a) ==> Rising(Front(a))
  {
    assert a == Front(a) + [a[|a| - 1]];
  }

  lemma LastAgree(a: seq<Bucket>, b: seq<Bucket>)
    requires |a| == |b| > 0 && multiset(a) == multiset(b) && Rising(a) && Rising(b)
    ensures a[|a| - 1] == b[|b| - 1]
  {
    var n := |a| - 1;
    assert a[n] in multiset(b) && b[n] in multiset(a);
    var i :| 0 <= i <= n && a[i] == b[n];
    var j :| 0 <= j <= n && b[j] == a[n];
    assert a[i].bound <= a[n].bound && b[j].bound <= b[n].bound;
    assert a[i].count <= a[n].count && a[n].count <= a[i].count;
  }

  /** Bucket i is empty only if it is the first one and the target rank is not positive. */
  lemma EmptyBucket(bs: seq<Bucket>, target: real)
    requires Holding(bs, target) < |bs| && bs[Holding(bs, target)].count as real == LowerCount(bs, Holding(bs, target))
    ensures Holding(bs, target) == 0 && target <= 0.0
  {
    var i := Holding(bs, target);
    if i > 0 {
      assert (bs[i - 1].count as real) < target;
    }
  }

  /** In a finite bucket the estimate is the point of the bucket where the straight line through its two corners
      reaches the target rank; for a rank that is not negative it lies between the bucket's bounds. */
  lemma InterpolatesInBucket(bs: seq<Bucket>, target: real)
    requires Sorted(bs) && Histogram(bs)
    requires Holding(bs, target) < |bs| && bs[Holding(bs, target)].bound < Infinite()
    ensures var i := Holding(bs, target);
            var lo, hi := if i == 0 then 0.0 else bs[i - 1].bound, bs[i].bound;
            var before, upto := if i == 0 then 0.0 else bs[i - 1].count as real, bs[i].count as real;
            && (target > 0.0 ==> before < upto)
            && (before < upto ==> (Estimate(bs, target) - lo) * (upto - before) == (target - before) * (hi - lo))
            && (target >= 0.0 ==> lo <= Estimate(bs, target) <= hi)
  {
    var i := Holding(bs, target);
    CountsGrow(bs, i, i);
    if bs[i].count as real == LowerCount(bs, i) {
      EmptyBucket(bs, target);
    } else {
      assert i > 0 ==> (bs[i - 1].count as real) < target;
      Line(LowerBound(bs, i), bs[i].bound, LowerCount(bs, i), bs[i].count as real, target);
    }
  }

  /** The bucket for everything larger has no width: it reports the bound before it, as does a rank beyond all counts. A
      bucket that adds no samples reports its own bound. */
  lemma Unbounded(bs: seq<Bucket>, target: real)
    ensures var i := Holding(bs, target);
            var lo := if i == 0 then 0.0 else bs[i - 1].bound;
            && (i == |bs| ==> Estimate(bs, target) == lo)
            && (i < |bs| && bs[i].bound >= Infinite() ==> Estimate(bs, target) == lo)
            && (i < |bs| && bs[i].bound < Infinite() &&
                bs[i].count as real == (if i == 0 then 0.0 else bs[i - 1].count as real) ==>
                  Estimate(bs, target) == bs[i].bound)
  {
  }

  /** The limit is 1e300. */
  lemma InfiniteMeans(n: nat)
    requires n == 100
    ensures Infinite() == PowerOfTen(n) * PowerOfTen(n) * PowerOfTen(n)
  {
    Powers(n, n);
    Powers(n + n, n);
    assert n + n + n == 300;
  }

  lemma {:induction false} Powers(m: nat, n: nat)
    ensures PowerOfTen(m + n) == PowerOfTen(m) * PowerOfTen(n)
  {
    if m > 0 {
      Powers(m - 1, n);
      assert PowerOfTen(m + n) == 10.0 * PowerOfTen(m - 1 + n);
    }
  }

  lemma Line(lo: real, hi: real, before: real, upto: real, target: real)
    requires lo <= hi && before < upto && target <= upto
    ensures (Interpolate(lo, hi, before, upto, target) - lo) * (upto - before) == (target - before) * (hi - lo)
    ensures before <= target ==> lo <= Interpolate(lo, hi, before, upto, target)
    ensures Interpolate(lo, hi, before, upto, target) <= hi
  {
    var d := hi - lo;
    var frac := Quotient(target - before, upto - before);
    assert Interpolate(lo, hi, before, upto, target) == lo + frac * d;
    Part(frac, d);
    Reorder(frac, d, upto - before);
  }

  lemma Part(frac: real, d: real)
    requires d >= 0.0
    ensures frac <= 1.0 ==> frac * d <= d
    ensures frac >= 0.0 ==> frac * d >= 0.0
  {
    if frac <= 1.0 {
      Times(frac, 1.0, d);
    }
  }

  function Quotient(a: real, c: real): (f: real)
    requires c > 0.0
    ensures f * c == a && (a <= c ==> f <= 1.0) && (a >= 0.0 ==> f >= 0.0)
  {
    Divide(a, c, c);
    Divide(0.0, a, c);
    a / c
  }

  lemma Reorder(f: real, x: real, y: real)
    ensures (f * x) * y == (f * y) * x
  {
  }

  lemma Times(a: real, b: real, c: real)
    requires a <= b && c >= 0.0
    ensures a * c <= b * c
  {
  }

  lemma LineGrows(lo: real, hi: real, before: real, upto: real, t1: real, t2: real)
    requires lo <= hi && before < upto && t1 <= t2
    ensures Interpolate(lo, hi, before, upto, t1) <= Interpolate(lo, hi, before, upto, t2)
  {
    Divide(t1 - before, t2 - before, upto - before);
    Times((t1 - before) / (upto - before), (t2 - before) / (upto - before), hi - lo);
  }

  lemma Divide(a: real, b: real, c: real)
    requires c > 0.0
    ensures a <= b ==> a / c <= b / c
    ensures 0.0 / c == 0.0 && c / c == 1.0
  {
    if a <= b {
      var f, g := a / c, b / c;
      assert f * c == a && g * c == b;
      if g < f {
        Bigger(g, f, c);
      }
    }
  }

  lemma Bigger(a: real, b: real, c: real)
    requires a < b && c > 0.0
    ensures a * c < b * c
  {
  }

  /** The estimate never exceeds the upper bound of the bucket, and never falls below its lower bound unless the
      target rank is negative. */
  lemma Bracketed(bs: seq<Bucket>, target: real)
    requires Sorted(bs) && Histogram(bs)
    ensures var i := Holding(bs, target);
            && (i < |bs| ==> Estimate(bs, target) <= bs[i].bound)
            && (i > 0 ==> LowerBound(bs, i) <= Estimate(bs, target))
  {
    var i := Holding(bs, target);
    if i < |bs| {
      CountsGrow(bs, i, i);
      if bs[i].bound < Infinite() {
        if bs[i].count as real == LowerCount(bs, i) {
          EmptyBucket(bs, target);
        } else {
          Line(LowerBound(bs, i), bs[i].bound, LowerCount(bs, i), bs[i].count as real, target);
        }
      }
    }
  }

  lemma HoldingGrows(bs: seq<Bucket>, t1: real, t2: real)
    requires t1 <= t2
    ensures Holding(bs, t1) <= Holding(bs, t2)
  {
  }

  /** The estimate is monotone in the target rank, without a restriction on the rank. */
  lemma EstimateMonotone(bs: seq<Bucket>, t1: real, t2: real)
    requires Sorted(bs) && Histogram(bs) && t1 <= t2
    ensures Estimate(bs, t1) <= Estimate(bs, t2)
  {
    var i, j := Holding(bs, t1), Holding(bs, t2);
    HoldingGrows(bs, t1, t2);
    if i < j {
      Bracketed(bs, t1);
      Bracketed(bs, t2);
      assert bs[i].bound <= LowerBound(bs, j);
    } else if i < |bs| && bs[i].bound < Infinite() && bs[i].count as real != LowerCount(bs, i) {
      CountsGrow(bs, i, i);
      LineGrows(LowerBound(bs, i), bs[i].bound, LowerCount(bs, i), bs[i].count as real, t1, t2);
    }
  }

  /** Two quantiles of one histogram, each taken after its own sort of the buckets, come out in order. */
  lemma QuantileMonotone(given: seq<Bucket>, a: seq<Bucket>, b: seq<Bucket>, total: nat, q1: real, q2: real)
    requires Histogram(given) && SortingOf(a, given) && SortingOf(b, given) && q1 <= q2
    ensures Estimate(a, total as real * q1) <= Estimate(b, total as real * q2)
  {
    SortingUnique(a, b, given);
    HistogramPermuted(a, given);
    Times(q1, q2, total as real);
    EstimateMonotone(a, total as real * q1, total as real * q2);
  }

  // ----- quantiles -----

  function Ceil(x: real): (k: int)
    ensures k as real >= x > (k - 1) as real
  {
    -((-x).Floor)
  }

  lemma CeilGrows(x: real, y: real)
    requires x <= y
    ensures Ceil(x) <= Ceil(y)
  {
  }

  /** The position of a fraction on a scale from 0 to m. */
  function Share(m: real, frac: real): (x: real)
    requires m >= 0.0 && 0.0 <= frac <= 1.0
    ensures 0.0 <= x <= m && x == frac * m
  {
    Part(frac, m);
    frac * m
  }

  /** Nearest rank, rounded up. */
  function Rank(n: nat, frac: real): (k: int)
    requires n > 0 && 0.0 <= frac <= 1.0
    ensures 0 <= k < n
    ensures k as real >= Share((n - 1) as real, frac) > (k - 1) as real
  {
    Ceil(Share((n - 1) as real, frac))
  }

  /** p covers the fraction: it is the sample at the position that the fraction of the last position comes to, rounded
      up; those up to it are not larger and the later ones not smaller. */
  predicate Covers(d: seq<int>, frac: real, p: int)
  {
    exists k :: 0 <= k < |d| && d[k] == p && k as real >= frac * (|d| - 1) as real > (k - 1) as real &&
      (forall i :: 0 <= i <= k ==> d[i] <= p) && (forall i :: k <= i < |d| ==> p <= d[i])
  }

  predicate Ascending(d: seq<int>)
  {
    forall i, j :: 0 <= i < j < |d| ==> d[i] <= d[j]
  }

  /** quantiles: on any input the three ranks are in range; on sorted input they mean what their names say. */
  method Quantiles(d: seq<int>) returns (p50: int, p95: int, p99: int)
    ensures d == [] ==> p50 == p95 == p99 == 0
    ensures d != [] ==> p50 in d && p95 in d && p99 in d
    ensures Ascending(d) ==> p50 <= p95 <= p99
    ensures Ascending(d) && d != [] ==> Covers(d, 0.50, p50) && Covers(d, 0.95, p95) && Covers(d, 0.99, p99)
  {
    if |d| == 0 {
      return 0, 0, 0;
    }
    p50, p95, p99 := d[Rank(|d|, 0.50)], d[Rank(|d|, 0.95)], d[Rank(|d|, 0.99)];
    RankGrows(|d|, 0.50, 0.95);
    RankGrows(|d|, 0.95, 0.99);
    if Ascending(d) {
      RankCovers(d, 0.50);
      RankCovers(d, 0.95);
      RankCovers(d, 0.99);
    }
  }

  lemma RankCovers(d: seq<int>, frac: real)
    requires d != [] && Ascending(d) && 0.0 <= frac <= 1.0
    ensures Covers(d, frac, d[Rank(|d|, frac)])
  {
    var k := Rank(|d|, frac);
    assert Share((|d| - 1) as real, frac) == frac * (|d| - 1) as real;
    assert forall i :: 0 <= i <= k ==> d[i] <= d[k];
    assert forall i :: k <= i < |d| ==> d[k] <= d[i];
  }

  lemma RankGrows(n: nat, f1: real, f2: real)
    requires n > 0 && 0.0 <= f1 <= f2 <= 1.0
    ensures Rank(n, f1) <= Rank(n, f2)
  {
    ShareGrows((n - 1) as real, f1, f2);
    CeilGrows(Share((n - 1) as real, f1), Share((n - 1) as real, f2));
  }

  lemma ShareGrows(m: real, f1: real, f2: real)
    requires m >= 0.0 && 0.0 <= f1 <= f2 <= 1.0
    ensures Share(m, f1) <= Share(m, f2)
  {
    Part(f2 - f1, m);
    assert Share(m, f2) - Share(m, f1) == (f2 - f1) * m;
  }
}
