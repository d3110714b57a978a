/**
 * Largest-Triangle-Three-Buckets downsampling of power curves, with the bucket size n-2 over
 * target-2 as an exact rational.
 */
module Downsample {
  import opened Common

  datatype Point = Point(timestamp: real, power: real)

  // ----- bucket arithmetic -----

  /** Position of bucket boundary i: floor(i * (n-2) / (target-2)). */
  function Boundary(n: int, target: int, i: nat): nat
    requires n > target >= 3
  {
    i * (n - 2) / (target - 2)
  }

  /** Bucket i is the half-open index range [Low, High). */
  function Low(n: int, target: int, i: nat): nat
    requires n > target >= 3 && i >= 1
  {
    Boundary(n, target, i - 1) + 1
  }

  function High(n: int, target: int, i: nat): nat
    requires n > target >= 3
  {
    if Boundary(n, target, i) < n then Boundary(n, target, i) else n
  }

  lemma DivStep(x: nat, a: nat, b: nat)
    requires a > b > 0
    ensures (x + a) / b >= x / b + 1
  {
    var q := x / b;
    assert q * b <= x;
    assert (q + 1) * b <= x + a;
    DivAtLeast(x + a, b, q + 1);
  }

  lemma DivAtLeast(x: nat, b: nat, q: nat)
    requires b > 0 && q * b <= x
    ensures x / b >= q
  {
    MulOrder(x / b, q, b);
  }

  lemma {:induction false} MulOrder(p: nat, q: nat, b: nat)
    ensures p < q ==> p * b + b <= q * b
    decreases q
  {
    if p < q {
      MulStep(q, b);
      MulOrder(p, q - 1, b);
    }
  }

  lemma MulStep(q: nat, b: nat)
    requires q > 0
    ensures q * b == (q - 1) * b + b
  {}

  /** Boundaries are strictly increasing: no bucket of the average is ever empty. */
  lemma BoundaryStep(n: int, target: int, i: nat)
    requires n > target >= 3
    ensures Boundary(n, target, i + 1) >= Boundary(n, target, i) + 1
  {
    DivStep(i * (n - 2), n - 2, target - 2);
    assert (i + 1) * (n - 2) == i * (n - 2) + (n - 2);
  }

  lemma {:induction false} BoundaryMonotone(n: int, target: int, i: nat, j: nat)
    requires n > target >= 3 && i <= j
    ensures Boundary(n, target, j) >= Boundary(n, target, i) + (j - i)
    decreases j
  {
    if i < j {
      BoundaryMonotone(n, target, i, j - 1);
      BoundaryStep(n, target, j - 1);
    }
  }

  lemma BoundaryEnds(n: int, target: int)
    requires n > target >= 3
    ensures Boundary(n, target, 0) == 0 && Boundary(n, target, target - 2) == n - 2
  {
    var a, b := n - 2, target - 2;
    assert b * a / b == a by { DivExact(a, b); }
  }

  lemma DivExact(a: nat, b: nat)
    requires b > 0
    ensures b * a / b == a
  {
    DivAtLeast(b * a, b, a);
    var q := b * a / b;
    assert q * b <= b * a;
    MulOrder(a, q, b);
  }

  /** Every division by the size of the next bucket is by a positive number, inside the data. */
  lemma NextBucketNonEmpty(n: int, target: int, i: nat)
    requires n > target >= 3 && 1 <= i <= target - 2
    ensures Boundary(n, target, i) < High(n, target, i + 1) <= n
    ensures Boundary(n, target, i) <= n - 2
    ensures 1 <= Low(n, target, i) <= Boundary(n, target, i) == High(n, target, i)
  {
    BoundaryStep(n, target, i);
    BoundaryStep(n, target, i - 1);
    BoundaryEnds(n, target);
    BoundaryMonotone(n, target, i, target - 2);
  }

  /** Point k competes in bucket j. */
  predicate CompetesIn(n: int, target: int, j: nat, k: int)
    requires n > target >= 3
  {
    1 <= j <= target - 2 && Low(n, target, j) <= k < High(n, target, j)
  }

  /** Point k lies on the boundary behind bucket i. */
  predicate OnBoundary(n: int, target: int, i: nat, k: int)
    requires n > target >= 3
  {
    1 <= i <= target - 2 && Boundary(n, target, i) == k
  }

  /** The point on a boundary belongs to no bucket. */
  lemma BoundaryPointNeverCompetes(n: int, target: int, i: nat, j: nat, k: int)
    requires n > target >= 3
    ensures OnBoundary(n, target, i, k) ==> !CompetesIn(n, target, j, k)
  {
    hide Boundary;
    if OnBoundary(n, target, i, k) && 1 <= j <= target - 2 {
      NextBucketNonEmpty(n, target, j);
      if j <= i {
        BoundaryMonotone(n, target, j, i);
      } else {
        BoundaryMonotone(n, target, i, j - 1);
      }
    }
  }

  /** Every point between the first and boundary m has a bucket or a boundary. */
  lemma {:induction false} PlaceOf(n: int, target: int, m: nat, k: int) returns (j: nat)
    requires n > target >= 3 && 1 <= m <= target - 2 && 1 <= k <= Boundary(n, target, m)
    ensures CompetesIn(n, target, j, k) || OnBoundary(n, target, j, k)
    decreases m
  {
    hide Boundary;
    BoundaryEnds(n, target);
    if m > 1 && k <= Boundary(n, target, m - 1) {
      j := PlaceOf(n, target, m - 1, k);
    } else {
      j := m;
      NextBucketNonEmpty(n, target, m);
    }
  }

  /** Which points compete: every point between the first and the last, except exactly those on a
      boundary. */
  lemma {:induction false} CompetesUnlessOnBoundary(n: int, target: int, k: int)
    requires n > target >= 3 && 1 <= k <= n - 2
    ensures (exists j :: CompetesIn(n, target, j, k)) <==> !exists i :: OnBoundary(n, target, i, k)
  {
    BoundaryEnds(n, target);
    hide Boundary, CompetesIn, OnBoundary;
    var p := PlaceOf(n, target, target - 2, k);
    forall i: nat, j: nat ensures OnBoundary(n, target, i, k) ==> !CompetesIn(n, target, j, k) {
      BoundaryPointNeverCompetes(n, target, i, j, k);
    }
  }

  /** A boundary is the largest index at or below i buckets' worth of points. */
  lemma BoundaryIsFloor(n: int, target: int, i: nat)
    requires n > target >= 3
    ensures var q := Boundary(n, target, i); q * (target - 2) <= i * (n - 2) < (q + 1) * (target - 2)
  {
    var x, b := i * (n - 2), target - 2;
    assert x == b * (x / b) + x % b;
  }

  // ----- the choice in each bucket -----

  function Sum(xs: seq<real>): real {
    if xs == [] then 0.0 else Sum(xs[..|xs| - 1]) + xs[|xs| - 1]
  }

  function Timestamps(ps: seq<Point>): seq<real> {
    seq(|ps|, k requires 0 <= k < |ps| => ps[k].timestamp)
  }

  function Powers(ps: seq<Point>): seq<real> {
    seq(|ps|, k requires 0 <= k < |ps| => ps[k].power)
  }

  /** The average point of the bucket after bucket i. */
  function NextAverage(ps: seq<Point>, target: int, i: nat): Point
    requires |ps| > target >= 3 && 1 <= i <= target - 2
  {
    NextBucketNonEmpty(|ps|, target, i);
    var lo, hi := Boundary(|ps|, target, i), High(|ps|, target, i + 1);
    Point(Sum(Timestamps(ps)[lo..hi]) / (hi - lo) as real, Sum(Powers(ps)[lo..hi]) / (hi - lo) as real)
  }

  lemma {:induction false} SumOfParts(xs: seq<real>, ys: seq<real>)
    ensures Sum(xs + ys) == Sum(xs) + Sum(ys)
    ensures forall x :: Sum([x]) == x
  {
    forall x ensures Sum([x]) == x { assert [x][..0] == []; }
    if ys == [] {
      assert xs + ys == xs;
    } else {
      SumOfParts(xs, ys[..|ys| - 1]);
      assert (xs + ys)[..|xs + ys| - 1] == xs + ys[..|ys| - 1];
    }
  }

  lemma {:induction false} SumBounds(xs: seq<real>, low: real, high: real)
    requires forall k :: 0 <= k < |xs| ==> low <= xs[k] <= high
    ensures low * |xs| as real <= Sum(xs) <= high * |xs| as real
  {
    if xs != [] {
      var n := |xs| - 1;
      SumBounds(xs[..n], low, high);
      assert |xs| as real == n as real + 1.0;
      assert low * |xs| as real == low * n as real + low && high * |xs| as real == high * n as real + high;
    }
  }

  lemma MeanBounds(sum: real, n: real, low: real, high: real)
    requires n > 0.0 && low * n <= sum <= high * n
    ensures low <= sum / n <= high && sum / n * n == sum
  {
    Quotient(sum, n);
    ScaledOrder(low, sum / n, n);
    ScaledOrder(sum / n, high, n);
  }

  /** The average is taken over exactly the points from boundary i on, up to but without boundary i + 1
      or the end of the data: times their number it is their sum, and it lies among them. */
  lemma {:induction false} NextAverageIsMean(ps: seq<Point>, target: int, i: nat, low: real, high: real)
    requires |ps| > target >= 3 && 1 <= i <= target - 2
    requires forall k :: Boundary(|ps|, target, i) <= k < |ps| && k < Boundary(|ps|, target, i + 1) ==>
               low <= ps[k].power <= high
    ensures var a, lo := NextAverage(ps, target, i), Boundary(|ps|, target, i);
            var hi := if Boundary(|ps|, target, i + 1) < |ps| then Boundary(|ps|, target, i + 1) else |ps|;
            && lo < hi <= |ps| && low <= a.power <= high
            && a.power * (hi - lo) as real == Sum(Powers(ps[lo..hi]))
            && a.timestamp * (hi - lo) as real == Sum(Timestamps(ps[lo..hi]))
  {
    hide Boundary, Sum;
    NextBucketNonEmpty(|ps|, target, i);
    var lo, hi := Boundary(|ps|, target, i), High(|ps|, target, i + 1);
    assert Powers(ps)[lo..hi] == Powers(ps[lo..hi]) && Timestamps(ps)[lo..hi] == Timestamps(ps[lo..hi]);
    var sum, ts := Sum(Powers(ps[lo..hi])), Sum(Timestamps(ps[lo..hi]));
    SumBounds(Powers(ps[lo..hi]), low, high);
    MeanBounds(sum, (hi - lo) as real, low, high);
    Quotient(ts, (hi - lo) as real);
  }

  lemma ScaledOrder(a: real, b: real, n: real)
    requires n > 0.0 && a * n <= b * n
    ensures a <= b
  {}

  lemma Quotient(x: real, n: real)
    requires n > 0.0
    ensures x / n * n == x
  {}

  /** Twice the area of the triangle prev, p, avg, with the sign of its orientation. */
  function SignedArea(prev: Point, avg: Point, p: Point): real {
    (prev.timestamp - avg.timestamp) * (p.power - prev.power)
    - (prev.timestamp - p.timestamp) * (avg.power - prev.power)
  }

  function Area(prev: Point, avg: Point, p: Point): (r: real)
    ensures r >= 0.0
  {
    var a := SignedArea(prev, avg, p);
    if a < 0.0 then -a else a
  }

  function CornerDeterminant(a: Point, b: Point, c: Point): real {
    a.timestamp * (c.power - b.power) + c.timestamp * (b.power - a.power) + b.timestamp * (a.power - c.power)
  }

  lemma SignedAreaIsDeterminant(prev: Point, avg: Point, p: Point)
    ensures SignedArea(prev, avg, p) == CornerDeterminant(prev, avg, p)
  {
    Determinant(prev.timestamp, prev.power, avg.timestamp, avg.power, p.timestamp, p.power);
  }

  /** The compared number is the absolute value of the determinant of the three corners. */
  lemma AreaIsDeterminant(prev: Point, avg: Point, p: Point)
    ensures var d := CornerDeterminant(prev, avg, p); Area(prev, avg, p) == if d < 0.0 then -d else d
  {
    hide SignedArea, CornerDeterminant;
    SignedAreaIsDeterminant(prev, avg, p);
  }

  lemma Determinant(t0: real, p0: real, t1: real, p1: real, t: real, p: real)
    ensures (t0 - t1) * (p - p0) - (t0 - t) * (p1 - p0) == t0 * (p - p1) + t * (p1 - p0) + t1 * (p0 - p)
  {
    Expand(t0, t1, p, p0);
    Expand(t0, t, p1, p0);
    Distribute(t0, p, p1);
    Distribute(t, p1, p0);
    Distribute(t1, p0, p);
  }

  lemma Distribute(a: real, c: real, d: real)
    ensures a * (c - d) == a * c - a * d
  {}

  lemma Expand(a: real, b: real, c: real, d: real)
    ensures (a - b) * (c - d) == a * c - a * d - b * c + b * d
  {}

  /** k is the first point of bucket i with the largest triangle; an empty bucket yields its start. */
  ghost predicate Picked(ps: seq<Point>, target: int, i: nat, prev: int, k: int)
    requires |ps| > target >= 3 && 1 <= i <= target - 2
  {
    var lo, hi := Low(|ps|, target, i), High(|ps|, target, i);
    if lo >= hi then k == lo
    else
      && 0 <= prev < |ps| && lo <= k < hi <= |ps|
      && (forall j :: lo <= j < hi ==>
            Area(ps[prev], NextAverage(ps, target, i), ps[j]) <= Area(ps[prev], NextAverage(ps, target, i), ps[k]))
      && (forall j :: lo <= j < k ==>
            Area(ps[prev], NextAverage(ps, target, i), ps[j]) < Area(ps[prev], NextAverage(ps, target, i), ps[k]))
  }

  /** The indices of a complete downsampling. */
  ghost predicate Chosen(ps: seq<Point>, target: int, idx: seq<int>)
    requires |ps| > target >= 3
  {
    && |idx| == target && idx[0] == 0 && idx[target - 1] == |ps| - 1
    && forall i: nat :: 1 <= i <= target - 2 ==> Picked(ps, target, i, idx[i - 1], idx[i])
  }

  lemma PickedInRange(ps: seq<Point>, target: int, i: nat, prev: int, k: int)
    requires |ps| > target >= 3 && 1 <= i <= target - 2 && Picked(ps, target, i, prev, k)
    ensures Boundary(|ps|, target, i - 1) < k <= Boundary(|ps|, target, i) <= |ps| - 2
  {
    hide NextAverage, Area, Boundary;
    NextBucketNonEmpty(|ps|, target, i);
  }

  /** The point picked for a bucket is the one on its boundary if and only if the bucket is empty. */
  lemma BoundaryPickedExactlyIfEmpty(ps: seq<Point>, target: int, i: nat, prev: int, k: int)
    requires |ps| > target >= 3 && 1 <= i <= target - 2 && Picked(ps, target, i, prev, k)
    ensures OnBoundary(|ps|, target, i, k) <==> forall p :: !CompetesIn(|ps|, target, i, p)
    ensures OnBoundary(|ps|, target, i, k) <==> Boundary(|ps|, target, i) == Boundary(|ps|, target, i - 1) + 1
  {
    hide NextAverage, Area, Boundary;
    NextBucketNonEmpty(|ps|, target, i);
    if !OnBoundary(|ps|, target, i, k) {
      assert CompetesIn(|ps|, target, i, k);
    }
  }

  /** Strictly increasing positions of the data, from the first point to the last. */
  ghost predicate Subsequence(idx: seq<int>, n: int) {
    && (forall i, j :: 0 <= i < j < |idx| ==> idx[i] < idx[j])
    && (forall i :: 0 <= i < |idx| ==> 0 <= idx[i] < n)
  }

  lemma {:induction false} PicksIncrease(ps: seq<Point>, target: int, idx: seq<int>, i: nat, j: nat)
    requires |ps| > target >= 3 && Chosen(ps, target, idx) && i < j < target
    ensures idx[i] < idx[j] && 0 <= idx[i]
    decreases j
  {
    hide Picked, Boundary;
    if i + 1 < j {
      PicksIncrease(ps, target, idx, i, j - 1);
    }
    if j <= target - 2 {
      PickedInRange(ps, target, j, idx[j - 1], idx[j]);
    }
    if j >= 2 {
      PickedInRange(ps, target, j - 1, idx[j - 2], idx[j - 1]);
    }
    if 1 <= i {
      PickedInRange(ps, target, i, idx[i - 1], idx[i]);
    }
  }

  /** The output takes distinct points in order and keeps both ends. */
  lemma DownsampleIsSubsequence(ps: seq<Point>, target: int, idx: seq<int>)
    requires |ps| > target >= 3 && Chosen(ps, target, idx)
    ensures Subsequence(idx, |ps|)
  {
    hide Picked;
    forall i, j | 0 <= i < j < |idx| ensures idx[i] < idx[j] {
      PicksIncrease(ps, target, idx, i, j);
    }
    forall i | 0 <= i < |idx| ensures 0 <= idx[i] < |ps| {
      if i < target - 1 { PicksIncrease(ps, target, idx, i, target - 1); }
    }
  }

  /** The data and the target determine the choice. */
  lemma {:induction false} ChoiceIsUnique(ps: seq<Point>, target: int, a: seq<int>, b: seq<int>, i: nat)
    requires |ps| > target >= 3 && Chosen(ps, target, a) && Chosen(ps, target, b) && i < target
    ensures a[i] == b[i]
  {
    hide NextAverage, Area, Boundary;
    if 1 <= i <= target - 2 {
      ChoiceIsUnique(ps, target, a, b, i - 1);
      assert Picked(ps, target, i, a[i - 1], a[i]) && Picked(ps, target, i, b[i - 1], b[i]);
    }
  }

  // ----- the algorithm -----

  method SumSlice(xs: seq<real>, lo: nat, hi: nat) returns (s: real)
    requires lo <= hi <= |xs|
    ensures s == Sum(xs[lo..hi])
  {
    s := 0.0;
    for k := lo to hi
      invariant s == Sum(xs[lo..k])
    {
      assert xs[lo..k + 1][..k - lo] == xs[lo..k];
      s := s + xs[k];
    }
  }

  /** The inner loop: the first largest triangle of bucket i. */
  method PickFromBucket(ps: seq<Point>, target: int, i: nat, prev: nat) returns (maxIdx: nat)
    requires |ps| > target >= 3 && 1 <= i <= target - 2 && prev < |ps|
    ensures Picked(ps, target, i, prev, maxIdx)
  {
    hide Area;
    var n := |ps|;
    NextBucketNonEmpty(n, target, i);
    var bucketStart, bucketEnd := Low(n, target, i), High(n, target, i);
    var avgStart, avgEnd := Boundary(n, target, i), High(n, target, i + 1);
    var sumTs := SumSlice(Timestamps(ps), avgStart, avgEnd);
    var sumPower := SumSlice(Powers(ps), avgStart, avgEnd);
    var avg := Point(sumTs / (avgEnd - avgStart) as real, sumPower / (avgEnd - avgStart) as real);
    assert avg == NextAverage(ps, target, i);
    hide NextAverage, Boundary, Low, High;
    var maxArea := -1.0;
    maxIdx := bucketStart;
    for j := bucketStart to bucketEnd
      invariant j == bucketStart ==> maxArea == -1.0 && maxIdx == bucketStart
      invariant j > bucketStart ==> bucketStart <= maxIdx < j && maxArea == Area(ps[prev], avg, ps[maxIdx])
      invariant forall m :: bucketStart <= m < j ==> Area(ps[prev], avg, ps[m]) <= maxArea
      invariant forall m :: bucketStart <= m < maxIdx ==> Area(ps[prev], avg, ps[m]) < maxArea
    {
      var area := Area(ps[prev], avg, ps[j]);
      if area > maxArea {
        maxArea := area;
        maxIdx := j;
      }
    }
  }

  /**
   * The whole downsampling.  Data no longer than the target is returned as it is, a target below
   * three keeps both ends (None stands for the exception on no data at all), and otherwise the
   * result has exactly `target` points at the chosen positions.
   */
  method LttbDownsample(ps: seq<Point>, target: int) returns (r: Option<seq<Point>>, ghost idx: seq<int>)
    ensures |ps| <= target ==> r == Some(ps)
    ensures |ps| > target && target < 3 ==>
              r == if ps == [] then None else Some([ps[0], ps[|ps| - 1]])
    ensures |ps| > target >= 3 ==>
              && r.Some? && Chosen(ps, target, idx) && |r.value| == target
              && forall k :: 0 <= k < target ==> 0 <= idx[k] < |ps| && r.value[k] == ps[idx[k]]
  {
    idx := [];
    var n := |ps|;
    if n <= target {
      return Some(ps), [];
    }
    if target < 3 {
      if ps == [] {
        return None, [];
      }
      return Some([ps[0], ps[n - 1]]), [];
    }
    hide Picked, Boundary;
    var result := [ps[0]];
    var last: nat := 0;
    idx := [0];
    for i := 1 to target - 1
      invariant |idx| == i == |result| && last == idx[i - 1] < n
      invariant idx[0] == 0
      invariant forall k :: 0 <= k < i ==> 0 <= idx[k] < n && result[k] == ps[idx[k]]
      invariant forall k: nat :: 1 <= k < i ==> Picked(ps, target, k, idx[k - 1], idx[k])
    {
      var maxIdx := PickFromBucket(ps, target, i, last);
      PickedInRange(ps, target, i, last, maxIdx);
      result := result + [ps[maxIdx]];
      idx := idx + [maxIdx];
      last := maxIdx;
    }
    result := result + [ps[n - 1]];
    idx := idx + [n - 1];
    r := Some(result);
  }
}
