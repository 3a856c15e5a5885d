/** The point-set aligner of `procrustes_align.js`: centre both sets, scale the source
 *  by the ratio of the sums of squared norms, rotate it by the angle whose tangent is
 *  A / B, and move it onto the target's centroid. Coordinates are reals; the calls into
 *  `Math` go through a `MathModel.Math` value. */
module Procrustes {
  import opened Points
  import opened MathModel
  import opened RealFacts

  // ----- sums -----

  /** `reduce((a, b) => a + b, 0)`: a left fold of `+` from 0. */
  function Sum(s: seq<real>): real
  {
    if s == [] then 0.0 else Sum(s[..|s| - 1]) + s[|s| - 1]
  }

  /** Adding `c` to every value adds `|s| * c` to the sum. */
  lemma {:induction false} SumOfOffsets(s: seq<real>, t: seq<real>, c: real)
    requires |t| == |s|
    requires forall i :: 0 <= i < |s| ==> t[i] == s[i] + c
    ensures Sum(t) == Sum(s) + |s| as real * c
  {
    if s != [] {
      var n := |s| - 1;
      SumOfOffsets(s[..n], t[..n], c);
      assert |s| as real * c == n as real * c + c;
    }
  }

  /** Multiplying every value by `k` multiplies the sum by `k`. */
  lemma {:induction false} SumOfMultiples(s: seq<real>, t: seq<real>, k: real)
    requires |t| == |s|
    requires forall i :: 0 <= i < |s| ==> t[i] == k * s[i]
    ensures Sum(t) == k * Sum(s)
  {
    if s != [] {
      var n := |s| - 1;
      SumOfMultiples(s[..n], t[..n], k);
      assert k * Sum(s) == k * Sum(s[..n]) + k * s[n];
    }
  }

  // ----- the pointwise maps -----

  /** `subtractFromPoints`: each point moved by minus `d`; length and order kept. */
  function SubtractFromPoints(ps: seq<Point>, d: Point): (r: seq<Point>)
    ensures |r| == |ps|
    ensures forall i :: 0 <= i < |ps| ==> r[i] == Point(ps[i].x - d.x, ps[i].y - d.y)
  {
    seq(|ps|, i requires 0 <= i < |ps| => Point(ps[i].x - d.x, ps[i].y - d.y))
  }

  /** `addToPoints`: each point moved by `d`; length and order kept. */
  function AddToPoints(ps: seq<Point>, d: Point): (r: seq<Point>)
    ensures |r| == |ps|
    ensures forall i :: 0 <= i < |ps| ==> r[i] == Point(ps[i].x + d.x, ps[i].y + d.y)
  {
    seq(|ps|, i requires 0 <= i < |ps| => Point(ps[i].x + d.x, ps[i].y + d.y))
  }

  /** `scalePoints`: each coordinate multiplied by `scale`; length and order kept. */
  function ScalePoints(ps: seq<Point>, scale: real): (r: seq<Point>)
    ensures |r| == |ps|
    ensures forall i :: 0 <= i < |ps| ==> r[i] == Point(ps[i].x * scale, ps[i].y * scale)
  {
    seq(|ps|, i requires 0 <= i < |ps| => Point(ps[i].x * scale, ps[i].y * scale))
  }

  /** `rotatePoints`: each point turned about the origin by `angle`. */
  function RotatePoints(ps: seq<Point>, angle: real, m: Math): (r: seq<Point>)
    ensures |r| == |ps|
    ensures forall i :: 0 <= i < |ps| ==>
      r[i] == Point(m.cos(angle) * ps[i].x - m.sin(angle) * ps[i].y,
                    m.sin(angle) * ps[i].x + m.cos(angle) * ps[i].y)
  {
    seq(|ps|, i requires 0 <= i < |ps| =>
      Point(m.cos(angle) * ps[i].x - m.sin(angle) * ps[i].y,
            m.sin(angle) * ps[i].x + m.cos(angle) * ps[i].y))
  }

  lemma AddUndoesSubtract(ps: seq<Point>, d: Point)
    ensures AddToPoints(SubtractFromPoints(ps, d), d) == ps
  {
  }

  lemma SubtractUndoesAdd(ps: seq<Point>, d: Point)
    ensures SubtractFromPoints(AddToPoints(ps, d), d) == ps
  {
  }

  lemma ScaleByOne(ps: seq<Point>)
    ensures ScalePoints(ps, 1.0) == ps
  {
  }

  lemma RotateByZero(ps: seq<Point>, m: Math)
    requires TrigLaws(m)
    ensures RotatePoints(ps, 0.0, m) == ps
  {
    assert m.cos(0.0) == 1.0 && m.sin(0.0) == 0.0;
  }

  // ----- the centroid -----

  /** `calcMean`: (sum of x / n, sum of y / n). It divides by the number of points, so
   *  the set must not be empty. */
  function CalcMean(ps: seq<Point>): Point
    requires |ps| > 0
  {
    var n := |ps| as real;
    Point(Sum(Xs(ps)) / n, Sum(Ys(ps)) / n)
  }

  /** What makes `CalcMean` the centroid: the deviations from it sum to zero on each
   *  axis (`MeanIsUnique` shows no other point does this). */
  lemma MeanBalancesDeviations(ps: seq<Point>)
    requires |ps| > 0
    ensures Sum(Xs(SubtractFromPoints(ps, CalcMean(ps)))) == 0.0
    ensures Sum(Ys(SubtractFromPoints(ps, CalcMean(ps)))) == 0.0
  {
    var mean := CalcMean(ps);
    SumOfOffsets(Xs(ps), Xs(SubtractFromPoints(ps, mean)), -mean.x);
    SumOfOffsets(Ys(ps), Ys(SubtractFromPoints(ps, mean)), -mean.y);
  }

  lemma MeanIsUnique(ps: seq<Point>, c: Point)
    requires |ps| > 0
    requires Sum(Xs(SubtractFromPoints(ps, c))) == 0.0
    requires Sum(Ys(SubtractFromPoints(ps, c))) == 0.0
    ensures c == CalcMean(ps)
  {
    MeanXIsUnique(ps, c);
    MeanYIsUnique(ps, c);
  }

  lemma MeanXIsUnique(ps: seq<Point>, c: Point)
    requires |ps| > 0
    requires Sum(Xs(SubtractFromPoints(ps, c))) == 0.0
    ensures c.x == CalcMean(ps).x
  {
    ValuesAroundMean(Xs(ps), Xs(SubtractFromPoints(ps, c)), c.x);
    CancelDivision(Sum(Xs(ps)), c.x, |ps| as real);
  }

  lemma MeanYIsUnique(ps: seq<Point>, c: Point)
    requires |ps| > 0
    requires Sum(Ys(SubtractFromPoints(ps, c))) == 0.0
    ensures c.y == CalcMean(ps).y
  {
    ValuesAroundMean(Ys(ps), Ys(SubtractFromPoints(ps, c)), c.y);
    CancelDivision(Sum(Ys(ps)), c.y, |ps| as real);
  }

  /** Values whose deviations from `c` sum to zero add up to `c` once per value. */
  lemma ValuesAroundMean(s: seq<real>, t: seq<real>, c: real)
    requires |s| > 0 && |t| == |s|
    requires forall i :: 0 <= i < |s| ==> t[i] == s[i] - c
    requires Sum(t) == 0.0
    ensures Sum(s) == c * |s| as real
  {
    SumOfOffsets(s, t, -c);
    assert |s| as real * -c == -(c * |s| as real);
  }

  /** Lines 8-13: once a set has its own mean subtracted, its mean is the origin. */
  lemma CentredMeanIsZero(ps: seq<Point>)
    requires |ps| > 0
    ensures CalcMean(SubtractFromPoints(ps, CalcMean(ps))) == Point(0.0, 0.0)
  {
    var centred := SubtractFromPoints(ps, CalcMean(ps));
    MeanBalancesDeviations(ps);
    assert SubtractFromPoints(centred, Point(0.0, 0.0)) == centred;
    MeanIsUnique(centred, Point(0.0, 0.0));
  }

  lemma MeanOfTranslated(ps: seq<Point>, d: Point)
    requires |ps| > 0
    ensures CalcMean(AddToPoints(ps, d)) == Point(CalcMean(ps).x + d.x, CalcMean(ps).y + d.y)
  {
    var mean := CalcMean(ps);
    var moved := Point(mean.x + d.x, mean.y + d.y);
    MeanBalancesDeviations(ps);
    assert SubtractFromPoints(AddToPoints(ps, d), moved) == SubtractFromPoints(ps, mean);
    MeanIsUnique(AddToPoints(ps, d), moved);
  }

  /** Scaling a set scales its centroid. */
  lemma MeanOfScaled(ps: seq<Point>, k: real)
    requires |ps| > 0
    ensures CalcMean(ScalePoints(ps, k)) == Point(k * CalcMean(ps).x, k * CalcMean(ps).y)
  {
    MeanXOfScaled(ps, k);
    MeanYOfScaled(ps, k);
  }

  lemma MeanXOfScaled(ps: seq<Point>, k: real)
    requires |ps| > 0
    ensures CalcMean(ScalePoints(ps, k)).x == k * CalcMean(ps).x
  {
    SumOfScaledXs(ps, k);
    ScaledQuotient(Sum(Xs(ScalePoints(ps, k))), Sum(Xs(ps)), k, |ps| as real);
  }

  lemma MeanYOfScaled(ps: seq<Point>, k: real)
    requires |ps| > 0
    ensures CalcMean(ScalePoints(ps, k)).y == k * CalcMean(ps).y
  {
    SumOfScaledYs(ps, k);
    ScaledQuotient(Sum(Ys(ScalePoints(ps, k))), Sum(Ys(ps)), k, |ps| as real);
  }

  /** Scaling a set scales the sum of its x coordinates ... */
  lemma SumOfScaledXs(ps: seq<Point>, k: real)
    ensures Sum(Xs(ScalePoints(ps, k))) == k * Sum(Xs(ps))
  {
    var qs := ScalePoints(ps, k);
    assert forall i :: 0 <= i < |ps| ==> Xs(qs)[i] == k * Xs(ps)[i];
    SumOfMultiples(Xs(ps), Xs(qs), k);
  }

  /** ... and of its y coordinates. */
  lemma SumOfScaledYs(ps: seq<Point>, k: real)
    ensures Sum(Ys(ScalePoints(ps, k))) == k * Sum(Ys(ps))
  {
    var qs := ScalePoints(ps, k);
    assert forall i :: 0 <= i < |ps| ==> Ys(qs)[i] == k * Ys(ps)[i];
    SumOfMultiples(Ys(ps), Ys(qs), k);
  }

  lemma ScaledQuotient(t: real, s: real, k: real, n: real)
    requires n != 0.0 && t == k * s
    ensures t / n == k * (s / n)
  {
  }


  // ----- sums of squared norms -----

  function SqNorm(p: Point): real
  {
    p.x * p.x + p.y * p.y
  }

  /** The running sum of `calcSumOfSquaredDistance`, as a left fold. */
  function SumSq(ps: seq<Point>): real
  {
    if ps == [] then 0.0 else SumSq(ps[..|ps| - 1]) + SqNorm(ps[|ps| - 1])
  }

  /** Lines 86-92: a loop adding each point's squared distance from the origin. */
  method CalcSumOfSquaredDistance(pointSet: seq<Point>) returns (sum: real)
    ensures sum == SumSq(pointSet)
  {
    sum := 0.0;
    var i := 0;
    while i < |pointSet|
      invariant 0 <= i <= |pointSet|
      invariant sum == SumSq(pointSet[..i])
    {
      assert pointSet[..i + 1][..i] == pointSet[..i];
      sum := sum + (pointSet[i].x * pointSet[i].x + pointSet[i].y * pointSet[i].y);
      i := i + 1;
    }
    assert pointSet[..i] == pointSet;
  }

  lemma SqNormFacts(p: Point)
    ensures SqNorm(p) >= 0.0
    ensures p != Point(0.0, 0.0) ==> SqNorm(p) > 0.0
  {
    SquareFacts(p.x, p.x * p.x);
    SquareFacts(p.y, p.y * p.y);
  }

  lemma {:induction false} SumSqNonNegative(ps: seq<Point>)
    ensures SumSq(ps) >= 0.0
  {
    if ps != [] {
      SumSqNonNegative(ps[..|ps| - 1]);
      SqNormFacts(ps[|ps| - 1]);
    }
  }

  lemma {:induction false} SumSqOfOrigins(ps: seq<Point>)
    requires forall i :: 0 <= i < |ps| ==> ps[i] == Point(0.0, 0.0)
    ensures SumSq(ps) == 0.0
  {
    if ps != [] {
      SumSqOfOrigins(ps[..|ps| - 1]);
    }
  }

  lemma {:induction false} SumSqPositive(ps: seq<Point>, i: int)
    requires 0 <= i < |ps| && ps[i] != Point(0.0, 0.0)
    ensures SumSq(ps) > 0.0
  {
    var n := |ps| - 1;
    SqNormFacts(ps[n]);
    if i == n {
      SumSqNonNegative(ps[..n]);
    } else {
      assert ps[..n][i] == ps[i];
      SumSqPositive(ps[..n], i);
    }
  }

  /** The sum of squared norms is zero exactly when every point is the origin. */
  lemma SumSqZeroIff(ps: seq<Point>)
    ensures SumSq(ps) == 0.0 <==> forall i :: 0 <= i < |ps| ==> ps[i] == Point(0.0, 0.0)
  {
    if i :| 0 <= i < |ps| && ps[i] != Point(0.0, 0.0) {
      SumSqPositive(ps, i);
    } else {
      SumSqOfOrigins(ps);
    }
  }

  /** If every point's squared norm is `c` times that of its partner, so is the sum. */
  lemma {:induction false} SumSqOfPointwiseMultiples(s: seq<Point>, t: seq<Point>, c: real)
    requires |t| == |s|
    requires forall i :: 0 <= i < |s| ==> SqNorm(t[i]) == c * SqNorm(s[i])
    ensures SumSq(t) == c * SumSq(s)
  {
    if s != [] {
      var n := |s| - 1;
      SumSqOfPointwiseMultiples(s[..n], t[..n], c);
      assert c * SumSq(s) == c * SumSq(s[..n]) + c * SqNorm(s[n]);
    }
  }

  /** Scaling by `k` multiplies the sum of squared norms by k * k. */
  lemma ScaleSumSq(ps: seq<Point>, k: real)
    ensures SumSq(ScalePoints(ps, k)) == k * k * SumSq(ps)
  {
    var kk := k * k;
    var scaled := ScalePoints(ps, k);
    forall i | 0 <= i < |ps| ensures SqNorm(scaled[i]) == kk * SqNorm(ps[i]) {
      ScaledSqNorm(ps[i], scaled[i], k, kk);
    }
    SumSqOfPointwiseMultiples(ps, scaled, kk);
  }

  /** A point `q` that is `p` scaled by `k` has `kk = k * k` times its squared norm. */
  lemma ScaledSqNorm(p: Point, q: Point, k: real, kk: real)
    requires q == Point(p.x * k, p.y * k) && kk == k * k
    ensures SqNorm(q) == kk * SqNorm(p)
  {
  }

  /** Given cos^2 + sin^2 = 1, a rotation keeps every point's squared distance from
   *  the origin, and so the sum of them. */
  lemma RotatePreservesSqNorms(ps: seq<Point>, angle: real, m: Math)
    requires TrigLaws(m)
    ensures forall i :: 0 <= i < |ps| ==> SqNorm(RotatePoints(ps, angle, m)[i]) == SqNorm(ps[i])
    ensures SumSq(RotatePoints(ps, angle, m)) == SumSq(ps)
  {
    var rotated := RotatePoints(ps, angle, m);
    var c, s := m.cos(angle), m.sin(angle);
    assert c * c + s * s == 1.0;
    RotationKeepsEachSqNorm(ps, rotated, c, s);
    SumSqOfEqualNorms(ps, rotated);
  }

  /** A set turned by the rotation matrix of (c, s), with c^2 + s^2 = 1, keeps each
   *  point's squared norm. */
  lemma RotationKeepsEachSqNorm(ps: seq<Point>, rotated: seq<Point>, c: real, s: real)
    requires c * c + s * s == 1.0 && |rotated| == |ps|
    requires forall i :: 0 <= i < |ps| ==>
      rotated[i] == Point(c * ps[i].x - s * ps[i].y, s * ps[i].x + c * ps[i].y)
    ensures forall i :: 0 <= i < |ps| ==> SqNorm(rotated[i]) == SqNorm(ps[i])
  {
    forall i | 0 <= i < |ps| ensures SqNorm(rotated[i]) == SqNorm(ps[i]) {
      RotatedSqNorm(ps[i], rotated[i], c, s);
    }
  }

  /** Sets whose points have pairwise equal squared norms have equal sums of them. */
  lemma {:induction false} SumSqOfEqualNorms(s: seq<Point>, t: seq<Point>)
    requires |t| == |s|
    requires forall i :: 0 <= i < |s| ==> SqNorm(t[i]) == SqNorm(s[i])
    ensures SumSq(t) == SumSq(s)
  {
    if s != [] {
      var n := |s| - 1;
      SumSqOfEqualNorms(s[..n], t[..n]);
    }
  }

  /** The point `q`, `p` under the rotation matrix of (c, s), has the squared norm
   *  of `p` once c^2 + s^2 = 1. */
  lemma RotatedSqNorm(p: Point, q: Point, c: real, s: real)
    requires c * c + s * s == 1.0
    requires q == Point(c * p.x - s * p.y, s * p.x + c * p.y)
    ensures SqNorm(q) == SqNorm(p)
  {
    assert q.x * q.x + q.y * q.y == (c * c + s * s) * (p.x * p.x + p.y * p.y);
  }

  // ----- the cross sums A and B -----

  function Cross(p: Point, q: Point): real
  {
    p.x * q.y - p.y * q.x
  }

  function Dot(p: Point, q: Point): real
  {
    p.x * q.x + p.y * q.y
  }

  /** A of line 20: the sum over the first |p1| indices of x1 * y2 - y1 * x2. */
  function CrossSum(p1: seq<Point>, p2: seq<Point>): real
    requires |p1| <= |p2|
  {
    if p1 == [] then 0.0 else CrossSum(p1[..|p1| - 1], p2) + Cross(p1[|p1| - 1], p2[|p1| - 1])
  }

  /** B of line 26: the sum over the first |p1| indices of x1 * x2 + y1 * y2. */
  function DotSum(p1: seq<Point>, p2: seq<Point>): real
    requires |p1| <= |p2|
  {
    if p1 == [] then 0.0 else DotSum(p1[..|p1| - 1], p2) + Dot(p1[|p1| - 1], p2[|p1| - 1])
  }

  /** Lines 21-24: the loop accumulating A. */
  method AccumulateA(points1: seq<Point>, points2: seq<Point>) returns (a: real)
    requires |points1| <= |points2|
    ensures a == CrossSum(points1, points2)
  {
    a := 0.0;
    var i := 0;
    while i < |points1|
      invariant 0 <= i <= |points1|
      invariant a == CrossSum(points1[..i], points2)
    {
      assert points1[..i + 1][..i] == points1[..i];
      a := a + (points1[i].x * points2[i].y - points1[i].y * points2[i].x);
      i := i + 1;
    }
    assert points1[..i] == points1;
  }

  /** Lines 27-30: the loop accumulating B. */
  method AccumulateB(points1: seq<Point>, points2: seq<Point>) returns (b: real)
    requires |points1| <= |points2|
    ensures b == DotSum(points1, points2)
  {
    b := 0.0;
    var i := 0;
    while i < |points1|
      invariant 0 <= i <= |points1|
      invariant b == DotSum(points1[..i], points2)
    {
      assert points1[..i + 1][..i] == points1[..i];
      b := b + (points1[i].x * points2[i].x + points1[i].y * points2[i].y);
      i := i + 1;
    }
    assert points1[..i] == points1;
  }

  /** When every pair is parallel (zero cross term) and its dot term is `c` times the
   *  squared norm of a reference point, A is zero and B is `c` times the reference
   *  set's sum of squared norms. */
  lemma {:induction false} CrossSumsOfParallelPairs(p1: seq<Point>, p2: seq<Point>, ref: seq<Point>, c: real)
    requires |p1| <= |p2| && |ref| == |p1|
    requires forall i :: 0 <= i < |p1| ==> Cross(p1[i], p2[i]) == 0.0
    requires forall i :: 0 <= i < |p1| ==> Dot(p1[i], p2[i]) == c * SqNorm(ref[i])
    ensures CrossSum(p1, p2) == 0.0
    ensures DotSum(p1, p2) == c * SumSq(ref)
  {
    if p1 != [] {
      var n := |p1| - 1;
      CrossSumsOfParallelPairs(p1[..n], p2, ref[..n], c);
      assert c * SumSq(ref) == c * SumSq(ref[..n]) + c * SqNorm(ref[n]);
    }
  }

  /** Lines 20-30 for a set against itself: A = 0 and B = its sum of squared norms. */
  lemma SelfCrossSums(ps: seq<Point>)
    ensures CrossSum(ps, ps) == 0.0
    ensures DotSum(ps, ps) == SumSq(ps)
  {
    forall i | 0 <= i < |ps| ensures Dot(ps[i], ps[i]) == 1.0 * SqNorm(ps[i]) {
    }
    CrossSumsOfParallelPairs(ps, ps, ps, 1.0);
  }

  /** A and B for two scaled copies of one set: A = 0 and B = g * k * its sum of
   *  squared norms (the product g * k passed as `gk`). */
  lemma ScaledCopiesCrossSums(ps: seq<Point>, g: real, k: real, gk: real)
    requires gk == g * k
    ensures CrossSum(ScalePoints(ps, g), ScalePoints(ps, k)) == 0.0
    ensures DotSum(ScalePoints(ps, g), ScalePoints(ps, k)) == gk * SumSq(ps)
  {
    ScaledCopiesPairTerms(ps, g, k, gk);
    CrossSumsOfParallelPairs(ScalePoints(ps, g), ScalePoints(ps, k), ps, gk);
  }

  lemma ScaledCopiesPairTerms(ps: seq<Point>, g: real, k: real, gk: real)
    requires gk == g * k
    ensures var p1, p2 := ScalePoints(ps, g), ScalePoints(ps, k);
            forall i :: 0 <= i < |ps| ==>
              Cross(p1[i], p2[i]) == 0.0 && Dot(p1[i], p2[i]) == gk * SqNorm(ps[i])
  {
    var p1, p2 := ScalePoints(ps, g), ScalePoints(ps, k);
    forall i | 0 <= i < |ps|
      ensures Cross(p1[i], p2[i]) == 0.0 && Dot(p1[i], p2[i]) == gk * SqNorm(ps[i])
    {
      assert p1[i] == Point(ps[i].x * g, ps[i].y * g);
      assert p2[i] == Point(ps[i].x * k, ps[i].y * k);
      ScaledPairTerms(ps[i], g, k, gk);
    }
  }

  lemma ScaledPairTerms(p: Point, g: real, k: real, gk: real)
    requires gk == g * k
    ensures Cross(Point(p.x * g, p.y * g), Point(p.x * k, p.y * k)) == 0.0
    ensures Dot(Point(p.x * g, p.y * g), Point(p.x * k, p.y * k)) == gk * SqNorm(p)
  {
  }

  // ----- the alignment -----

  /** Lines 8-13: a set with its own centroid subtracted; its coordinates sum to zero. */
  function Centred(ps: seq<Point>): (r: seq<Point>)
    requires |ps| > 0
    ensures |r| == |ps|
    ensures Sum(Xs(r)) == 0.0 && Sum(Ys(r)) == 0.0
  {
    MeanBalancesDeviations(ps);
    SubtractFromPoints(ps, CalcMean(ps))
  }

  /** Lines 32-37: rotate the scaled, centred source by atan2(A, B) and move it onto
   *  the target's centroid. */
  function RotateAndPlace(scaled: seq<Point>, centred2: seq<Point>, mean2: Point, m: Math): (r: seq<Point>)
    requires |scaled| <= |centred2|
    ensures |r| == |scaled|
  {
    var angle := m.atan2(CrossSum(scaled, centred2), DotSum(scaled, centred2));
    AddToPoints(RotatePoints(scaled, angle, m), mean2)
  }

  /** Lines 15-37 on the two centred sets: scale the source by s2 / s1 as line 17
   *  writes it, then rotate and place it. */
  function AlignCentred(centred1: seq<Point>, centred2: seq<Point>, mean2: Point, m: Math): (r: seq<Point>)
    requires |centred1| <= |centred2| && SumSq(centred1) != 0.0
    ensures |r| == |centred1|
  {
    RotateAndPlace(ScalePoints(centred1, SumSq(centred2) / SumSq(centred1)), centred2, mean2, m)
  }

  /** `procrustesAlign` as the source computes it. The result has one point per point
   *  of `pointSet1`; `pointSet2` may be longer, and only its first |pointSet1| points
   *  enter A and B. */
  function Align(pointSet1: seq<Point>, pointSet2: seq<Point>, m: Math): (r: seq<Point>)
    requires 0 < |pointSet1| <= |pointSet2|
    requires SumSq(Centred(pointSet1)) != 0.0
    ensures |r| == |pointSet1|
  {
    AlignCentred(Centred(pointSet1), Centred(pointSet2), CalcMean(pointSet2), m)
  }

  /** `procrustesAlign`, step by step: `points1` is reassigned as in the source, and A
   *  and B come from the two accumulating loops. */
  method ProcrustesAlign(pointSet1: seq<Point>, pointSet2: seq<Point>, m: Math) returns (points1: seq<Point>)
    requires 0 < |pointSet1| <= |pointSet2|
    requires SumSq(Centred(pointSet1)) != 0.0
    ensures points1 == Align(pointSet1, pointSet2, m)
  {
    var mean1 := CalcMean(pointSet1);
    var mean2 := CalcMean(pointSet2);

    points1 := SubtractFromPoints(pointSet1, mean1);
    var points2 := SubtractFromPoints(pointSet2, mean2);

    var s1 := CalcSumOfSquaredDistance(points1);
    var s2 := CalcSumOfSquaredDistance(points2);
    var scaling := s2 / s1;
    points1 := ScalePoints(points1, scaling);

    var a := AccumulateA(points1, points2);
    var b := AccumulateB(points1, points2);

    var rotationAngle := m.atan2(a, b);
    points1 := RotatePoints(points1, rotationAngle, m);
    points1 := AddToPoints(points1, mean2);
  }

  /** A scaled, centred set whose partner is a positively scaled copy of the same
   *  centred set is not rotated: A = 0, B > 0, atan2(0, B) = 0. */
  lemma RotateAndPlaceOfScaledCopy(centred: seq<Point>, g: real, k: real, mean2: Point, m: Math)
    requires TrigLaws(m) && g > 0.0 && k > 0.0 && SumSq(centred) > 0.0
    ensures RotateAndPlace(ScalePoints(centred, g), ScalePoints(centred, k), mean2, m)
         == AddToPoints(ScalePoints(centred, g), mean2)
  {
    var gk := g * k;
    ScaledCopiesCrossSums(centred, g, k, gk);
    PositiveProduct(g, k, gk);
    ProductOfPositives(gk, SumSq(centred));
    var b := DotSum(ScalePoints(centred, g), ScalePoints(centred, k));
    assert m.atan2(0.0, b) == 0.0;
    RotateByZero(ScalePoints(centred, g), m);
  }

  /** As written, a centred set aligned onto its own copy scaled by k > 0 comes out
   *  scaled by k * k: s2 = k * k * s1 and the rotation is zero. */
  lemma AlignCentredOfScaledCopy(centred: seq<Point>, k: real, mean2: Point, m: Math)
    requires TrigLaws(m) && k > 0.0 && SumSq(centred) != 0.0
    ensures AlignCentred(centred, ScalePoints(centred, k), mean2, m)
         == AddToPoints(ScalePoints(centred, k * k), mean2)
  {
    PositiveProduct(k, k, k * k);
    SumSqNonNegative(centred);
    ScaledCopyRatio(centred, k);
    RotateAndPlaceOfScaledCopy(centred, k * k, k, mean2, m);
  }

  /** s2 / s1 for a centred set and its copy scaled by k is k * k. */
  lemma ScaledCopyRatio(centred: seq<Point>, k: real)
    requires SumSq(centred) != 0.0
    ensures SumSq(ScalePoints(centred, k)) / SumSq(centred) == k * k
  {
    ScaleSumSq(centred, k);
    CancelDivision(SumSq(ScalePoints(centred, k)), k * k, SumSq(centred));
  }

  /** Scaling a set by k and moving it by d moves its centroid to k * mean + d. */
  lemma MeanOfScaledCopy(ps: seq<Point>, k: real, d: Point)
    requires |ps| > 0
    ensures CalcMean(AddToPoints(ScalePoints(ps, k), d))
         == Point(k * CalcMean(ps).x + d.x, k * CalcMean(ps).y + d.y)
  {
    MeanOfScaled(ps, k);
    MeanOfTranslated(ScalePoints(ps, k), d);
  }

  /** ... and scales its centred form by k. */
  lemma CentredOfScaledCopy(ps: seq<Point>, k: real, d: Point)
    requires |ps| > 0
    ensures Centred(AddToPoints(ScalePoints(ps, k), d)) == ScalePoints(Centred(ps), k)
  {
    var q := AddToPoints(ScalePoints(ps, k), d);
    var mean := CalcMean(ps);
    var meanQ := Point(k * mean.x + d.x, k * mean.y + d.y);
    MeanOfScaledCopy(ps, k, d);
    assert CalcMean(q) == meanQ;
    ScaledCopyOffsets(ps, mean, k, d);
    assert SubtractFromPoints(q, meanQ) == ScalePoints(SubtractFromPoints(ps, mean), k);
  }

  /** The pointwise part of `CentredOfScaledCopy`, for any centre c. */
  lemma ScaledCopyOffsets(ps: seq<Point>, c: Point, k: real, d: Point)
    ensures SubtractFromPoints(AddToPoints(ScalePoints(ps, k), d), Point(k * c.x + d.x, k * c.y + d.y))
         == ScalePoints(SubtractFromPoints(ps, c), k)
  {
    var lhs := SubtractFromPoints(AddToPoints(ScalePoints(ps, k), d), Point(k * c.x + d.x, k * c.y + d.y));
    var rhs := ScalePoints(SubtractFromPoints(ps, c), k);
    forall i | 0 <= i < |ps| ensures lhs[i] == rhs[i] {
      ScaledOffset(ps[i].x, c.x, k, d.x);
      ScaledOffset(ps[i].y, c.y, k, d.y);
    }
  }

  lemma ScaledOffset(p: real, c: real, k: real, e: real)
    ensures p * k + e - (k * c + e) == (p - c) * k
  {
  }

  /** Moving a set does not change its centred form. */
  lemma CentredOfTranslated(ps: seq<Point>, d: Point)
    requires |ps| > 0
    ensures Centred(AddToPoints(ps, d)) == Centred(ps)
  {
    MeanOfTranslated(ps, d);
  }

  /** A set is its centred form moved back onto its centroid. */
  lemma CentredAndMeanRebuild(ps: seq<Point>)
    requires |ps| > 0
    ensures AddToPoints(Centred(ps), CalcMean(ps)) == ps
  {
    AddUndoesSubtract(ps, CalcMean(ps));
  }

  /** As written, aligning a set onto a copy of itself scaled by k > 0 and moved by d
   *  gives the centred set scaled by k * k, not by k, placed on the copy's centroid. */
  lemma AlignOfScaledCopy(ps: seq<Point>, k: real, d: Point, m: Math)
    requires TrigLaws(m) && |ps| > 0 && k > 0.0
    requires SumSq(Centred(ps)) != 0.0
    ensures var q := AddToPoints(ScalePoints(ps, k), d);
            Align(ps, q, m) == AddToPoints(ScalePoints(Centred(ps), k * k), CalcMean(q))
  {
    var q := AddToPoints(ScalePoints(ps, k), d);
    CentredOfScaledCopy(ps, k, d);
    AlignCentredOfScaledCopy(Centred(ps), k, CalcMean(q), m);
  }

  /** Lines 15-30 for a set aligned to itself: the scaling s2 / s1 is 1, and then
   *  A = 0 and B = s1 > 0. */
  lemma SelfAlignmentTerms(ps: seq<Point>)
    requires |ps| > 0
    requires SumSq(Centred(ps)) != 0.0
    ensures var c := Centred(ps);
            var scaled := ScalePoints(c, SumSq(c) / SumSq(c));
            && SumSq(c) / SumSq(c) == 1.0
            && CrossSum(scaled, c) == 0.0
            && DotSum(scaled, c) == SumSq(c) > 0.0
  {
    var c := Centred(ps);
    CancelDivision(SumSq(c), 1.0, SumSq(c));
    ScaleByOne(c);
    SelfCrossSums(c);
    SumSqNonNegative(c);
  }

  /** Aligning a set to itself returns it unchanged: with the terms above and
   *  atan2(0, B) = 0 there is no rotation. */
  lemma AlignSelf(ps: seq<Point>, m: Math)
    requires TrigLaws(m) && |ps| > 0
    requires SumSq(Centred(ps)) != 0.0
    ensures Align(ps, ps, m) == ps
  {
    var c := Centred(ps);
    ScaleByOne(c);
    AlignCentredOfScaledCopy(c, 1.0, CalcMean(ps), m);
    CentredAndMeanRebuild(ps);
  }

  /** Moving the source set does not change the result: only its shape matters. */
  lemma AlignIgnoresSourceTranslation(ps: seq<Point>, qs: seq<Point>, d: Point, m: Math)
    requires 0 < |ps| <= |qs|
    requires SumSq(Centred(ps)) != 0.0
    ensures SumSq(Centred(AddToPoints(ps, d))) == SumSq(Centred(ps))
    ensures Align(AddToPoints(ps, d), qs, m) == Align(ps, qs, m)
  {
    CentredOfTranslated(ps, d);
  }

  /** Whatever the trigonometric functions are, the aligned set's centroid is the
   *  target's centroid: the source is centred before it is scaled and rotated, and
   *  line 37 adds `mean2` back. */
  lemma AlignKeepsTargetCentroid(ps: seq<Point>, qs: seq<Point>, m: Math)
    requires 0 < |ps| <= |qs|
    requires SumSq(Centred(ps)) != 0.0
    ensures CalcMean(Align(ps, qs, m)) == CalcMean(qs)
  {
    var c := Centred(ps);
    var scaling := SumSq(Centred(qs)) / SumSq(c);
    SumOfScaledXs(c, scaling);
    SumOfScaledYs(c, scaling);
    RotateAndPlaceKeepsCentroid(ScalePoints(c, scaling), Centred(qs), CalcMean(qs), m);
  }

  /** A set balanced about the origin, rotated and moved by `mean2`, has centroid `mean2`. */
  lemma RotateAndPlaceKeepsCentroid(scaled: seq<Point>, centred2: seq<Point>, mean2: Point, m: Math)
    requires 0 < |scaled| <= |centred2|
    requires Sum(Xs(scaled)) == 0.0 && Sum(Ys(scaled)) == 0.0
    ensures CalcMean(RotateAndPlace(scaled, centred2, mean2, m)) == mean2
  {
    var angle := m.atan2(CrossSum(scaled, centred2), DotSum(scaled, centred2));
    var rotated := RotatePoints(scaled, angle, m);
    RotationKeepsBalance(scaled, angle, m);
    assert SubtractFromPoints(rotated, Point(0.0, 0.0)) == rotated;
    MeanIsUnique(rotated, Point(0.0, 0.0));
    MeanOfTranslated(rotated, mean2);
  }

  /** Rotation about the origin keeps both coordinate sums at zero. */
  lemma RotationKeepsBalance(ps: seq<Point>, angle: real, m: Math)
    requires Sum(Xs(ps)) == 0.0 && Sum(Ys(ps)) == 0.0
    ensures Sum(Xs(RotatePoints(ps, angle, m))) == 0.0
    ensures Sum(Ys(RotatePoints(ps, angle, m))) == 0.0
  {
    RotatedXsBalance(ps, angle, m);
    RotatedYsBalance(ps, angle, m);
  }

  lemma RotatedXsBalance(ps: seq<Point>, angle: real, m: Math)
    requires Sum(Xs(ps)) == 0.0 && Sum(Ys(ps)) == 0.0
    ensures Sum(Xs(RotatePoints(ps, angle, m))) == 0.0
  {
    var co, si := m.cos(angle), m.sin(angle);
    RotatedXs(ps, angle, m);
    SumOfCombination(Xs(ps), Ys(ps), Xs(RotatePoints(ps, angle, m)), co, -si);
  }

  lemma RotatedYsBalance(ps: seq<Point>, angle: real, m: Math)
    requires Sum(Xs(ps)) == 0.0 && Sum(Ys(ps)) == 0.0
    ensures Sum(Ys(RotatePoints(ps, angle, m))) == 0.0
  {
    var co, si := m.cos(angle), m.sin(angle);
    RotatedYs(ps, angle, m);
    SumOfCombination(Xs(ps), Ys(ps), Ys(RotatePoints(ps, angle, m)), si, co);
  }

  /** The rotated x coordinates combine the original ones as cos * x + (-sin) * y ... */
  lemma RotatedXs(ps: seq<Point>, angle: real, m: Math)
    ensures var xs, co, si := Xs(RotatePoints(ps, angle, m)), m.cos(angle), m.sin(angle);
            forall i :: 0 <= i < |ps| ==> xs[i] == co * Xs(ps)[i] + -si * Ys(ps)[i]
  {
  }

  /** ... and the rotated y coordinates as sin * x + cos * y. */
  lemma RotatedYs(ps: seq<Point>, angle: real, m: Math)
    ensures var ys, co, si := Ys(RotatePoints(ps, angle, m)), m.cos(angle), m.sin(angle);
            forall i :: 0 <= i < |ps| ==> ys[i] == si * Xs(ps)[i] + co * Ys(ps)[i]
  {
  }

  /** The fold is linear: `Σ(a·s + b·t) = a·Σs + b·Σt`. */
  lemma {:induction false} SumOfCombination(s: seq<real>, t: seq<real>, u: seq<real>, a: real, b: real)
    requires |t| == |s| && |u| == |s|
    requires forall i :: 0 <= i < |s| ==> u[i] == a * s[i] + b * t[i]
    ensures Sum(u) == a * Sum(s) + b * Sum(t)
  {
    if s != [] {
      var n := |s| - 1;
      SumOfCombination(s[..n], t[..n], u[..n], a, b);
      assert a * Sum(s) + b * Sum(t) == (a * Sum(s[..n]) + b * Sum(t[..n])) + (a * s[n] + b * t[n]);
    }
  }

  /** The discrepancy of line 17: for any set with spread and any scale k > 0 other
   *  than 1, the as-written alignment onto the set's k-scaled, moved copy does not
   *  reproduce that copy. */
  lemma AlignMissesScaledCopy(ps: seq<Point>, k: real, d: Point, m: Math)
    requires TrigLaws(m) && |ps| > 0 && k > 0.0 && k != 1.0
    requires SumSq(Centred(ps)) != 0.0
    ensures Align(ps, AddToPoints(ScalePoints(ps, k), d), m) != AddToPoints(ScalePoints(ps, k), d)
  {
    var q := AddToPoints(ScalePoints(ps, k), d);
    AlignOfScaledCopy(ps, k, d, m);
    CentredOfScaledCopy(ps, k, d);
    CentredAndMeanRebuild(q);
    SquareIsNotSelf(k, k * k);
    ScaledShapesDiffer(Centred(ps), k * k, k, CalcMean(q));
  }

  /** A set with spread, scaled by two different factors and placed at the same
   *  point, gives two different sets. */
  lemma ScaledShapesDiffer(c: seq<Point>, g: real, k: real, mean: Point)
    requires g != k && SumSq(c) != 0.0
    ensures AddToPoints(ScalePoints(c, g), mean) != AddToPoints(ScalePoints(c, k), mean)
  {
    SumSqZeroIff(c);
    var i :| 0 <= i < |c| && c[i] != Point(0.0, 0.0);
    ScaledSetsDiffer(c, g, k, i);
    SubtractUndoesAdd(ScalePoints(c, g), mean);
    SubtractUndoesAdd(ScalePoints(c, k), mean);
  }

  lemma ScaledSetsDiffer(c: seq<Point>, g: real, k: real, i: int)
    requires 0 <= i < |c| && c[i] != Point(0.0, 0.0) && g != k
    ensures ScalePoints(c, g) != ScalePoints(c, k)
  {
    ScaledPointsDiffer(c[i], g, k);
    assert ScalePoints(c, g)[i] != ScalePoints(c, k)[i];
  }

  lemma ScaledPointsDiffer(p: Point, g: real, k: real)
    requires p != Point(0.0, 0.0) && g != k
    ensures Point(p.x * g, p.y * g) != Point(p.x * k, p.y * k)
  {
    if p.x * g == p.x * k && p.y * g == p.y * k {
      ScaleCancels(p.x, g, k);
      ScaleCancels(p.y, g, k);
    }
  }

  /** The centroid of the three-landmark example set. */
  lemma ExampleMean()
    ensures CalcMean([Point(0.0, 0.0), Point(2.0, 0.0), Point(0.0, 2.0)]) == Point(2.0 / 3.0, 2.0 / 3.0)
  {
    var ps := [Point(0.0, 0.0), Point(2.0, 0.0), Point(0.0, 2.0)];
    assert Xs(ps) == [0.0, 2.0, 0.0];
    assert Ys(ps) == [0.0, 0.0, 2.0];
    ExampleSum(0.0, 2.0, 0.0);
    ExampleSum(0.0, 0.0, 2.0);
  }

  lemma ExampleSum(a: real, b: real, c: real)
    ensures Sum([a, b, c]) == a + b + c
  {
    assert [a][..0] == [];
    assert Sum([a]) == a;
    assert [a, b][..1] == [a];
    assert Sum([a, b]) == a + b;
    assert [a, b, c][..2] == [a, b];
  }

  /** The three-landmark example set has spread. */
  lemma ExampleSpread()
    ensures var ps := [Point(0.0, 0.0), Point(2.0, 0.0), Point(0.0, 2.0)];
            && Centred(ps)[0] == Point(-2.0 / 3.0, -2.0 / 3.0)
            && SumSq(Centred(ps)) != 0.0
  {
    var ps := [Point(0.0, 0.0), Point(2.0, 0.0), Point(0.0, 2.0)];
    ExampleMean();
    SumSqPositive(Centred(ps), 0);
  }

  /** The three-landmark example of a set and its copy scaled by 2 and moved by
   *  (10, 10): as written, the first landmark lands at (26/3, 26/3), not at (10, 10). */
  lemma AlignExampleAsWritten(m: Math)
    requires TrigLaws(m)
    ensures var ps := [Point(0.0, 0.0), Point(2.0, 0.0), Point(0.0, 2.0)];
            var qs := [Point(10.0, 10.0), Point(14.0, 10.0), Point(10.0, 14.0)];
            && SumSq(Centred(ps)) != 0.0
            && Align(ps, qs, m)[0] == Point(26.0 / 3.0, 26.0 / 3.0)
            && Align(ps, qs, m) != qs
  {
    var ps := [Point(0.0, 0.0), Point(2.0, 0.0), Point(0.0, 2.0)];
    var qs := [Point(10.0, 10.0), Point(14.0, 10.0), Point(10.0, 14.0)];
    ExampleSpread();
    ExampleAlignment(m);
    var c := Centred(ps);
    assert ScalePoints(c, 4.0)[0] == Point(-8.0 / 3.0, -8.0 / 3.0);
  }

  /** The example's alignment in closed form: the centred set scaled by 2 * 2 = 4,
   *  placed on the target's centroid (34/3, 34/3). */
  lemma ExampleAlignment(m: Math)
    requires TrigLaws(m)
    ensures var ps := [Point(0.0, 0.0), Point(2.0, 0.0), Point(0.0, 2.0)];
            var qs := [Point(10.0, 10.0), Point(14.0, 10.0), Point(10.0, 14.0)];
            && SumSq(Centred(ps)) != 0.0
            && Align(ps, qs, m) == AddToPoints(ScalePoints(Centred(ps), 4.0), Point(34.0 / 3.0, 34.0 / 3.0))
  {
    var ps := [Point(0.0, 0.0), Point(2.0, 0.0), Point(0.0, 2.0)];
    var qs := [Point(10.0, 10.0), Point(14.0, 10.0), Point(10.0, 14.0)];
    ExampleTarget();
    ExampleSpread();
    AlignOntoScaledCopy(ps, qs, 2.0, 4.0, Point(10.0, 10.0), m);
  }

  /** `AlignOfScaledCopy` for a target `qs` known to be the copy, and the square
   *  `kk` of the scale given by value. */
  lemma AlignOntoScaledCopy(ps: seq<Point>, qs: seq<Point>, k: real, kk: real, d: Point, m: Math)
    requires TrigLaws(m) && |ps| > 0 && k > 0.0 && kk == k * k
    requires SumSq(Centred(ps)) != 0.0
    requires qs == AddToPoints(ScalePoints(ps, k), d)
    ensures |qs| == |ps|
    ensures Align(ps, qs, m) == AddToPoints(ScalePoints(Centred(ps), kk), CalcMean(qs))
  {
    AlignOfScaledCopy(ps, k, d, m);
  }

  /** The example's target is the set scaled by 2 and moved by (10, 10), and its
   *  centroid is (34/3, 34/3). */
  lemma ExampleTarget()
    ensures var ps := [Point(0.0, 0.0), Point(2.0, 0.0), Point(0.0, 2.0)];
            var qs := [Point(10.0, 10.0), Point(14.0, 10.0), Point(10.0, 14.0)];
            && AddToPoints(ScalePoints(ps, 2.0), Point(10.0, 10.0)) == qs
            && CalcMean(qs) == Point(34.0 / 3.0, 34.0 / 3.0)
  {
    var ps := [Point(0.0, 0.0), Point(2.0, 0.0), Point(0.0, 2.0)];
    var qs := [Point(10.0, 10.0), Point(14.0, 10.0), Point(10.0, 14.0)];
    assert AddToPoints(ScalePoints(ps, 2.0), Point(10.0, 10.0)) == qs;
    ExampleMean();
    MeanOfScaledCopy(ps, 2.0, Point(10.0, 10.0));
  }

  // ----- the evidently intended scaling -----

  /** Lines 15-37 with the scale factor a similarity fit calls for: the square root of
   *  s2 / s1, the ratio of the two centred sets' root-sum-square sizes. */
  function AlignCentredIntended(centred1: seq<Point>, centred2: seq<Point>, mean2: Point, m: Math): (r: seq<Point>)
    requires |centred1| <= |centred2| && SumSq(centred1) != 0.0
    ensures |r| == |centred1|
  {
    RotateAndPlace(ScalePoints(centred1, m.sqrt(SumSq(centred2) / SumSq(centred1))), centred2, mean2, m)
  }

  /** `procrustesAlign` with the square root at line 17. */
  function AlignIntended(pointSet1: seq<Point>, pointSet2: seq<Point>, m: Math): (r: seq<Point>)
    requires 0 < |pointSet1| <= |pointSet2|
    requires SumSq(Centred(pointSet1)) != 0.0
    ensures |r| == |pointSet1|
  {
    AlignCentredIntended(Centred(pointSet1), Centred(pointSet2), CalcMean(pointSet2), m)
  }

  /** The corrected aligner also places its result on the target's centroid. */
  lemma AlignIntendedKeepsTargetCentroid(ps: seq<Point>, qs: seq<Point>, m: Math)
    requires 0 < |ps| <= |qs|
    requires SumSq(Centred(ps)) != 0.0
    ensures CalcMean(AlignIntended(ps, qs, m)) == CalcMean(qs)
  {
    var c := Centred(ps);
    var scaling := m.sqrt(SumSq(Centred(qs)) / SumSq(c));
    SumOfScaledXs(c, scaling);
    SumOfScaledYs(c, scaling);
    RotateAndPlaceKeepsCentroid(ScalePoints(c, scaling), Centred(qs), CalcMean(qs), m);
  }

  /** With the square root, a centred set aligned onto its copy scaled by k > 0 comes
   *  out scaled by k. */
  lemma AlignCentredIntendedOfScaledCopy(centred: seq<Point>, k: real, mean2: Point, m: Math)
    requires TrigLaws(m) && SqrtLaws(m) && k > 0.0 && SumSq(centred) != 0.0
    ensures AlignCentredIntended(centred, ScalePoints(centred, k), mean2, m)
         == AddToPoints(ScalePoints(centred, k), mean2)
  {
    ScaledCopyRatio(centred, k);
    SqrtOfSquare(m, k);
    SumSqNonNegative(centred);
    RotateAndPlaceOfScaledCopy(centred, k, k, mean2, m);
  }

  /** With the square root, aligning a set onto its copy scaled by any k > 0 and moved
   *  by any d reproduces the copy exactly. */
  lemma AlignIntendedRecoversScaledCopy(ps: seq<Point>, k: real, d: Point, m: Math)
    requires TrigLaws(m) && SqrtLaws(m) && |ps| > 0 && k > 0.0
    requires SumSq(Centred(ps)) != 0.0
    ensures AlignIntended(ps, AddToPoints(ScalePoints(ps, k), d), m) == AddToPoints(ScalePoints(ps, k), d)
  {
    var q := AddToPoints(ScalePoints(ps, k), d);
    CentredOfScaledCopy(ps, k, d);
    AlignCentredIntendedOfScaledCopy(Centred(ps), k, CalcMean(q), m);
    CentredAndMeanRebuild(q);
  }

  /** The three-landmark example with the intended scaling lands exactly on the target. */
  lemma AlignExampleIntended(m: Math)
    requires TrigLaws(m) && SqrtLaws(m)
    ensures var ps := [Point(0.0, 0.0), Point(2.0, 0.0), Point(0.0, 2.0)];
            var qs := [Point(10.0, 10.0), Point(14.0, 10.0), Point(10.0, 14.0)];
            && SumSq(Centred(ps)) != 0.0
            && AlignIntended(ps, qs, m) == qs
  {
    var ps := [Point(0.0, 0.0), Point(2.0, 0.0), Point(0.0, 2.0)];
    ExampleTarget();
    ExampleSpread();
    AlignIntendedRecoversScaledCopy(ps, 2.0, Point(10.0, 10.0), m);
  }
}
