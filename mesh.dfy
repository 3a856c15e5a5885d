/** The mesh geometry of `face_ager.js`: the integer bounding box of the tracked
 *  landmarks, the landmarks moved into that box, and the flat vertex arrays, six
 *  numbers per triangle, that the GL buffers receive. The triangles are the index
 *  triples of the face model (`pModel.path.vertices`). */
module Mesh {
  import opened Points
  import opened RealFacts

  /** One face-model triangle: three indices into the landmark array. */
  datatype Triangle = Triangle(a: nat, b: nat, c: nat)

  /** `vertices[i][j]`, corner j of a triangle. */
  function Corner(t: Triangle, j: int): nat
    requires 0 <= j < 3
  {
    if j == 0 then t.a else if j == 1 then t.b else t.c
  }

  /** Every corner of every triangle names one of `n` landmarks. */
  predicate IndicesIn(tris: seq<Triangle>, n: nat)
  {
    forall i :: 0 <= i < |tris| ==> tris[i].a < n && tris[i].b < n && tris[i].c < n
  }

  /** The object `findDimensions` returns. */
  datatype Dimensions = Dimensions(minX: int, maxX: int, minY: int, maxY: int, width: int, height: int)

  /** `Math.floor` */
  function Floor(x: real): (r: int)
    ensures r as real <= x < r as real + 1.0
  {
    x.Floor
  }

  /** `Math.ceil`, as the negated floor of the negation. */
  function Ceil(x: real): (r: int)
    ensures r as real - 1.0 < x <= r as real
  {
    -((-x).Floor)
  }

  // ----- the bounding box -----

  /** The running maximum of lines 69 and 71: start at `seed`, and take each value
   *  that is strictly greater than the current one. */
  function RunningMax(seed: real, s: seq<real>): (r: real)
    ensures r >= seed
    ensures forall i :: 0 <= i < |s| ==> r >= s[i]
    ensures r == seed || exists i :: 0 <= i < |s| && r == s[i]
  {
    if s == [] then seed
    else
      var m := RunningMax(seed, s[..|s| - 1]);
      if s[|s| - 1] > m then s[|s| - 1] else m
  }

  /** The running minimum of lines 70 and 72. */
  function RunningMin(seed: real, s: seq<real>): (r: real)
    ensures r <= seed
    ensures forall i :: 0 <= i < |s| ==> r <= s[i]
    ensures r == seed || exists i :: 0 <= i < |s| && r == s[i]
  {
    if s == [] then seed
    else
      var m := RunningMin(seed, s[..|s| - 1]);
      if s[|s| - 1] < m then s[|s| - 1] else m
  }

  /** One more value either replaces the running maximum or leaves it. */
  lemma RunningMaxStep(seed: real, s: seq<real>, i: int)
    requires 0 <= i < |s|
    ensures RunningMax(seed, s[..i + 1])
         == if s[i] > RunningMax(seed, s[..i]) then s[i] else RunningMax(seed, s[..i])
  {
    assert s[..i + 1][..i] == s[..i];
  }

  /** One more value either replaces the running minimum or leaves it. */
  lemma RunningMinStep(seed: real, s: seq<real>, i: int)
    requires 0 <= i < |s|
    ensures RunningMin(seed, s[..i + 1])
         == if s[i] < RunningMin(seed, s[..i]) then s[i] else RunningMin(seed, s[..i])
  {
    assert s[..i + 1][..i] == s[..i];
  }

  /** What `findDimensions` returns: the x range seeded with [textureWidth, 0], the
   *  y range with [textureHeight, 0], widened to integers outward. */
  function BoundingBox(points: seq<Point>, textureWidth: int, textureHeight: int): Dimensions
  {
    var minX := Floor(RunningMin(textureWidth as real, Xs(points)));
    var maxX := Ceil(RunningMax(0.0, Xs(points)));
    var minY := Floor(RunningMin(textureHeight as real, Ys(points)));
    var maxY := Ceil(RunningMax(0.0, Ys(points)));
    Dimensions(minX, maxX, minY, maxY, maxX - minX, maxY - minY)
  }

  /** `findDimensions`: one pass keeping the four extremes, then floor and ceiling. */
  method FindDimensions(points: seq<Point>, textureWidth: int, textureHeight: int) returns (d: Dimensions)
    ensures d == BoundingBox(points, textureWidth, textureHeight)
  {
    var maxX: real := 0.0;
    var minX: real := textureWidth as real;
    var maxY: real := 0.0;
    var minY: real := textureHeight as real;

    var i := 0;
    while i < |points|
      invariant 0 <= i <= |points|
      invariant maxX == RunningMax(0.0, Xs(points)[..i])
      invariant minX == RunningMin(textureWidth as real, Xs(points)[..i])
      invariant maxY == RunningMax(0.0, Ys(points)[..i])
      invariant minY == RunningMin(textureHeight as real, Ys(points)[..i])
    {
      RunningMaxStep(0.0, Xs(points), i);
      RunningMinStep(textureWidth as real, Xs(points), i);
      RunningMaxStep(0.0, Ys(points), i);
      RunningMinStep(textureHeight as real, Ys(points), i);
      if points[i].x > maxX { maxX := points[i].x; }
      if points[i].x < minX { minX := points[i].x; }
      if points[i].y > maxY { maxY := points[i].y; }
      if points[i].y < minY { minY := points[i].y; }
      i := i + 1;
    }
    assert Xs(points)[..i] == Xs(points);
    assert Ys(points)[..i] == Ys(points);

    var minXInt := Floor(minX);
    var maxXInt := Ceil(maxX);
    var minYInt := Floor(minY);
    var maxYInt := Ceil(maxY);
    d := Dimensions(minXInt, maxXInt, minYInt, maxYInt, maxXInt - minXInt, maxYInt - minYInt);
  }

  /** Lines 62-78: every point lies inside its box. */
  lemma BoxContainsPoints(points: seq<Point>, textureWidth: int, textureHeight: int)
    ensures var d := BoundingBox(points, textureWidth, textureHeight);
            forall i :: 0 <= i < |points| ==>
              && d.minX as real <= points[i].x <= d.maxX as real
              && d.minY as real <= points[i].y <= d.maxY as real
  {
    var d := BoundingBox(points, textureWidth, textureHeight);
    forall i | 0 <= i < |points|
      ensures d.minX as real <= points[i].x <= d.maxX as real
      ensures d.minY as real <= points[i].y <= d.maxY as real
    {
      assert Xs(points)[i] == points[i].x;
      assert Ys(points)[i] == points[i].y;
    }
  }

  /** Lines 63-66 and 75-78: because of the seeds, the box always reaches the origin
   *  and the texture's far edge. */
  lemma BoxCoversSeeds(points: seq<Point>, textureWidth: int, textureHeight: int)
    ensures var d := BoundingBox(points, textureWidth, textureHeight);
            && d.minX <= textureWidth && d.maxX >= 0
            && d.minY <= textureHeight && d.maxY >= 0
  {
  }

  /** Lines 75-82: width and height are the spans of the integer bounds, and for a
   *  non-empty point set neither is negative. */
  lemma BoxSize(points: seq<Point>, textureWidth: int, textureHeight: int)
    ensures var d := BoundingBox(points, textureWidth, textureHeight);
            && d.width == d.maxX - d.minX
            && d.height == d.maxY - d.minY
            && (|points| > 0 ==> d.width >= 0 && d.height >= 0)
  {
    if |points| > 0 {
      BoxContainsPoints(points, textureWidth, textureHeight);
    }
  }

  /** The box is the smallest integer one holding the points and the seeds: any
   *  integer bounds that do so lie outside it. */
  lemma BoxIsSmallest(points: seq<Point>, textureWidth: int, textureHeight: int,
                      loX: int, hiX: int, loY: int, hiY: int)
    requires loX <= textureWidth && hiX >= 0
    requires loY <= textureHeight && hiY >= 0
    requires forall i :: 0 <= i < |points| ==> loX as real <= points[i].x <= hiX as real
    requires forall i :: 0 <= i < |points| ==> loY as real <= points[i].y <= hiY as real
    ensures var d := BoundingBox(points, textureWidth, textureHeight);
            && loX <= d.minX && d.maxX <= hiX
            && loY <= d.minY && d.maxY <= hiY
  {
    AxisIsSmallest(Xs(points), textureWidth, loX, hiX);
    AxisIsSmallest(Ys(points), textureHeight, loY, hiY);
  }

  /** One axis of `BoxIsSmallest`: the running extremes stay within any bounds
   *  that hold every value and the seeds. */
  lemma AxisIsSmallest(vs: seq<real>, seed: int, lo: int, hi: int)
    requires lo <= seed && hi >= 0
    requires forall i :: 0 <= i < |vs| ==> lo as real <= vs[i] <= hi as real
    ensures lo as real <= RunningMin(seed as real, vs)
    ensures RunningMax(0.0, vs) <= hi as real
  {
    var lowest := RunningMin(seed as real, vs);
    var highest := RunningMax(0.0, vs);
    if lowest != seed as real {
      var i :| 0 <= i < |vs| && lowest == vs[i];
      assert lo as real <= lowest;
    }
    if highest != 0.0 {
      var i :| 0 <= i < |vs| && highest == vs[i];
      assert highest <= hi as real;
    }
  }

  // ----- moving the points into the box -----

  /** What `correctPoints` returns: every point moved by (-minX, -minY). */
  function Corrected(points: seq<Point>, minX: int, minY: int): (r: seq<Point>)
    ensures |r| == |points|
    ensures forall i :: 0 <= i < |points| ==>
      r[i] == Point(points[i].x - minX as real, points[i].y - minY as real)
  {
    seq(|points|, i requires 0 <= i < |points| =>
      Point(points[i].x - minX as real, points[i].y - minY as real))
  }

  /** `correctPoints`: fills the result index by index. */
  method CorrectPoints(points: seq<Point>, minX: int, minY: int) returns (correctedPoints: seq<Point>)
    ensures correctedPoints == Corrected(points, minX, minY)
  {
    correctedPoints := [];
    var i := 0;
    while i < |points|
      invariant 0 <= i <= |points|
      invariant |correctedPoints| == i
      invariant forall j :: 0 <= j < i ==>
        correctedPoints[j] == Point(points[j].x - minX as real, points[j].y - minY as real)
    {
      correctedPoints := correctedPoints + [Point(points[i].x - minX as real, points[i].y - minY as real)];
      i := i + 1;
    }
  }

  /** Lines 11-12 with 62-95: points corrected by their own box lie in
   *  [0, width] x [0, height]. */
  lemma CorrectedWithinBox(points: seq<Point>, textureWidth: int, textureHeight: int)
    ensures var d := BoundingBox(points, textureWidth, textureHeight);
            var ps := Corrected(points, d.minX, d.minY);
            forall i :: 0 <= i < |ps| ==> InBox(ps[i], d.width, d.height)
  {
    BoxContainsPoints(points, textureWidth, textureHeight);
  }

  predicate InBox(p: Point, width: int, height: int)
  {
    0.0 <= p.x <= width as real && 0.0 <= p.y <= height as real
  }

  // ----- the vertex arrays -----

  /** The six numbers one triangle contributes: each corner's x over `sx`, then its y
   *  over `sy`. */
  function TriangleCoords(t: Triangle, points: seq<Point>, sx: real, sy: real): (r: seq<real>)
    requires t.a < |points| && t.b < |points| && t.c < |points|
    requires sx != 0.0 && sy != 0.0
    ensures |r| == 6
  {
    [points[t.a].x / sx, points[t.a].y / sy,
     points[t.b].x / sx, points[t.b].y / sy,
     points[t.c].x / sx, points[t.c].y / sy]
  }

  /** The six numbers one triangle contributes to the position array: each
   *  corner's x, then its y, unscaled. */
  function TrianglePositions(t: Triangle, points: seq<Point>): (r: seq<real>)
    requires t.a < |points| && t.b < |points| && t.c < |points|
    ensures |r| == 6
  {
    [points[t.a].x, points[t.a].y,
     points[t.b].x, points[t.b].y,
     points[t.c].x, points[t.c].y]
  }

  /** What `createTextureVertices` returns, triangle by triangle. It divides by the
   *  box's width and height, so those must not be zero once there is a triangle. */
  function TextureVertices(tris: seq<Triangle>, points: seq<Point>, width: int, height: int): (r: seq<real>)
    requires IndicesIn(tris, |points|)
    requires tris != [] ==> width != 0 && height != 0
    ensures |r| == 6 * |tris|
  {
    if tris == [] then []
    else
      var n := |tris| - 1;
      TextureVertices(tris[..n], points, width, height)
        + TriangleCoords(tris[n], points, width as real, height as real)
  }

  /** Lines 97-110: element 6i + 2j is corner j of triangle i, x over width; the next
   *  one is its y over height. */
  lemma {:induction false} TextureVerticesLayout(tris: seq<Triangle>, points: seq<Point>, width: int, height: int)
    requires IndicesIn(tris, |points|)
    requires tris != [] ==> width != 0 && height != 0
    ensures var r := TextureVertices(tris, points, width, height);
            forall i, j :: 0 <= i < |tris| && 0 <= j < 3 ==>
              && r[6 * i + 2 * j] == points[Corner(tris[i], j)].x / width as real
              && r[6 * i + 2 * j + 1] == points[Corner(tris[i], j)].y / height as real
  {
    if tris != [] {
      var n := |tris| - 1;
      TextureVerticesLayout(tris[..n], points, width, height);
      var prefix := TextureVertices(tris[..n], points, width, height);
      var last := TriangleCoords(tris[n], points, width as real, height as real);
      var r := prefix + last;
      forall i, j | 0 <= i < |tris| && 0 <= j < 3
        ensures r[6 * i + 2 * j] == points[Corner(tris[i], j)].x / width as real
        ensures r[6 * i + 2 * j + 1] == points[Corner(tris[i], j)].y / height as real
      {
        if i < n {
          assert tris[..n][i] == tris[i];
          assert r[6 * i + 2 * j] == prefix[6 * i + 2 * j];
          assert r[6 * i + 2 * j + 1] == prefix[6 * i + 2 * j + 1];
        } else {
          assert r[6 * n + 2 * j] == last[2 * j];
          assert r[6 * n + 2 * j + 1] == last[2 * j + 1];
        }
      }
    }
  }

  /** What `createPositionVertices` returns: the same layout with the raw coordinates. */
  function PositionVertices(tris: seq<Triangle>, points: seq<Point>): (r: seq<real>)
    requires IndicesIn(tris, |points|)
    ensures |r| == 6 * |tris|
    ensures forall i, j :: 0 <= i < |tris| && 0 <= j < 3 ==>
      && r[6 * i + 2 * j] == points[Corner(tris[i], j)].x
      && r[6 * i + 2 * j + 1] == points[Corner(tris[i], j)].y
  {
    if tris == [] then []
    else
      var n := |tris| - 1;
      PositionVertices(tris[..n], points) + TrianglePositions(tris[n], points)
  }

  /** `createTextureVertices`: six pushes per triangle. */
  method CreateTextureVertices(vertices: seq<Triangle>, points: seq<Point>, width: int, height: int)
    returns (textureVertices: seq<real>)
    requires IndicesIn(vertices, |points|)
    requires vertices != [] ==> width != 0 && height != 0
    ensures textureVertices == TextureVertices(vertices, points, width, height)
  {
    textureVertices := [];
    var i := 0;
    while i < |vertices|
      invariant 0 <= i <= |vertices|
      invariant textureVertices == TextureVertices(vertices[..i], points, width, height)
    {
      assert vertices[..i + 1][..i] == vertices[..i];
      var t := vertices[i];
      textureVertices := textureVertices + [points[t.a].x / width as real];
      textureVertices := textureVertices + [points[t.a].y / height as real];
      textureVertices := textureVertices + [points[t.b].x / width as real];
      textureVertices := textureVertices + [points[t.b].y / height as real];
      textureVertices := textureVertices + [points[t.c].x / width as real];
      textureVertices := textureVertices + [points[t.c].y / height as real];
      i := i + 1;
    }
    assert vertices[..i] == vertices;
  }

  /** `createPositionVertices`: six pushes per triangle. */
  method CreatePositionVertices(vertices: seq<Triangle>, points: seq<Point>)
    returns (positionVertices: seq<real>)
    requires IndicesIn(vertices, |points|)
    ensures positionVertices == PositionVertices(vertices, points)
  {
    positionVertices := [];
    var i := 0;
    while i < |vertices|
      invariant 0 <= i <= |vertices|
      invariant positionVertices == PositionVertices(vertices[..i], points)
    {
      assert vertices[..i + 1][..i] == vertices[..i];
      var t := vertices[i];
      positionVertices := positionVertices + [points[t.a].x];
      positionVertices := positionVertices + [points[t.a].y];
      positionVertices := positionVertices + [points[t.b].x];
      positionVertices := positionVertices + [points[t.b].y];
      positionVertices := positionVertices + [points[t.c].x];
      positionVertices := positionVertices + [points[t.c].y];
      i := i + 1;
    }
    assert vertices[..i] == vertices;
  }

  /** Every value lies in [0, 1]. */
  predicate AllInUnit(s: seq<real>)
  {
    forall k :: 0 <= k < |s| ==> 0.0 <= s[k] <= 1.0
  }

  /** Lines 11-14 with 97-110: texture coordinates of points inside a box of positive
   *  size, taken relative to that box, lie in [0, 1]. */
  lemma {:induction false} TextureCoordsInUnit(tris: seq<Triangle>, points: seq<Point>, width: int, height: int)
    requires IndicesIn(tris, |points|)
    requires width > 0 && height > 0
    requires forall i :: 0 <= i < |points| ==> InBox(points[i], width, height)
    ensures AllInUnit(TextureVertices(tris, points, width, height))
  {
    if tris != [] {
      var n := |tris| - 1;
      TextureCoordsInUnit(tris[..n], points, width, height);
      var t := tris[n];
      UnitCoords(points[t.a], width, height);
      UnitCoords(points[t.b], width, height);
      UnitCoords(points[t.c], width, height);
      var front := TextureVertices(tris[..n], points, width, height);
      var tail := TriangleCoords(t, points, width as real, height as real);
      assert AllInUnit(tail);
      UnitConcat(front, tail);
    }
  }

  lemma UnitConcat(a: seq<real>, b: seq<real>)
    requires AllInUnit(a) && AllInUnit(b)
    ensures AllInUnit(a + b)
  {
    forall k | 0 <= k < |a + b| ensures 0.0 <= (a + b)[k] <= 1.0 {
      if k >= |a| {
        assert (a + b)[k] == b[k - |a|];
      }
    }
  }

  lemma UnitCoords(p: Point, width: int, height: int)
    requires width > 0 && height > 0 && InBox(p, width, height)
    ensures 0.0 <= p.x / width as real <= 1.0
    ensures 0.0 <= p.y / height as real <= 1.0
  {
    UnitRatio(p.x, width as real);
    UnitRatio(p.y, height as real);
  }

  /** `tv` is `pv` with the values at even places divided by `w` and those at odd
   *  places by `h`. */
  ghost predicate ScaledBy(tv: seq<real>, pv: seq<real>, w: real, h: real)
    requires w != 0.0 && h != 0.0
  {
    && |tv| == |pv|
    && (forall k :: 0 <= 2 * k < |tv| ==> tv[2 * k] == pv[2 * k] / w)
    && (forall k :: 0 <= 2 * k + 1 < |tv| ==> tv[2 * k + 1] == pv[2 * k + 1] / h)
  }

  /** Each texture coordinate is the matching position coordinate over the box's
   *  width (even places) or height (odd places). */
  lemma {:induction false} TextureIsScaledPosition(tris: seq<Triangle>, points: seq<Point>, width: int, height: int)
    requires IndicesIn(tris, |points|)
    requires width != 0 && height != 0
    ensures ScaledBy(TextureVertices(tris, points, width, height), PositionVertices(tris, points),
                     width as real, height as real)
  {
    if tris != [] {
      var n := |tris| - 1;
      var w, h := width as real, height as real;
      TextureIsScaledPosition(tris[..n], points, width, height);
      TriangleCoordsScaled(tris[n], points, w, h);
      ScaledConcat(TextureVertices(tris[..n], points, width, height), PositionVertices(tris[..n], points),
                   TriangleCoords(tris[n], points, w, h), TrianglePositions(tris[n], points), w, h, 3 * n);
    }
  }

  lemma TriangleCoordsScaled(t: Triangle, points: seq<Point>, w: real, h: real)
    requires t.a < |points| && t.b < |points| && t.c < |points|
    requires w != 0.0 && h != 0.0
    ensures ScaledBy(TriangleCoords(t, points, w, h), TrianglePositions(t, points), w, h)
  {
  }

  /** Two scaled sequences, the first of even length `2 * half`, concatenate to one. */
  lemma ScaledConcat(a: seq<real>, b: seq<real>, c: seq<real>, d: seq<real>, w: real, h: real, half: nat)
    requires w != 0.0 && h != 0.0
    requires ScaledBy(a, b, w, h) && ScaledBy(c, d, w, h) && |a| == 2 * half
    ensures ScaledBy(a + c, b + d, w, h)
  {
    forall k | 0 <= 2 * k < |a + c| ensures (a + c)[2 * k] == (b + d)[2 * k] / w {
      if 2 * k >= |a| {
        assert (a + c)[2 * k] == c[2 * (k - half)] && (b + d)[2 * k] == d[2 * (k - half)];
      }
    }
    forall k | 0 <= 2 * k + 1 < |a + c| ensures (a + c)[2 * k + 1] == (b + d)[2 * k + 1] / h {
      if 2 * k + 1 >= |a| {
        assert (a + c)[2 * k + 1] == c[2 * (k - half) + 1] && (b + d)[2 * k + 1] == d[2 * (k - half) + 1];
      }
    }
  }

  // ----- the FaceAger object -----

  /** A right triangle of side 4 on a 640 x 480 texture: its box is [0, 4] x [0, 4]. */
  lemma ExampleTriangleBox()
    ensures var points := [Point(0.0, 0.0), Point(4.0, 0.0), Point(0.0, 4.0)];
            BoundingBox(points, 640, 480) == Dimensions(0, 4, 0, 4, 4, 4)
  {
    var points := [Point(0.0, 0.0), Point(4.0, 0.0), Point(0.0, 4.0)];
    assert Xs(points) == [0.0, 4.0, 0.0];
    assert Ys(points) == [0.0, 0.0, 4.0];
    assert [0.0, 4.0, 0.0][..2] == [0.0, 4.0];
    assert [0.0, 0.0, 4.0][..2] == [0.0, 0.0];
    assert [0.0, 4.0][..1] == [0.0];
    assert [0.0, 0.0][..1] == [0.0];
  }

  /** The same triangle, already in its box, gets the texture coordinates (0, 0),
   *  (1, 0) and (0, 1). */
  lemma ExampleTriangleTexture()
    ensures var points := [Point(0.0, 0.0), Point(4.0, 0.0), Point(0.0, 4.0)];
            TextureVertices([Triangle(0, 1, 2)], Corrected(points, 0, 0), 4, 4)
              == [0.0, 0.0, 1.0, 0.0, 0.0, 1.0]
  {
    var points := [Point(0.0, 0.0), Point(4.0, 0.0), Point(0.0, 4.0)];
    assert Corrected(points, 0, 0) == points;
    assert [Triangle(0, 1, 2)][..0] == [];
  }

  /** The state of `FaceAger` that is not GL plumbing: what `load` stores and `draw`
   *  reads. `loaded` records that `load` has run; before that the source's fields
   *  are undefined. */
  class FaceAger {
    var vertices: seq<Triangle>
    var dimensions: Dimensions
    var points: seq<Point>
    var textureVertices: seq<real>
    ghost var loaded: bool

    /** What a completed `load` leaves behind: the triangles index the stored points,
     *  the points lie in the box, and every texture coordinate lies in [0, 1]. */
    ghost predicate Valid()
      reads this
    {
      loaded ==>
        && IndicesIn(vertices, |points|)
        && |textureVertices| == 6 * |vertices|
        && (forall i :: 0 <= i < |points| ==> InBox(points[i], dimensions.width, dimensions.height))
        && AllInUnit(textureVertices)
    }

    /** Lines 2-6 set up only GL objects, so nothing is loaded yet. */
    constructor ()
      ensures Valid() && !loaded
    {
      vertices := [];
      dimensions := Dimensions(0, 0, 0, 0, 0, 0);
      points := [];
      textureVertices := [];
      loaded := false;
    }

    /** Lines 8-14: keep the model's triangles, find the landmarks' box in the
     *  texture, move the landmarks into it and compute the texture coordinates.
     *  Dividing by the box's width and height needs both to be non-zero once there
     *  is a triangle. */
    method Load(textureWidth: nat, textureHeight: nat, pts: seq<Point>, modelVertices: seq<Triangle>)
      modifies this
      requires IndicesIn(modelVertices, |pts|)
      requires modelVertices != [] ==>
        BoundingBox(pts, textureWidth, textureHeight).width != 0 &&
        BoundingBox(pts, textureWidth, textureHeight).height != 0
      ensures Valid() && loaded
      ensures vertices == modelVertices
      ensures dimensions == BoundingBox(pts, textureWidth, textureHeight)
      ensures points == Corrected(pts, dimensions.minX, dimensions.minY)
      ensures textureVertices == TextureVertices(vertices, points, dimensions.width, dimensions.height)
    {
      vertices := modelVertices;
      dimensions := FindDimensions(pts, textureWidth, textureHeight);
      points := CorrectPoints(pts, dimensions.minX, dimensions.minY);
      textureVertices := CreateTextureVertices(vertices, points, dimensions.width, dimensions.height);
      loaded := true;

      CorrectedWithinBox(pts, textureWidth, textureHeight);
      if vertices != [] {
        BoxSize(pts, textureWidth, textureHeight);
        TextureCoordsInUnit(vertices, points, dimensions.width, dimensions.height);
      }
    }

    /** Lines 42-55: the position array for this frame's landmarks, and the vertex
     *  count handed to `drawArrays`, three per triangle. Before `load` the source
     *  would fail on the undefined `vertices`; a triangle index past the end of
     *  `pts` would make line 116 throw, so every index must be in range. The
     *  position array pairs off with the texture array `load` kept: same length,
     *  one (x, y) per vertex. */
    method Draw(pts: seq<Point>) returns (positionVertices: seq<real>, vertexCount: int)
      requires Valid() && loaded
      requires IndicesIn(vertices, |pts|)
      ensures positionVertices == PositionVertices(vertices, pts)
      ensures vertexCount == 3 * |vertices|
      ensures |positionVertices| == 2 * vertexCount
      ensures |positionVertices| == |textureVertices|
    {
      positionVertices := CreatePositionVertices(vertices, pts);
      vertexCount := |vertices| * 3;
    }
  }
}
