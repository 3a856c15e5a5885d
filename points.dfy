/** Landmark positions in image pixel space, shared by the aligner and the mesh builder.
 *  A point is the `[x, y]` pair of the JavaScript source; a point set is an ordered
 *  sequence of them, index i being the same landmark in every set. */
module Points {
  datatype Point = Point(x: real, y: real)

  /** `pointSet.map(point => point[0])` */
  function Xs(ps: seq<Point>): (r: seq<real>)
    ensures |r| == |ps|
    ensures forall i :: 0 <= i < |ps| ==> r[i] == ps[i].x
  {
    seq(|ps|, i requires 0 <= i < |ps| => ps[i].x)
  }

  /** `pointSet.map(point => point[1])` */
  function Ys(ps: seq<Point>): (r: seq<real>)
    ensures |r| == |ps|
    ensures forall i :: 0 <= i < |ps| ==> r[i] == ps[i].y
  {
    seq(|ps|, i requires 0 <= i < |ps| => ps[i].y)
  }
}
