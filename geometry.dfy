/** Points in image pixel space, the parallelogram completion that the cuboid
    reconstruction is built from, and the conversions between a flat list of
    coordinates (as the annotation server and the drawing library use them) and
    a list of points. Coordinates are exact reals. */
module Geometry {

  datatype Point = Point(x: real, y: real)

  function Midpoint(a: Point, b: Point): (m: Point)
    ensures m.x - a.x == b.x - m.x && m.y - a.y == b.y - m.y
  {
    Point((a.x + b.x) / 2.0, (a.y + b.y) / 2.0)
  }

  /** The fourth corner d of the parallelogram a, b, c, d whose diagonal runs from
      a to c: b reflected through the midpoint of a and c. */
  function FourthPoint(a: Point, b: Point, c: Point): (d: Point)
    ensures a.x + c.x == b.x + d.x && a.y + c.y == b.y + d.y
    ensures Midpoint(b, d) == Midpoint(a, c)
  {
    var o := Midpoint(a, c);
    Point(2.0 * o.x - b.x, 2.0 * o.y - b.y)
  }

  /** Any point that closes the parallelogram is the one FourthPoint computes. */
  lemma FourthPointUnique(a: Point, b: Point, c: Point, d: Point)
    requires a.x + c.x == b.x + d.x && a.y + c.y == b.y + d.y
    ensures d == FourthPoint(a, b, c)
  {
  }

  /** Completing twice from the same diagonal gives back the corner started from. */
  lemma FourthPointInvolution(a: Point, b: Point, c: Point)
    ensures FourthPoint(a, FourthPoint(a, b, c), c) == b
  {
  }

  /** The quadrilateral q[0], q[1], q[2], q[3] (in drawing order) is a
      parallelogram: its two diagonals share their midpoint, that is the sums of
      opposite corners are equal. */
  predicate IsParallelogram(q: seq<Point>)
  {
    && |q| == 4
    && q[0].x + q[2].x == q[1].x + q[3].x
    && q[0].y + q[2].y == q[1].y + q[3].y
  }

  /** The corners of a shape as one flat list x0, y0, x1, y1, ... */
  function Flatten(ps: seq<Point>): (flat: seq<real>)
    ensures |flat| == 2 * |ps|
    ensures forall i :: 0 <= i < |ps| ==> flat[2 * i] == ps[i].x && flat[2 * i + 1] == ps[i].y
  {
    if ps == [] then [] else [ps[0].x, ps[0].y] + Flatten(ps[1..])
  }

  /** Consecutive pairs of a flat coordinate list, in order. */
  function PairPoints(flat: seq<real>): (ps: seq<Point>)
    requires |flat| % 2 == 0
    ensures |ps| == |flat| / 2
    ensures forall i :: 0 <= i < |ps| ==> ps[i] == Point(flat[2 * i], flat[2 * i + 1])
  {
    if flat == [] then [] else [Point(flat[0], flat[1])] + PairPoints(flat[2..])
  }

  lemma {:induction false} PairFlatten(ps: seq<Point>)
    ensures PairPoints(Flatten(ps)) == ps
  {
    if ps != [] {
      PairFlatten(ps[1..]);
      assert Flatten(ps)[2..] == Flatten(ps[1..]);
    }
  }

  lemma {:induction false} FlattenPair(flat: seq<real>)
    requires |flat| % 2 == 0
    ensures Flatten(PairPoints(flat)) == flat
  {
    if flat != [] {
      FlattenPair(flat[2..]);
      assert flat == [flat[0], flat[1]] + flat[2..];
    }
  }
}
