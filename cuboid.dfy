/** Reconstruction of the eight projected corners of a cuboid from the four
    corners an annotator placed, for each of the four face-visibility codes
    "1" to "4" (main.py, draw_shapes). */
module Cuboid {
  import opened Geometry

  /** The eight corners: front or rear, top or bottom, left or right. */
  datatype Corners = Corners(
    ftl: Point, ftr: Point, fbl: Point, fbr: Point,
    rtl: Point, rtr: Point, rbl: Point, rbr: Point)

  /** The attribute names that select a face-visibility configuration. */
  predicate IsCode(s: string)
  {
    s == "1" || s == "2" || s == "3" || s == "4"
  }

  // The faces, each listed in the winding order the drawing uses.
  function RearFace(c: Corners): seq<Point> { [c.rtl, c.rtr, c.rbr, c.rbl] }
  function LeftFace(c: Corners): seq<Point> { [c.ftl, c.fbl, c.rbl, c.rtl] }
  function RightFace(c: Corners): seq<Point> { [c.ftr, c.fbr, c.rbr, c.rtr] }
  function FrontFace(c: Corners): seq<Point> { [c.ftl, c.ftr, c.fbr, c.fbl] }
  function TopFace(c: Corners): seq<Point> { [c.ftl, c.ftr, c.rtr, c.rtl] }
  function BottomFace(c: Corners): seq<Point> { [c.fbl, c.fbr, c.rbr, c.rbl] }

  /** The four faces drawn for a shape, in drawing order. */
  function DrawnFaces(c: Corners): seq<seq<Point>>
  {
    [RearFace(c), LeftFace(c), RightFace(c), FrontFace(c)]
  }

  /** The corners are the parallel projection of a box: every face is a parallelogram. */
  predicate IsCuboid(c: Corners)
  {
    && IsParallelogram(RearFace(c))
    && IsParallelogram(LeftFace(c))
    && IsParallelogram(RightFace(c))
    && IsParallelogram(FrontFace(c))
    && IsParallelogram(TopFace(c))
    && IsParallelogram(BottomFace(c))
  }

  /** The four corners an annotator places for a code, in the order of the
      annotated point list. */
  function VisibleCorners(code: string, c: Corners): seq<Point>
    requires IsCode(code)
  {
    if code == "1" then [c.ftl, c.fbl, c.fbr, c.rbr]
    else if code == "2" then [c.ftr, c.rtr, c.rbr, c.rbl]
    else if code == "3" then [c.rtl, c.rbl, c.fbl, c.fbr]
    else [c.rtr, c.rbr, c.rbl, c.fbl]
  }

  /** The eight corners for a code: the four annotated points keep their roles
      and the other four are completed one parallelogram at a time. */
  function Reconstruct(code: string, pts: seq<Point>): Corners
    requires IsCode(code) && |pts| == 4
  {
    if code == "1" then FromCode1(pts)
    else if code == "2" then FromCode2(pts)
    else if code == "3" then FromCode3(pts)
    else FromCode4(pts)
  }

  /** Code "1": front top left, front bottom left, front bottom right and rear
      bottom right are given. */
  function FromCode1(pts: seq<Point>): Corners
    requires |pts| == 4
  {
    var ftl, fbl, fbr, rbr := pts[0], pts[1], pts[2], pts[3];
    var ftr := FourthPoint(ftl, fbl, fbr);
    var rtr := FourthPoint(ftr, fbr, rbr);
    var rtl := FourthPoint(ftl, ftr, rtr);
    var rbl := FourthPoint(rtl, rtr, rbr);
    Corners(ftl, ftr, fbl, fbr, rtl, rtr, rbl, rbr)
  }

  lemma FromCode1Fits(pts: seq<Point>)
    requires |pts| == 4
    ensures var c := FromCode1(pts); [c.ftl, c.fbl, c.fbr, c.rbr] == pts && IsCuboid(c)
  {
  }

  /** Code "2": front top right, rear top right, rear bottom right and rear
      bottom left are given. */
  function FromCode2(pts: seq<Point>): Corners
    requires |pts| == 4
  {
    var ftr, rtr, rbr, rbl := pts[0], pts[1], pts[2], pts[3];
    var fbr := FourthPoint(ftr, rtr, rbr);
    var fbl := FourthPoint(fbr, rbr, rbl);
    var rtl := FourthPoint(rtr, rbr, rbl);
    var ftl := FourthPoint(rtl, rtr, ftr);
    Corners(ftl, ftr, fbl, fbr, rtl, rtr, rbl, rbr)
  }

  lemma FromCode2Fits(pts: seq<Point>)
    requires |pts| == 4
    ensures var c := FromCode2(pts); [c.ftr, c.rtr, c.rbr, c.rbl] == pts && IsCuboid(c)
  {
  }

  /** Code "3": rear top left, rear bottom left, front bottom left and front
      bottom right are given. */
  function FromCode3(pts: seq<Point>): Corners
    requires |pts| == 4
  {
    var rtl, rbl, fbl, fbr := pts[0], pts[1], pts[2], pts[3];
    var ftl := FourthPoint(rtl, rbl, fbl);
    var ftr := FourthPoint(ftl, fbl, fbr);
    var rtr := FourthPoint(rtl, ftl, ftr);
    var rbr := FourthPoint(rtr, ftr, fbr);
    Corners(ftl, ftr, fbl, fbr, rtl, rtr, rbl, rbr)
  }

  lemma FromCode3Fits(pts: seq<Point>)
    requires |pts| == 4
    ensures var c := FromCode3(pts); [c.rtl, c.rbl, c.fbl, c.fbr] == pts && IsCuboid(c)
  {
  }

  /** Code "4": rear top right, rear bottom right, rear bottom left and front
      bottom left are given. */
  function FromCode4(pts: seq<Point>): Corners
    requires |pts| == 4
  {
    var rtr, rbr, rbl, fbl := pts[0], pts[1], pts[2], pts[3];
    var rtl := FourthPoint(rtr, rbr, rbl);
    var ftl := FourthPoint(rtl, rbl, fbl);
    var ftr := FourthPoint(rtr, rtl, ftl);
    var fbr := FourthPoint(ftr, ftl, fbl);
    Corners(ftl, ftr, fbl, fbr, rtl, rtr, rbl, rbr)
  }

  lemma FromCode4Fits(pts: seq<Point>)
    requires |pts| == 4
    ensures var c := FromCode4(pts); [c.rtr, c.rbr, c.rbl, c.fbl] == pts && IsCuboid(c)
  {
  }

  /** The reconstruction keeps the annotated points in their roles and its
      result is a box: every face, drawn or not, is a parallelogram. */
  lemma ReconstructFits(code: string, pts: seq<Point>)
    requires IsCode(code) && |pts| == 4
    ensures VisibleCorners(code, Reconstruct(code, pts)) == pts
    ensures IsCuboid(Reconstruct(code, pts))
  {
    if code == "1" {
      FromCode1Fits(pts);
    } else if code == "2" {
      FromCode2Fits(pts);
    } else if code == "3" {
      FromCode3Fits(pts);
    } else {
      FromCode4Fits(pts);
    }
  }

  /** Every face drawn for a reconstructed shape is a parallelogram. */
  lemma DrawnFacesAreParallelograms(code: string, pts: seq<Point>)
    requires IsCode(code) && |pts| == 4
    ensures forall k :: 0 <= k < 4 ==> IsParallelogram(DrawnFaces(Reconstruct(code, pts))[k])
  {
    var c := Reconstruct(code, pts);
    ReconstructFits(code, pts);
    assert DrawnFaces(c) == [RearFace(c), LeftFace(c), RightFace(c), FrontFace(c)];
  }

  /** A box is recovered exactly from its visible corners, whichever code is used:
      Reconstruct is the unique box with the annotated corners. */
  lemma ReconstructRecoversCuboid(code: string, c: Corners)
    requires IsCode(code) && IsCuboid(c)
    ensures Reconstruct(code, VisibleCorners(code, c)) == c
  {
    // Each derived corner is the unique completion of a face of c.
    if code == "1" {
      FourthPointUnique(c.ftl, c.fbl, c.fbr, c.ftr);
      FourthPointUnique(c.ftr, c.fbr, c.rbr, c.rtr);
      FourthPointUnique(c.ftl, c.ftr, c.rtr, c.rtl);
      FourthPointUnique(c.rtl, c.rtr, c.rbr, c.rbl);
    } else if code == "2" {
      FourthPointUnique(c.ftr, c.rtr, c.rbr, c.fbr);
      FourthPointUnique(c.fbr, c.rbr, c.rbl, c.fbl);
      FourthPointUnique(c.rtr, c.rbr, c.rbl, c.rtl);
      FourthPointUnique(c.rtl, c.rtr, c.ftr, c.ftl);
    } else if code == "3" {
      FourthPointUnique(c.rtl, c.rbl, c.fbl, c.ftl);
      FourthPointUnique(c.ftl, c.fbl, c.fbr, c.ftr);
      FourthPointUnique(c.rtl, c.ftl, c.ftr, c.rtr);
      FourthPointUnique(c.rtr, c.ftr, c.fbr, c.rbr);
    } else {
      FourthPointUnique(c.rtr, c.rbr, c.rbl, c.rtl);
      FourthPointUnique(c.rtl, c.rbl, c.fbl, c.ftl);
      FourthPointUnique(c.rtr, c.rtl, c.ftl, c.ftr);
      FourthPointUnique(c.ftr, c.ftl, c.fbl, c.fbr);
    }
  }

  /** The four codes agree: reconstructing from the corners that one code sees of
      another code's reconstruction gives the same box. */
  lemma CodesAgree(code: string, other: string, pts: seq<Point>)
    requires IsCode(code) && IsCode(other) && |pts| == 4
    ensures Reconstruct(other, VisibleCorners(other, Reconstruct(code, pts))) == Reconstruct(code, pts)
  {
    ReconstructRecoversCuboid(other, Reconstruct(code, pts));
  }
}
