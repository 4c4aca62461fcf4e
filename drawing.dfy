/** The wireframe drawing of main.py's draw_shapes: the outline width chosen from
    the image area, the seven draw calls issued for each cuboid shape, and the
    loop that issues them for every shape of a frame on one image. Pixels are not
    modelled: the image keeps the list of draw calls made on it. */
module Drawing {
  import opened Results
  import opened Geometry
  import opened Cuboid

  /** Colour of the three guide lines. */
  const GuideColour: string := "#3d3df5"

  /** The only shape type that is drawn. */
  const Polyline: string := "polyline"

  /** One shape of a frame as the dashboard stores it: the visibility codes
      found on it, its type, the colour of its label and its flat point list. */
  datatype ShapeRecord = ShapeRecord(
    attribute: seq<string>, shapeType: string, color: string, points: seq<real>)

  /** An outlined polygon or a polyline over a flat coordinate list. */
  datatype DrawCommand =
    | Polygon(xy: seq<real>, outline: string, width: nat)
    | Line(xy: seq<real>, fill: string, width: nat)

  /** Why the Python code raises for a shape: an odd number of coordinates
      (IndexError while pairing them) or a number of points other than four
      (ValueError while unpacking them). */
  datatype ShapeError = OddCoordinateCount(count: nat) | WrongPointCount(count: nat)

  /** The first visibility code of a shape, when there is one, is one of "1" to "4". */
  predicate HasKnownCode(rec: ShapeRecord)
  {
    |rec.attribute| > 0 ==> IsCode(rec.attribute[0])
  }

  /** Outline width from the image area. The branch for 3 is tested after the one
      for 2 and is never taken, so the width is 1 below one million pixels and 2
      from there on. */
  function LineWidth(width: nat, height: nat): (w: int)
    ensures w == 1 <==> width * height < 1000000
    ensures w == 2 <==> width * height >= 1000000
    ensures w != 3
  {
    if width * height >= 1000000 then 2
    else if width * height >= 3000000 then 3
    else 1
  }

  /** The draw calls for a reconstructed cuboid: the rear, left, right and front
      faces in the shape's colour, then the annotated polyline and the two
      diagonals of the front face in the guide colour. */
  function Figure(c: Corners, rec: ShapeRecord, lw: nat): seq<DrawCommand>
  {
    [ Polygon(Flatten(RearFace(c)), rec.color, lw),
      Polygon(Flatten(LeftFace(c)), rec.color, lw),
      Polygon(Flatten(RightFace(c)), rec.color, lw),
      Polygon(Flatten(FrontFace(c)), rec.color, lw),
      Line(rec.points, GuideColour, lw),
      Line(Flatten([c.ftl, c.fbr]), GuideColour, lw),
      Line(Flatten([c.ftr, c.fbl]), GuideColour, lw) ]
  }

  /** A shape that raises when drawn: it has a code, so its points are unpacked,
      and they are not exactly four points. */
  predicate Malformed(rec: ShapeRecord)
  {
    |rec.attribute| > 0 && |rec.points| != 8
  }

  /** The draw calls one shape produces, or the error it raises. A shape without
      a code draws nothing; otherwise its points are paired and unpacked (which
      raises unless there are exactly four) and its corners reconstructed, and
      only a polyline is then drawn. */
  function ShapeCommands(rec: ShapeRecord, lw: nat): (r: Result<seq<DrawCommand>, ShapeError>)
    requires HasKnownCode(rec)
    ensures r.Err? <==> Malformed(rec)
    ensures |rec.attribute| == 0 ==> r == Ok([])
    ensures |rec.attribute| > 0 && |rec.points| % 2 != 0 ==> r == Err(OddCoordinateCount(|rec.points|))
    ensures |rec.attribute| > 0 && |rec.points| % 2 == 0 && |rec.points| != 8 ==>
      r == Err(WrongPointCount(|rec.points| / 2))
    ensures |rec.attribute| > 0 && |rec.points| == 8 && rec.shapeType != Polyline ==> r == Ok([])
    ensures |rec.attribute| > 0 && |rec.points| == 8 && rec.shapeType == Polyline ==>
      r.Ok? && |r.value| == 7
  {
    if |rec.attribute| == 0 then Ok([])
    else if |rec.points| % 2 != 0 then Err(OddCoordinateCount(|rec.points|))
    else if |PairPoints(rec.points)| != 4 then Err(WrongPointCount(|PairPoints(rec.points)|))
    else if rec.shapeType == Polyline then Ok(CuboidCommands(rec, lw))
    else Ok([])
  }

  /** The seven draw calls of a shape with a code and four points. */
  function CuboidCommands(rec: ShapeRecord, lw: nat): (cmds: seq<DrawCommand>)
    requires HasKnownCode(rec) && |rec.attribute| > 0 && |rec.points| == 8
    ensures |cmds| == 7
  {
    Figure(Reconstruct(rec.attribute[0], PairPoints(rec.points)), rec, lw)
  }

  /** A coded polyline with four points is drawn as the figure of the box through
      its annotated corners: the box keeps those corners in their roles and is
      a parallelepiped. */
  lemma PolylineFigure(rec: ShapeRecord, lw: nat)
    requires HasKnownCode(rec) && |rec.attribute| > 0
    requires |rec.points| == 8 && rec.shapeType == Polyline
    ensures
      var c := Reconstruct(rec.attribute[0], PairPoints(rec.points));
      && ShapeCommands(rec, lw) == Ok(Figure(c, rec, lw))
      && VisibleCorners(rec.attribute[0], c) == PairPoints(rec.points)
      && IsCuboid(c)
  {
    ReconstructFits(rec.attribute[0], PairPoints(rec.points));
  }

  /** What the figure of a box looks like: four polygons in the shape's colour
      whose corners are the rear, left, right and front faces, each a
      parallelogram, then the annotated polyline itself and the two diagonals of
      the front face, all three in the guide colour. */
  lemma FigureShape(c: Corners, rec: ShapeRecord, lw: nat)
    requires IsCuboid(c)
    ensures |Figure(c, rec, lw)| == 7
    ensures forall k :: 0 <= k < 4 ==>
      && Figure(c, rec, lw)[k].Polygon?
      && PairPoints(Figure(c, rec, lw)[k].xy) == DrawnFaces(c)[k]
      && IsParallelogram(PairPoints(Figure(c, rec, lw)[k].xy))
      && Figure(c, rec, lw)[k].outline == rec.color && Figure(c, rec, lw)[k].width == lw
    ensures Figure(c, rec, lw)[4] == Line(rec.points, GuideColour, lw)
    ensures forall k :: 5 <= k < 7 ==>
      Figure(c, rec, lw)[k].Line? && Figure(c, rec, lw)[k].fill == GuideColour && Figure(c, rec, lw)[k].width == lw
    ensures PairPoints(Figure(c, rec, lw)[5].xy) == [c.ftl, c.fbr]
    ensures PairPoints(Figure(c, rec, lw)[6].xy) == [c.ftr, c.fbl]
  {
    PairFlatten(RearFace(c));
    PairFlatten(LeftFace(c));
    PairFlatten(RightFace(c));
    PairFlatten(FrontFace(c));
    PairFlatten([c.ftl, c.fbr]);
    PairFlatten([c.ftr, c.fbl]);
  }

  /** What drawing a list of shapes leaves on the image: the draw calls made, in
      order, and the error that stopped the loop, if any. */
  datatype Rendering = Rendering(commands: seq<DrawCommand>, failure: Option<ShapeError>)

  /** All shapes of a frame meet what drawing them requires. */
  predicate AllKnownCodes(shapes: seq<ShapeRecord>)
  {
    forall i :: 0 <= i < |shapes| ==> HasKnownCode(shapes[i])
  }

  /** One pass of the loop over what the earlier passes left: nothing once a
      shape has raised, else the shape's calls or its error. */
  function Step(prev: Rendering, out: Result<seq<DrawCommand>, ShapeError>): Rendering
  {
    if prev.failure.Some? then prev
    else match out
      case Ok(cmds) => Rendering(prev.commands + cmds, None)
      case Err(e) => Rendering(prev.commands, Some(e))
  }

  /** Shapes are drawn in list order; the first shape that raises ends the loop,
      and the calls already made stay on the image. */
  function Render(shapes: seq<ShapeRecord>, lw: nat): Rendering
    requires AllKnownCodes(shapes)
  {
    if shapes == [] then Rendering([], None)
    else Step(Render(shapes[..|shapes| - 1], lw), ShapeCommands(shapes[|shapes| - 1], lw))
  }

  /** Drawing a frame raises exactly when one of its shapes has a code and a
      point list that is not four points. */
  lemma {:induction false} RenderFailsIffSomeShapeMalformed(shapes: seq<ShapeRecord>, lw: nat)
    requires AllKnownCodes(shapes)
    ensures Render(shapes, lw).failure.None? <==> forall i :: 0 <= i < |shapes| ==> !Malformed(shapes[i])
  {
    if shapes != [] {
      var prev, x := shapes[..|shapes| - 1], shapes[|shapes| - 1];
      RenderFailsIffSomeShapeMalformed(prev, lw);
      assert forall i :: 0 <= i < |prev| ==> prev[i] == shapes[i];
    }
  }

  /** The result of drawing s followed by the result of drawing t. */
  function Then(a: Rendering, b: Rendering): Rendering
  {
    if a.failure.Some? then a else Rendering(a.commands + b.commands, b.failure)
  }

  lemma ThenStep(a: Rendering, b: Rendering, out: Result<seq<DrawCommand>, ShapeError>)
    ensures Then(a, Step(b, out)) == Step(Then(a, b), out)
  {
    if a.failure.None? && b.failure.None? && out.Ok? {
      assert a.commands + (b.commands + out.value) == (a.commands + b.commands) + out.value;
    }
  }

  lemma AllKnownCodesAppend(s: seq<ShapeRecord>, t: seq<ShapeRecord>)
    requires AllKnownCodes(s) && AllKnownCodes(t)
    ensures AllKnownCodes(s + t)
  {
    forall i | 0 <= i < |s + t| ensures HasKnownCode((s + t)[i]) {
      if i < |s| { assert (s + t)[i] == s[i]; } else { assert (s + t)[i] == t[i - |s|]; }
    }
  }

  /** Drawing s and then t is drawing s + t, unless s already raised. */
  lemma {:induction false} RenderAppend(s: seq<ShapeRecord>, t: seq<ShapeRecord>, lw: nat)
    requires AllKnownCodes(s) && AllKnownCodes(t)
    ensures AllKnownCodes(s + t)
    ensures Render(s + t, lw) == Then(Render(s, lw), Render(t, lw))
  {
    AllKnownCodesAppend(s, t);
    if t == [] {
      assert s + t == s;
    } else {
      var t', x := t[..|t| - 1], t[|t| - 1];
      assert AllKnownCodes(t');
      RenderAppend(s, t', lw);
      assert (s + t)[..|s + t| - 1] == s + t';
      assert (s + t)[|s + t| - 1] == x;
      ThenStep(Render(s, lw), Render(t', lw), ShapeCommands(x, lw));
    }
  }

  /** A shape that produces no draw calls (no visibility code, or a well-formed
      shape that is not a polyline) changes nothing about the drawing. */
  lemma SilentShapeChangesNothing(s: seq<ShapeRecord>, x: ShapeRecord, t: seq<ShapeRecord>, lw: nat)
    requires AllKnownCodes(s) && AllKnownCodes(t)
    requires HasKnownCode(x) && ShapeCommands(x, lw) == Ok([])
    ensures AllKnownCodes(s + [x] + t) && AllKnownCodes(s + t)
    ensures Render(s + [x] + t, lw) == Render(s + t, lw)
  {
    RenderAppend(s, [x], lw);
    assert Render([x], lw) == Rendering([], None) by {
      assert [x][..0] == [];
    }
    RenderAppend(s + [x], t, lw);
    RenderAppend(s, t, lw);
    assert Render(s + [x], lw) == Render(s, lw);
  }

  /** Every shape with a code, four points and the polyline type adds exactly
      its seven draw calls, so such a frame draws seven calls per shape. */
  lemma {:induction false} RenderPolylines(shapes: seq<ShapeRecord>, lw: nat)
    requires forall i :: 0 <= i < |shapes| ==>
      HasKnownCode(shapes[i]) && |shapes[i].attribute| > 0 &&
      |shapes[i].points| == 8 && shapes[i].shapeType == Polyline
    ensures Render(shapes, lw).failure == None
    ensures |Render(shapes, lw).commands| == 7 * |shapes|
  {
    if shapes != [] {
      RenderPolylines(shapes[..|shapes| - 1], lw);
    }
  }

  /** The image a frame is drawn on, holding the draw calls made on it. */
  class Canvas {
    const width: nat
    const height: nat
    var commands: seq<DrawCommand>

    constructor (width: nat, height: nat)
      ensures this.width == width && this.height == height && commands == []
    {
      this.width := width;
      this.height := height;
      commands := [];
    }

    method Polygon(xy: seq<real>, outline: string, lineWidth: nat)
      modifies this
      ensures commands == old(commands) + [DrawCommand.Polygon(xy, outline, lineWidth)]
    {
      commands := commands + [DrawCommand.Polygon(xy, outline, lineWidth)];
    }

    method Line(xy: seq<real>, fill: string, lineWidth: nat)
      modifies this
      ensures commands == old(commands) + [DrawCommand.Line(xy, fill, lineWidth)]
    {
      commands := commands + [DrawCommand.Line(xy, fill, lineWidth)];
    }
  }

  /** One pass of the loop of draw_shapes: the draw calls of one shape, or the
      error it raises before any of them is made. */
  method DrawShape(image: Canvas, shape: ShapeRecord, lineWidth: nat) returns (failure: Option<ShapeError>)
    requires HasKnownCode(shape)
    modifies image
    ensures Rendering(image.commands, failure) ==
      Step(Rendering(old(image.commands), None), ShapeCommands(shape, lineWidth))
  {
    failure := None;
    if |shape.attribute| == 0 {
      return;
    }
    if |shape.points| % 2 != 0 {
      failure := Some(OddCoordinateCount(|shape.points|));
      return;
    }
    var points := PairPoints(shape.points);
    if |points| != 4 {
      failure := Some(WrongPointCount(|points|));
      return;
    }
    var c := Reconstruct(shape.attribute[0], points);
    if shape.shapeType == Polyline {
      DrawCuboid(image, c, shape, lineWidth);
      PolylineFigure(shape, lineWidth);
    }
  }

  /** The seven draw calls for the corners of one shape, in order. */
  method DrawCuboid(image: Canvas, c: Corners, shape: ShapeRecord, lineWidth: nat)
    modifies image
    ensures image.commands == old(image.commands) + Figure(c, shape, lineWidth)
  {
    image.Polygon(Flatten(RearFace(c)), shape.color, lineWidth);
    image.Polygon(Flatten(LeftFace(c)), shape.color, lineWidth);
    image.Polygon(Flatten(RightFace(c)), shape.color, lineWidth);
    image.Polygon(Flatten(FrontFace(c)), shape.color, lineWidth);
    image.Line(shape.points, GuideColour, lineWidth);
    image.Line(Flatten([c.ftl, c.fbr]), GuideColour, lineWidth);
    image.Line(Flatten([c.ftr, c.fbl]), GuideColour, lineWidth);
  }

  /** Draws every shape of a frame on the image, in order; returns the error of
      the shape that raised, after which nothing more is drawn. */
  method DrawShapes(image: Canvas, shapes: seq<ShapeRecord>) returns (failure: Option<ShapeError>)
    requires AllKnownCodes(shapes)
    modifies image
    ensures image.commands == old(image.commands) + Render(shapes, LineWidth(image.width, image.height)).commands
    ensures failure == Render(shapes, LineWidth(image.width, image.height)).failure
  {
    var lineWidth := LineWidth(image.width, image.height);
    var i := 0;
    while i < |shapes|
      invariant 0 <= i <= |shapes|
      invariant Render(shapes[..i], lineWidth).failure == None
      invariant image.commands == old(image.commands) + Render(shapes[..i], lineWidth).commands
    {
      RenderSnoc(shapes, i, lineWidth);
      ghost var drawn := Render(shapes[..i], lineWidth);
      ghost var out := ShapeCommands(shapes[i], lineWidth);
      failure := DrawShape(image, shapes[i], lineWidth);
      StepAfter(old(image.commands), drawn, out);
      if failure.Some? {
        RenderStopsAtFailure(shapes, i + 1, lineWidth);
        return;
      }
      i := i + 1;
    }
    assert shapes[..i] == shapes;
    failure := None;
  }

  lemma RenderSnoc(shapes: seq<ShapeRecord>, i: nat, lw: nat)
    requires AllKnownCodes(shapes) && i < |shapes|
    ensures AllKnownCodes(shapes[..i]) && AllKnownCodes(shapes[..i + 1])
    ensures Render(shapes[..i + 1], lw) == Step(Render(shapes[..i], lw), ShapeCommands(shapes[i], lw))
  {
    assert shapes[..i + 1][..i] == shapes[..i];
  }

  lemma StepAfter(start: seq<DrawCommand>, drawn: Rendering, out: Result<seq<DrawCommand>, ShapeError>)
    requires drawn.failure == None
    ensures Step(Rendering(start + drawn.commands, None), out) ==
      Rendering(start + Step(drawn, out).commands, Step(drawn, out).failure)
  {
    if out.Ok? {
      assert start + drawn.commands + out.value == start + (drawn.commands + out.value);
    }
  }

  /** Once a prefix of the shapes has raised, the later shapes change nothing. */
  lemma RenderStopsAtFailure(shapes: seq<ShapeRecord>, n: nat, lw: nat)
    requires n <= |shapes| && AllKnownCodes(shapes)
    requires Render(shapes[..n], lw).failure.Some?
    ensures Render(shapes, lw) == Render(shapes[..n], lw)
  {
    assert shapes == shapes[..n] + shapes[n..];
    RenderAppend(shapes[..n], shapes[n..], lw);
  }
}
