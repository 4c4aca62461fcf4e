# Cuboid wireframes for a CVAT annotation viewer

This project models the computational core of `main.py`, a dashboard that shows
frames of a CVAT annotation job with 3D cuboids drawn over them. An annotator
marks four corners of a box as a polyline. An attribute named "1" to "4" says
which four corners were placed. The dashboard completes the other four corners
one parallelogram at a time and draws the box's wireframe on the frame image.

The model has four modules:

- `Geometry` (geometry.dfy). Points with real coordinates. The parallelogram
  completion `FourthPoint` (`calc_fourth_point`). The pairing of a flat
  coordinate list into points and its inverse, the flattening of points.
- `Cuboid` (cuboid.dfy). The eight corners of a box and the per-code
  reconstruction from the four annotated corners. The proofs show:
  - the result keeps the annotated corners in their roles;
  - every face of the result is a parallelogram;
  - the result is the only such box;
  - the four codes agree with one another.
- `Drawing` (drawing.dfy). The outline width chosen from the image area, and the
  draw calls one shape produces or the exception it raises.
  - `Render` specifies the loop of `draw_shapes`.
  - The imperative `DrawShapes` works on a `Canvas` object that records the draw
    calls made on it, and is proved equal to `Render`.
- `Annotations` (annotations.dfy). Two loops, each an imperative method proved
  against a recursive function that specifies it:
  - the filter that keeps the attribute specs named "1" to "4"
    (`update_task_id_dropdown`);
  - the grouping of a job's shapes by frame, including each shape's list of
    visibility codes (`get_job_annotations`).

`results.dfy` holds the `Option` and `Result` types. A `Result` models a Python
exception.

Two behaviours of `main.py` are worth knowing:

- Outline width. The code has a branch for width 3 at 3,000,000 pixels, but it
  tests it after the 1,000,000-pixel branch, so width 3 is never chosen.
  `LineWidth` returns 1 or 2, and its contract says that 3 never occurs.
- A shape that fails. A malformed shape raises an exception that leaves
  `draw_shapes`, so the shapes after it are not drawn. The model records the
  error, stops drawing, and keeps the calls already made on the image.

## Model

| member | source | states |
|---|---|---|
| Geometry.Midpoint | main.py:11 | the computed point is equally far from both ends in each coordinate |
| Geometry.FourthPoint | main.py:9-14 | d closes the parallelogram a, b, c, d: a + c == b + d in both coordinates, and the diagonals b–d and a–c share their midpoint |
| Geometry.FourthPointUnique | main.py:9-14 | any point that closes the parallelogram is the one computed |
| Geometry.FourthPointInvolution | main.py:9-14 | completing again from the same diagonal gives back the corner started from |
| Geometry.PairPoints | main.py:31-32 | an even-length list becomes half as many points, point i being (flat[2i], flat[2i+1]) |
| Geometry.Flatten | main.py:62-67 | the flat list is twice as long, entries 2i and 2i+1 being the coordinates of point i |
| Geometry.PairFlatten | main.py:62-67 | pairing a flattened point list gives the points back |
| Geometry.FlattenPair | main.py:31-32 | flattening the pairs of an even-length list gives the list back, as the polyline drawn from the raw points shows |
| Cuboid.Reconstruct | main.py:34-60 | dispatches on the code to the four derivations below; its contract is `ReconstructFits`, and `ReconstructRecoversCuboid` proves it the only box through the annotated corners |
| Cuboid.FromCode1 | main.py:34-39 | code "1": derives ftr, rtr, rtl, rbl in that order; its contract is `FromCode1Fits` |
| Cuboid.FromCode2 | main.py:41-46 | code "2": derives fbr, fbl, rtl, ftl in that order; its contract is `FromCode2Fits` |
| Cuboid.FromCode3 | main.py:48-53 | code "3": derives ftl, ftr, rtr, rbr in that order; its contract is `FromCode3Fits` |
| Cuboid.FromCode4 | main.py:55-60 | code "4": derives rtl, ftl, ftr, fbr in that order; its contract is `FromCode4Fits` |
| Cuboid.FromCode1Fits | main.py:34-39 | code "1": the given points become ftl, fbl, fbr, rbr and all six faces are parallelograms |
| Cuboid.FromCode2Fits | main.py:41-46 | code "2": the given points become ftr, rtr, rbr, rbl and all six faces are parallelograms |
| Cuboid.FromCode3Fits | main.py:48-53 | code "3": the given points become rtl, rbl, fbl, fbr and all six faces are parallelograms |
| Cuboid.FromCode4Fits | main.py:55-60 | code "4": the given points become rtr, rbr, rbl, fbl and all six faces are parallelograms |
| Cuboid.ReconstructFits | main.py:34-60 | for every code, the corners the code names are the annotated points, and the result is a box |
| Cuboid.DrawnFacesAreParallelograms | main.py:62-65 | the rear, left, right and front faces drawn are each a parallelogram |
| Cuboid.ReconstructRecoversCuboid | main.py:34-60 | reconstructing any box from the four corners a code names gives exactly that box |
| Cuboid.CodesAgree | main.py:34-60 | reconstructing from the corners another code names, taken from a reconstruction, gives the same box |
| Drawing.LineWidth | main.py:21-25 | width 1 iff the area is below 1,000,000 pixels, width 2 iff it is at least that, and never 3 |
| Drawing.ShapeCommands | main.py:28-76 | no code: nothing drawn; an odd coordinate count: IndexError; a point count other than 4: ValueError with that count; 4 points and not a polyline: nothing drawn; a polyline: seven calls; it raises iff the shape has a code and not exactly 8 coordinates |
| Drawing.PolylineFigure | main.py:34-76 | a coded polyline with four points is drawn as the figure of the box through its annotated points, and that box keeps those points and is a parallelepiped |
| Drawing.FigureShape | main.py:62-76 | seven calls: four polygons in the shape colour whose corners are the rear, left, right and front faces (each a parallelogram), the annotated polyline, then the two front diagonals ftl–fbr and ftr–fbl, all in #3d3df5 |
| Drawing.Figure | main.py:62-76 | the seven draw calls for a box; what they are is stated by `FigureShape` |
| Drawing.CuboidCommands | main.py:62-76 | a shape with a code and four points gets exactly seven calls, the figure of its reconstructed box (`PolylineFigure`) |
| Drawing.Render | main.py:27-78 | the loop over a frame's shapes in order, stopping at the first exception; its properties are `RenderFailsIffSomeShapeMalformed`, `RenderAppend`, `RenderStopsAtFailure`, `SilentShapeChangesNothing` and `RenderPolylines`, and `DrawShapes` is proved equal to it |
| Drawing.RenderFailsIffSomeShapeMalformed | main.py:27-35 | drawing a frame raises iff one of its shapes has a code and a point list that is not four points |
| Drawing.RenderAppend | main.py:27-76 | drawing s + t is drawing s and then t, unless s raised, in which case t draws nothing |
| Drawing.RenderStopsAtFailure | main.py:27-35 | once a prefix of the shapes has raised, the later shapes change nothing |
| Drawing.SilentShapeChangesNothing | main.py:28-69 | inserting a shape that produces no calls (no code, or not a polyline) leaves the drawing unchanged |
| Drawing.RenderPolylines | main.py:69-76 | a frame of well-formed coded polylines draws without error and makes 7 calls per shape |
| Drawing.Canvas.constructor | main.py:17-19 | a fresh drawing surface has the image's dimensions and no draw calls |
| Drawing.Canvas.Polygon | main.py:70-73 | one outlined polygon call is appended and nothing else changes |
| Drawing.Canvas.Line | main.py:74-76 | one line call is appended and nothing else changes |
| Drawing.DrawCuboid | main.py:70-76 | the seven calls of the figure are appended in order |
| Drawing.DrawShape | main.py:28-76 | one pass of the loop appends exactly the shape's calls, or records its error and draws nothing |
| Drawing.DrawShapes | main.py:17-78 | the image gains exactly the calls `Render` gives for the frame's shapes at the area-based width, and the error returned is the one `Render` reports |
| Annotations.CodeSpecs | main.py:182-184 | the ids kept from a list of specs are exactly those of its specs named "1" to "4", each mapped to a code; `CodeSpecsNames` and `CodeSpecsLastWins` fix the values |
| Annotations.CodeSpecsNames | main.py:182-184 | every kept id maps to the name of the last spec with that id named "1" to "4" |
| Annotations.CodeSpecsLastWins | main.py:182-184 | the last spec of an id named "1" to "4" is kept, and its name is that id's value: a later spec overrides an earlier one |
| Annotations.CodeSpecsAppend | main.py:182-184 | entering the specs of s and then those of t gives the map of s + t, t's entries overriding s's |
| Annotations.CodeAttributes | main.py:180-184 | an id is in the map iff some label declares a spec with that id named "1" to "4", and every value is such a name; `CodeAttributesFlat` fixes the values |
| Annotations.CodeAttributesFlat | main.py:180-184 | the nested loops act as one loop over all labels' specs in order, so `CodeSpecsNames` and `CodeSpecsLastWins` hold across labels as well |
| Annotations.AddCodeSpecs | main.py:182-184 | the inner loop enters one label's code specs into the map, later entries overriding earlier ones |
| Annotations.CollectCodeAttributes | main.py:180-184 | the nested loops build exactly `CodeAttributes` of the labels |
| Annotations.ShapeCodes | main.py:252-257 | every code listed is a value of the code map, there are no more codes than values, and the list is empty iff no value is "true" for a code attribute |
| Annotations.ShapeCodesSingle | main.py:252-257 | one value contributes the name of its attribute iff it is "true" and its id is a code attribute, and nothing otherwise |
| Annotations.ShapeCodesAppend | main.py:252-257 | the codes of s + t are those of s followed by those of t, so the list follows the order of the shape's values |
| Annotations.ShapeCodesFirst | main.py:252-257 | the first code, which chooses the reconstruction, is the name of the first selected value |
| Annotations.ToRecord | main.py:258-268 | the stored record: the shape's codes (`ShapeCodes`), type, label colour and points; `GroupedRecordsAreDrawable` proves its codes are "1" to "4" |
| Annotations.FrameRecords | main.py:250-272 | a frame's list is empty iff no shape is on that frame, and it is no longer than the shape list |
| Annotations.GroupByFrame | main.py:250-272 | the keys are exactly the frames that have shapes, and each frame's list is the records of its shapes in input order |
| Annotations.FrameRecordsAppend | main.py:250-272 | grouping s + t gives, per frame, s's records followed by t's |
| Annotations.EachShapeOnce | main.py:262-272 | each shape's record appears in its own frame's list once, between those of the shapes before it and after it, and in no other frame's list |
| Annotations.GroupedRecordsAreDrawable | main.py:252-257 | with the filtered code map, every grouped record lists only codes "1" to "4", so it meets what drawing requires |

## Left out

- The Dash layout and callbacks, the page, the dropdowns and the frame slider (main.py:91-303) are not part of this model. They are user interface.
- The CVAT client, the login, reading `.env`, and fetching projects, tasks, jobs, frames and annotations are not modelled. They are network and file I/O. Their results are the model's inputs.
- Rasterisation by PIL is not modelled. The image records the draw calls made on it, in order.
- Coordinates are exact reals. Floating-point rounding in the midpoint and the reflection is not modelled.
- `show_image` (main.py:281-287) is not modelled. It looks up the frame under `str(frame_id)` while the grouping keys are the integer frames, and it displays the result with plotly. Frames are plain integers here.
- The `str(spec_id)` and `str(label_id)` key conversions after the round trip through the browser store are not modelled. Ids are integers throughout.
- The label dictionary is modelled twice: as a map for the colour lookup and as a sequence for the filter's iteration order. Two labels with the same id are not modelled.
- Cuboid.Reconstruct: requires a code "1" to "4". With another first attribute, Python raises NameError, or reuses the corners of the previous shape. `GroupedRecordsAreDrawable` proves that every record the dashboard builds has only such codes.
- Drawing.ShapeCommands: requires a known code when the shape has one, for the same reason.
- Drawing.DrawShapes: requires a known code on every shape, for the same reason.
- Annotations.GroupByFrame: requires every shape's label to be in the label map. A missing label raises KeyError in Python, and the server only returns shapes whose labels belong to the project.
- Drawing.ShapeCommands: does not compute the corners of a shape with four points that is not a polyline. Python computes them and discards them. `DrawShape` computes them as Python does.
- An exception ends `draw_shapes` and propagates to the caller. The model returns the error instead, and the calls already made stay on the image.
