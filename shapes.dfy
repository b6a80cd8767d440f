/**
  The per-tool shape factory of src/draw-canvas/draw-canvas.utilities.js: the tools, the
  geometry each tool's shape carries, how a shape is created at the press position, how a
  pointer move updates it, and when a finished shape is worth a history entry.
*/
module Shapes {
  import opened Wrappers
  import opened Points

  /** The drawing tools; `Drag` selects and moves shapes instead of creating one. */
  datatype Tool = Pen | Line | Arrow | Circle | Rectangle | Text | Pin | Drag

  /** Tools for which a press on the empty canvas never starts a gesture (drag and text). */
  predicate PreventsDraw(tool: Tool)
  {
    tool == Drag || tool == Text
  }

  /** Stands in for the identity of a Konva node on the drawing layer. */
  type ShapeId = nat

  /**
    The geometry a shape carries, one variant per tool. Pen, line and arrow keep Konva's flat
    list of coordinates `[x0, y0, x1, y1, ...]`.
  */
  datatype Geometry =
    | PenLine(points: seq<real>)
    | StraightLine(points: seq<real>)
    | ArrowLine(points: seq<real>)
    | Ellipse(x: real, y: real, radiusX: real, radiusY: real)
    | Rect(x: real, y: real, width: real, height: real)
    | TextBox(x: real, y: real, text: string, fontSize: real)
    | PinGroup(x: real, y: real, text: string, scale: real, width: real, height: real, offsetX: real, offsetY: real)

  /** A node on the drawing layer: its identity, its geometry and the two attributes the session changes. */
  datatype Shape = Shape(id: ShapeId, geometry: Geometry, opacity: real, draggable: bool)

  /** Why a tool-keyed lookup fails: the factory throws for a tool it does not implement. */
  datatype ToolError = NotImplemented(tool: Option<Tool>)

  /** The tool recorded in a shape's `_toolType` metadata. */
  function ToolOf(g: Geometry): (t: Tool)
    ensures t != Drag
  {
    match g
    case PenLine(_) => Pen
    case StraightLine(_) => Line
    case ArrowLine(_) => Arrow
    case Ellipse(_, _, _, _) => Circle
    case Rect(_, _, _, _) => Rectangle
    case TextBox(_, _, _, _) => Text
    case PinGroup(_, _, _, _, _, _, _, _) => Pin
  }

  // ----- Pin scale -----

  const PinBaseScale: real := 1.6
  const PinScalePerChar: real := 0.5
  const PinBaseWidth: real := 14.0
  const PinBaseHeight: real := 26.92
  /** Longest label the pin-text input accepts. */
  const PinTextMaxLength: nat := 4

  /**
    The scale of a pin marker for a label of `len` characters: the base scale for labels of
    at most one character, and half a unit more per character for longer labels.
  */
  function PinScale(len: nat): (s: real)
    ensures s >= PinBaseScale
    ensures len <= 1 ==> s == PinBaseScale
    ensures len > 1 ==> s - PinBaseScale == len as real * PinScalePerChar
  {
    var coefficient := if len > 1 then len else 0;
    PinBaseScale + coefficient as real * PinScalePerChar
  }

  /** A longer label never gives a smaller pin. */
  lemma PinScaleMonotone(a: nat, b: nat)
    requires a <= b
    ensures PinScale(a) <= PinScale(b)
  {
    if a > 1 {
      assert PinScale(b) - PinScale(a) == (b - a) as real * PinScalePerChar;
    }
  }

  /** Labels the input accepts give a scale between 1.6 and 3.6. */
  lemma PinScaleBounded(len: nat)
    requires len <= PinTextMaxLength
    ensures PinBaseScale <= PinScale(len) <= 3.6
  {
    PinScaleMonotone(len, PinTextMaxLength);
  }

  /** The pin's size, offset and position for a label at the given point: a consistent pin marker anchored at `pos`. */
  function PinFrom(pos: Point, text: string): (g: Geometry)
    ensures g.PinGroup? && g.text == text && ToolOf(g) == Pin
    ensures WellFormed(g) && Origin(g) == pos && !Degenerate(g)
  {
    var scale := PinScale(|text|);
    var width := PinBaseWidth * scale;
    var height := PinBaseHeight * scale;
    PinGroup(pos.x, pos.y, text, scale, width, height, width / 2.0, 0.0 + scale)
  }

  /**
    A pin is drawn at its text's scale, keeps the marker's proportions, and its offset puts
    the horizontal middle of the marker on the press position.
  */
  lemma PinFromLayout(pos: Point, text: string)
    ensures var g := PinFrom(pos, text);
      && g.scale == PinScale(|text|)
      && g.width * PinBaseHeight == g.height * PinBaseWidth
      && g.x - g.offsetX + g.width / 2.0 == pos.x
      && g.y == pos.y
  {
  }

  // ----- Well-formedness -----

  /** Consistency of a shape's geometry as the factories and draw steps keep it. */
  predicate WellFormed(g: Geometry)
  {
    match g
    case PenLine(points) => |points| >= 2 && |points| % 2 == 0
    case StraightLine(points) => |points| == 4
    case ArrowLine(points) => |points| == 4
    case Ellipse(_, _, rx, ry) => rx >= 0.0 && ry >= 0.0
    case Rect(_, _, w, h) => w >= 0.0 && h >= 0.0
    case TextBox(_, _, _, _) => true
    case PinGroup(_, _, text, scale, w, h, ox, _) =>
      scale == PinScale(|text|) && w == PinBaseWidth * scale && h == PinBaseHeight * scale && ox == w / 2.0
  }

  /** Where a shape was started: the first recorded point, the ellipse centre, the rectangle origin, the pin tip. */
  function Origin(g: Geometry): Point
    requires WellFormed(g)
  {
    match g
    case PenLine(points) => Point(points[0], points[1])
    case StraightLine(points) => Point(points[0], points[1])
    case ArrowLine(points) => Point(points[0], points[1])
    case Ellipse(x, y, _, _) => Point(x, y)
    case Rect(x, y, _, _) => Point(x, y)
    case TextBox(x, y, _, fontSize) => Point(x, y + fontSize / TextYOffsetCoefficient)
    case PinGroup(x, y, _, _, _, _, _, _) => Point(x, y)
  }

  /** A shape that covers a single point: nothing has been drawn yet. */
  predicate Degenerate(g: Geometry)
    requires WellFormed(g)
  {
    match g
    case PenLine(points) => |points| == 2
    case StraightLine(points) => points[0] == points[2] && points[1] == points[3]
    case ArrowLine(points) => points[0] == points[2] && points[1] == points[3]
    case Ellipse(_, _, rx, ry) => rx == 0.0 && ry == 0.0
    case Rect(_, _, w, h) => w == 0.0 && h == 0.0
    case TextBox(_, _, _, _) => false
    case PinGroup(_, _, _, _, _, _, _, _) => false
  }

  // ----- Creation -----

  /** A text shape sits this fraction of its font size above the press, to line up with the editor. */
  const TextYOffsetCoefficient: real := 2.5

  /** Opacity of a shape that is not selected (and of every new shape). */
  const UnselectedOpacity: real := 1.0

  /**
    The shape a tool creates at `pos` (`instantiateShape`): the drag tool and no tool have no
    factory and fail. A new shape has the tool's kind, full opacity, is not draggable, starts
    at `pos`, and for the drawing tools covers just that point. The text shape carries
    `text` (empty when absent) in the session's font size, the pin the session's label.
  */
  function InstantiateShape(tool: Option<Tool>, id: ShapeId, pos: Point, fontSize: real, pinText: string, text: string): (r: Result<Shape, ToolError>)
    ensures r.Failure? <==> tool.None? || tool == Some(Drag)
    ensures r.Failure? ==> r.error == NotImplemented(tool)
    ensures r.Success? ==> var s := r.value;
      && ToolOf(s.geometry) == tool.value
      && s.id == id && s.opacity == UnselectedOpacity && !s.draggable
      && WellFormed(s.geometry)
      && Origin(s.geometry) == pos
      && (tool.value in {Pen, Line, Arrow, Circle, Rectangle} ==> Degenerate(s.geometry))
      && (tool == Some(Text) ==> s.geometry.text == text && s.geometry.fontSize == fontSize)
      && (tool == Some(Pin) ==> s.geometry.text == pinText)
  {
    var geometry: Option<Geometry> :=
      match tool
      case Some(Pen) => Some(PenLine([pos.x, pos.y]))
      case Some(Line) => Some(StraightLine([pos.x, pos.y, pos.x, pos.y]))
      case Some(Arrow) => Some(ArrowLine([pos.x, pos.y, pos.x, pos.y]))
      case Some(Circle) => Some(Ellipse(pos.x, pos.y, 0.0, 0.0))
      case Some(Rectangle) => Some(Rect(pos.x, pos.y, 0.0, 0.0))
      case Some(Text) => Some(TextBox(pos.x, pos.y - fontSize / TextYOffsetCoefficient, text, fontSize))
      case Some(Pin) => Some(PinFrom(pos, pinText))
      case _ => None;
    if geometry.None? then Failure(NotImplemented(tool))
    else Success(Shape(id, geometry.value, UnselectedOpacity, false))
  }

  // ----- Geometry of a drag -----

  function Abs(r: real): real { if r < 0.0 then -r else r }
  function Min(a: real, b: real): real { if a <= b then a else b }
  function Max(a: real, b: real): real { if a <= b then b else a }

  /** The ellipse fitted to a drag: its centre and radii. */
  datatype EllipseFit = EllipseFit(center: Point, radiusX: real, radiusY: real)

  /** The rectangle fitted to a drag: its top-left corner and size. */
  datatype RectFit = RectFit(origin: Point, width: real, height: real)

  /**
    `CircleToolShape.draw`: the ellipse whose bounding box is exactly the box spanned by the
    start and the current pointer, so its radii are never negative.
  */
  function CircleDraw(start: Point, current: Point): (e: EllipseFit)
    ensures e.radiusX >= 0.0 && e.radiusY >= 0.0
    ensures e.center.x - e.radiusX == Min(start.x, current.x) && e.center.x + e.radiusX == Max(start.x, current.x)
    ensures e.center.y - e.radiusY == Min(start.y, current.y) && e.center.y + e.radiusY == Max(start.y, current.y)
  {
    var cx := (start.x + current.x) / 2.0;
    var cy := (start.y + current.y) / 2.0;
    var rx := Abs(current.x - start.x) / 2.0;
    var ry := Abs(current.y - start.y) / 2.0;
    EllipseFit(Point(cx, cy), rx, ry)
  }

  /**
    `RectangleToolShape.draw`: the rectangle spanned by the start and the current pointer,
    whichever way the drag goes; its corner is the smaller coordinate on each axis.
  */
  function RectangleDraw(start: Point, current: Point): (r: RectFit)
    ensures r.width >= 0.0 && r.height >= 0.0
    ensures r.origin.x == Min(start.x, current.x) && r.origin.x + r.width == Max(start.x, current.x)
    ensures r.origin.y == Min(start.y, current.y) && r.origin.y + r.height == Max(start.y, current.y)
  {
    var newX := Min(start.x, current.x);
    var newY := Min(start.y, current.y);
    RectFit(Point(newX, newY), Abs(current.x - start.x), Abs(current.y - start.y))
  }

  /** Dragging from a to b or from b to a gives the same ellipse and the same rectangle. */
  lemma DrawSymmetric(a: Point, b: Point)
    ensures CircleDraw(a, b) == CircleDraw(b, a)
    ensures RectangleDraw(a, b) == RectangleDraw(b, a)
  {
    var e1, e2 := CircleDraw(a, b), CircleDraw(b, a);
    assert e1.center == e2.center;
    var r1, r2 := RectangleDraw(a, b), RectangleDraw(b, a);
    assert r1.origin == r2.origin;
  }

  /** The ellipse of a drag is inscribed in the rectangle of the same drag. */
  lemma EllipseInscribedInRectangle(a: Point, b: Point)
    ensures var e, r := CircleDraw(a, b), RectangleDraw(a, b);
      && e.radiusX * 2.0 == r.width && e.radiusY * 2.0 == r.height
      && e.center == Point(r.origin.x + r.width / 2.0, r.origin.y + r.height / 2.0)
  {
  }

  /** The worked examples: (10,10)→(2,40) spans (2,10) by 8×30; (0,0)→(10,20) has centre (5,10), radii 5 and 10. */
  lemma DrawExamples()
    ensures RectangleDraw(Point(10.0, 10.0), Point(2.0, 40.0)) == RectFit(Point(2.0, 10.0), 8.0, 30.0)
    ensures CircleDraw(Point(0.0, 0.0), Point(10.0, 20.0)) == EllipseFit(Point(5.0, 10.0), 5.0, 10.0)
  {
  }

  // ----- One pointer move -----

  /**
    The update one accepted pointer move makes to the shape being drawn (the `switch` in
    `draw`): a pen stroke gains exactly the new point; a line or arrow keeps its first
    endpoint and moves its second to the pointer; an ellipse or rectangle is refitted to the
    start and the pointer; text and pins do not change. The kind of shape and its
    consistency are kept.
  */
  function DrawStep(g: Geometry, start: Point, pos: Point): (r: Geometry)
    requires WellFormed(g)
    ensures WellFormed(r) && ToolOf(r) == ToolOf(g)
    ensures Origin(r) == Origin(g) || g.Ellipse? || g.Rect?
    ensures g.PenLine? ==> |r.points| == |g.points| + 2 && r.points[..|g.points|] == g.points && r.points[|g.points|..] == [pos.x, pos.y]
    ensures (g.StraightLine? || g.ArrowLine?) ==> r.points[..2] == g.points[..2] && Point(r.points[2], r.points[3]) == pos
    ensures g.Ellipse? ==> var e := CircleDraw(start, pos); r == Ellipse(e.center.x, e.center.y, e.radiusX, e.radiusY)
    ensures g.Rect? ==> var f := RectangleDraw(start, pos); r == Rect(f.origin.x, f.origin.y, f.width, f.height)
    ensures g.TextBox? || g.PinGroup? ==> r == g
  {
    match g
    case PenLine(points) =>
      var r := PenLine(points + [pos.x, pos.y]);
      assert r.points[..|g.points|] == g.points;
      r
    case StraightLine(points) => StraightLine([points[0], points[1], pos.x, pos.y])
    case ArrowLine(points) => ArrowLine([points[0], points[1], pos.x, pos.y])
    case Ellipse(_, _, _, _) =>
      var e := CircleDraw(start, pos);
      Ellipse(e.center.x, e.center.y, e.radiusX, e.radiusY)
    case Rect(_, _, _, _) =>
      var f := RectangleDraw(start, pos);
      Rect(f.origin.x, f.origin.y, f.width, f.height)
    case TextBox(_, _, _, _) => g
    case PinGroup(_, _, _, _, _, _, _, _) => g
  }

  /**
    Every shape except a pen stroke forgets the previous move: two moves in a row leave it as
    the second move alone would, so ellipse and rectangle depend on start and pointer only.
  */
  lemma DrawStepOverwrites(g: Geometry, start: Point, p: Point, q: Point)
    requires WellFormed(g) && !g.PenLine?
    ensures DrawStep(DrawStep(g, start, p), start, q) == DrawStep(g, start, q)
  {
    var once := DrawStep(g, start, p);
    if g.StraightLine? || g.ArrowLine? {
      assert once.points[..2] == g.points[..2];
      assert once.points[0] == g.points[0] && once.points[1] == g.points[1];
    }
  }

  /** The flat coordinate list of a run of points, as Konva stores a stroke. */
  function Flatten(ps: seq<Point>): (coords: seq<real>)
    ensures |coords| == 2 * |ps|
  {
    if ps == [] then [] else [ps[0].x, ps[0].y] + Flatten(ps[1..])
  }

  /**
    The shape after a run of pointer moves from the last recorded pointer `last`: each move
    is applied when `ShouldAddPoint` accepts it, and an applied move becomes the new `last`.
  */
  function Gesture(g: Geometry, start: Point, last: Option<Point>, samples: seq<Point>): (r: Geometry)
    requires WellFormed(g)
    ensures WellFormed(r) && ToolOf(r) == ToolOf(g)
    decreases |samples|
  {
    if samples == [] then g
    else if ShouldAddPoint(last, samples[0]) then Gesture(DrawStep(g, start, samples[0]), start, Some(samples[0]), samples[1..])
    else Gesture(g, start, last, samples[1..])
  }

  /** A pen stroke records exactly the accepted moves, in order, after the points it had. */
  lemma {:induction false} PenGestureRecordsAccepted(g: Geometry, start: Point, last: Option<Point>, samples: seq<Point>)
    requires WellFormed(g) && g.PenLine?
    ensures Gesture(g, start, last, samples).points == g.points + Flatten(Accepted(last, samples))
    decreases |samples|
  {
    if samples != [] {
      var p := samples[0];
      if ShouldAddPoint(last, p) {
        var next := DrawStep(g, start, p);
        assert next.points == g.points + [p.x, p.y];
        PenGestureRecordsAccepted(next, start, Some(p), samples[1..]);
        assert Flatten([p] + Accepted(Some(p), samples[1..])) == [p.x, p.y] + Flatten(Accepted(Some(p), samples[1..])) by {
          assert ([p] + Accepted(Some(p), samples[1..]))[1..] == Accepted(Some(p), samples[1..]);
        }
        assert g.points + [p.x, p.y] + Flatten(Accepted(Some(p), samples[1..]))
            == g.points + ([p.x, p.y] + Flatten(Accepted(Some(p), samples[1..])));
      } else {
        PenGestureRecordsAccepted(g, start, last, samples[1..]);
      }
    }
  }

  /**
    Any other shape ends up as the last accepted move alone makes it, and is unchanged when
    no move is accepted.
  */
  lemma {:induction false} GestureKeepsLastAccepted(g: Geometry, start: Point, last: Option<Point>, samples: seq<Point>)
    requires WellFormed(g) && !g.PenLine?
    ensures var acc := Accepted(last, samples);
      && (acc == [] ==> Gesture(g, start, last, samples) == g)
      && (acc != [] ==> Gesture(g, start, last, samples) == DrawStep(g, start, acc[|acc| - 1]))
    decreases |samples|
  {
    if samples != [] {
      var p := samples[0];
      if ShouldAddPoint(last, p) {
        var next := DrawStep(g, start, p);
        GestureKeepsLastAccepted(next, start, Some(p), samples[1..]);
        var rest := Accepted(Some(p), samples[1..]);
        if rest != [] {
          DrawStepOverwrites(g, start, p, rest[|rest| - 1]);
        }
      } else {
        GestureKeepsLastAccepted(g, start, last, samples[1..]);
      }
    }
  }

  // ----- When a finished shape is committed -----

  /**
    The `shouldCommit` predicate of the shape's own tool: a pen stroke needs a point beyond
    its origin, an ellipse both radii and a rectangle both sides positive; lines, arrows,
    text and pins always qualify.
  */
  predicate Committable(g: Geometry)
    ensures ToolOf(g) in {Line, Arrow, Text, Pin} ==> Committable(g)
    ensures WellFormed(g) && g.PenLine? ==> (Committable(g) <==> |g.points| / 2 >= 2)
    ensures WellFormed(g) && Committable(g) && !g.StraightLine? && !g.ArrowLine? ==> !Degenerate(g)
  {
    match g
    case PenLine(points) => |points| > 2
    case StraightLine(_) => true
    case ArrowLine(_) => true
    case Ellipse(_, _, rx, ry) => rx > 0.0 && ry > 0.0
    case Rect(_, _, w, h) => w > 0.0 && h > 0.0
    case TextBox(_, _, _, _) => true
    case PinGroup(_, _, _, _, _, _, _, _) => true
  }

  /**
    `shouldCommitHistorySnapshot`: the predicate is looked up by the current tool; there is
    none for the drag tool or for no tool, where the lookup fails. For a shape of the
    tool's kind the answer is the shape's own `Committable`.
  */
  function ShouldCommitHistorySnapshot(g: Geometry, tool: Option<Tool>): (r: Result<bool, ToolError>)
    requires tool.Some? && tool.value != Drag ==> ToolOf(g) == tool.value
    ensures r.Failure? <==> tool.None? || tool == Some(Drag)
    ensures r.Success? ==> (r.value <==> Committable(g))
  {
    match tool
    case Some(Pen) => Success(|g.points| > 2)
    case Some(Line) => Success(true)
    case Some(Arrow) => Success(true)
    case Some(Circle) => Success(g.radiusX > 0.0 && g.radiusY > 0.0)
    case Some(Rectangle) => Success(g.width > 0.0 && g.height > 0.0)
    case Some(Text) => Success(true)
    case Some(Pin) => Success(true)
    case _ => Failure(NotImplemented(tool))
  }

  /**
    A shape just created is committable exactly for the line, arrow, text and pin tools: a
    press with no move never commits a stroke, ellipse or rectangle.
  */
  lemma FreshShapeCommittable(tool: Tool, id: ShapeId, pos: Point, fontSize: real, pinText: string, text: string)
    requires tool != Drag
    ensures var r := InstantiateShape(Some(tool), id, pos, fontSize, pinText, text);
      r.Success? && (Committable(r.value.geometry) <==> tool in {Line, Arrow, Text, Pin})
  {
  }

  /** A pen stroke with one accepted move after the press is committable. */
  lemma PenCommitsAfterOneMove(g: Geometry, start: Point, pos: Point)
    requires WellFormed(g) && g.PenLine?
    ensures Committable(DrawStep(g, start, pos))
  {
  }

  /** An ellipse or rectangle drawn by a drag is committable exactly when the drag moved on both axes. */
  lemma FittedShapeCommittable(a: Point, b: Point)
    ensures var e := CircleDraw(a, b); Committable(Ellipse(e.center.x, e.center.y, e.radiusX, e.radiusY)) <==> a.x != b.x && a.y != b.y
    ensures var f := RectangleDraw(a, b); Committable(Rect(f.origin.x, f.origin.y, f.width, f.height)) <==> a.x != b.x && a.y != b.y
  {
  }
}
