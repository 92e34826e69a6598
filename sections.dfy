/**
 * The geometry the element classes share: frames and planes, the library
 * routines they call (line-plane intersection, ear clipping, regular
 * polygons) as a record of functions, the loop that cuts a section's
 * extrusion lines with the bottom and top planes, rectangular sections, and
 * transformations that are products of translations.
 */
module Sections {
  import opened Base
  import opened MeshTopology
  import opened Prism

  /** A compas Frame: its origin and its two in-plane axes. */
  datatype Frame = Frame(point: Point, xaxis: Vector, yaxis: Vector)

  const WorldXY: Frame := Frame(Origin, Vector(1.0, 0.0, 0.0), Vector(0.0, 1.0, 0.0))

  /** A compas Plane: a point and a normal. */
  datatype Plane = Plane(point: Point, normal: Vector)

  function Cross(a: Vector, b: Vector): Vector
  {
    Vector(a.y * b.z - a.z * b.y, a.z * b.x - a.x * b.z, a.x * b.y - a.y * b.x)
  }

  /**
   * Plane.from_frame: through the frame's origin, normal to both axes. The
   * library normalises the normal; a line-plane intersection does not
   * depend on its length.
   */
  function PlaneOfFrame(f: Frame): (r: Plane)
    ensures r.point == f.point
    ensures Dot(r.normal, f.xaxis) == 0.0 && Dot(r.normal, f.yaxis) == 0.0
  {
    Plane(f.point, Cross(f.xaxis, f.yaxis))
  }

  /**
   * The library routines the elements call: intersection_line_plane,
   * earclip_polygon, Polygon.from_sides_and_radius_xy and Polygon.normal.
   */
  datatype Kernel = Kernel(
    intersect: (Line, Plane) -> Option<Point>,
    earclip: seq<Point> -> seq<Triangle>,
    regular: (int, real) -> seq<Point>,
    normal: seq<Point> -> Vector)

  /** Line(points[i], points[i] + v) for every point of the section. */
  function ExtrusionLines(section: seq<Point>, v: Vector): (r: seq<Line>)
    ensures |r| == |section|
    ensures forall i :: 0 <= i < |section| ==> r[i].start == section[i] && LineVector(r[i]) == v
  {
    seq(|section|, i requires 0 <= i < |section| => Line(section[i], Add(section[i], v)))
  }

  /** Line i misses the bottom or the top plane. */
  predicate Misses(k: Kernel, l: Line, plane0: Plane, plane1: Plane)
  {
    k.intersect(l, plane0).None? || k.intersect(l, plane1).None?
  }

  /**
   * The loop of compute_top_and_bottom_polygons: each line meets the bottom
   * plane in a point of the bottom polygon and the top plane in a point of
   * the top polygon; a line that misses either raises ValueError.
   */
  function CutPolygons(k: Kernel, lines: seq<Line>, plane0: Plane, plane1: Plane): (r: Result<(seq<Point>, seq<Point>)>)
    ensures r.Err? <==> exists i :: 0 <= i < |lines| && Misses(k, lines[i], plane0, plane1)
    ensures r.Err? ==> r.error == ValueError
    ensures r.Ok? ==> |r.value.0| == |lines| && |r.value.1| == |lines|
    ensures r.Ok? ==> forall i :: 0 <= i < |lines| ==>
      k.intersect(lines[i], plane0) == Some(r.value.0[i]) && k.intersect(lines[i], plane1) == Some(r.value.1[i])
  {
    if lines == [] then Ok(([], []))
    else
      var init := lines[..|lines| - 1];
      var l := lines[|lines| - 1];
      match CutPolygons(k, init, plane0, plane1)
      case Err(e) =>
        assert forall i :: 0 <= i < |init| ==> init[i] == lines[i];
        Err(e)
      case Ok((p0, p1)) =>
        assert forall i :: 0 <= i < |init| ==> init[i] == lines[i];
        if Misses(k, l, plane0, plane1) then Err(ValueError)
        else Ok((p0 + [k.intersect(l, plane0).value], p1 + [k.intersect(l, plane1).value]))
  }

  /** The intersection loop itself, appending to points0 and points1. */
  method IntersectLines(k: Kernel, lines: seq<Line>, plane0: Plane, plane1: Plane)
    returns (r: Result<(seq<Point>, seq<Point>)>)
    ensures r == CutPolygons(k, lines, plane0, plane1)
  {
    var points0: seq<Point> := [];
    var points1: seq<Point> := [];
    var i := 0;
    while i < |lines|
      invariant 0 <= i <= |lines|
      invariant CutPolygons(k, lines[..i], plane0, plane1) == Ok((points0, points1))
    {
      assert lines[..i + 1][..i] == lines[..i];
      var result0 := k.intersect(lines[i], plane0);
      var result1 := k.intersect(lines[i], plane1);
      if result0.None? || result1.None? {
        CutPrefixFails(k, lines, plane0, plane1, i);
        return Err(ValueError);
      }
      points0 := points0 + [result0.value];
      points1 := points1 + [result1.value];
      i := i + 1;
    }
    assert lines[..|lines|] == lines;
    r := Ok((points0, points1));
  }

  /** A line that misses stops the whole cut with ValueError. */
  lemma CutPrefixFails(k: Kernel, lines: seq<Line>, plane0: Plane, plane1: Plane, i: int)
    requires 0 <= i < |lines| && Misses(k, lines[i], plane0, plane1)
    ensures CutPolygons(k, lines, plane0, plane1) == Err(ValueError)
  {
  }

  /**
   * compute_top_and_bottom_polygons of the axis-based elements: the
   * section's extrusion lines cut by the planes through the two ends of
   * the axis, normal to it. Building the first plane reads axis.direction,
   * the vector divided by its length, so an axis whose ends coincide
   * raises ZeroDivisionError before any line is cut. The planes take the
   * axis vector as their normal; it names the same plane as the direction.
   */
  function AxisPolygons(k: Kernel, section: seq<Point>, axis: Line): Result<(seq<Point>, seq<Point>)>
  {
    if axis.start == axis.end then Err(ZeroDivisionError)
    else
      CutPolygons(k, ExtrusionLines(section, LineVector(axis)),
                  Plane(axis.start, LineVector(axis)), Plane(axis.end, LineVector(axis)))
  }

  /**
   * The cut fails with ZeroDivisionError exactly on a zero-length axis,
   * and otherwise with ValueError exactly when some point's extrusion line
   * misses an end plane; a cut that succeeds gives one point per section
   * point on each plane.
   */
  lemma AxisPolygonsOutcome(k: Kernel, section: seq<Point>, axis: Line)
    ensures var r := AxisPolygons(k, section, axis);
      var v := LineVector(axis);
      (r.Err? && r.error == ZeroDivisionError <==> axis.start == axis.end) &&
      (r.Err? && r.error == ValueError <==>
         axis.start != axis.end &&
         exists i :: 0 <= i < |section| && Misses(k, Line(section[i], Add(section[i], v)), Plane(axis.start, v), Plane(axis.end, v))) &&
      (r.Err? ==> r.error in {ZeroDivisionError, ValueError}) &&
      (r.Ok? ==> |r.value.0| == |section| && |r.value.1| == |section|)
  {
    if axis.start != axis.end {
      var v := LineVector(axis);
      var lines := ExtrusionLines(section, v);
      if exists i :: 0 <= i < |section| && Misses(k, Line(section[i], Add(section[i], v)), Plane(axis.start, v), Plane(axis.end, v)) {
        var i :| 0 <= i < |section| && Misses(k, Line(section[i], Add(section[i], v)), Plane(axis.start, v), Plane(axis.end, v));
        assert lines[i] == Line(section[i], Add(section[i], v));
      } else {
        forall i | 0 <= i < |lines|
          ensures !Misses(k, lines[i], Plane(axis.start, v), Plane(axis.end, v))
        {
          assert lines[i] == Line(section[i], Add(section[i], v));
        }
      }
    }
  }

  method ComputeAxisPolygons(k: Kernel, section: seq<Point>, axis: Line) returns (r: Result<(seq<Point>, seq<Point>)>)
    ensures r == AxisPolygons(k, section, axis)
  {
    if axis.start == axis.end {
      return Err(ZeroDivisionError);
    }
    var plane0 := Plane(axis.start, LineVector(axis));
    var plane1 := Plane(axis.end, LineVector(axis));
    r := IntersectLines(k, ExtrusionLines(section, LineVector(axis)), plane0, plane1);
  }

  /** points translated by v, as Polygon.translated / point + v does point by point. */
  function Translated(ps: seq<Point>, v: Vector): (r: seq<Point>)
    ensures |r| == |ps|
    ensures forall i :: 0 <= i < |ps| ==> r[i] == Add(ps[i], v)
  {
    seq(|ps|, i requires 0 <= i < |ps| => Add(ps[i], v))
  }

  /** `for point in polygon.points: point += v` on a copy of the points. */
  method TranslateInPlace(a: array<Point>, v: Vector)
    modifies a
    ensures a[..] == Translated(old(a[..]), v)
  {
    var i := 0;
    while i < a.Length
      invariant 0 <= i <= a.Length
      invariant a[..i] == Translated(old(a[..]), v)[..i]
      invariant a[i..] == old(a[..])[i..]
    {
      a[i] := Add(a[i], v);
      i := i + 1;
    }
  }

  /** Polygon.from_rectangle(point, width, height): corners counter-clockwise from point. */
  function Rectangle(p: Point, width: real, height: real): seq<Point>
  {
    [p, Add(p, Vector(width, 0.0, 0.0)), Add(p, Vector(width, height, 0.0)), Add(p, Vector(0.0, height, 0.0))]
  }

  /** The corners p0..p3 of from_square_section. */
  function SquareSection(width: real, depth: real): seq<Point>
  {
    [Vector(width * 0.5, -depth * 0.5, 0.0), Vector(width * 0.5, depth * 0.5, 0.0),
     Vector(-width * 0.5, depth * 0.5, 0.0), Vector(-width * 0.5, -depth * 0.5, 0.0)]
  }

  /** Twice the signed area of the polygon's projection on XY (the shoelace sum), from corner i on. */
  function TwiceAreaFrom(ps: seq<Point>, i: nat): real
    requires i <= |ps|
    decreases |ps| - i
  {
    if i == |ps| then 0.0
    else ps[i].x * ps[Next(i, |ps|)].y - ps[Next(i, |ps|)].x * ps[i].y + TwiceAreaFrom(ps, i + 1)
  }

  function TwiceArea(ps: seq<Point>): real
  {
    TwiceAreaFrom(ps, 0)
  }

  /**
   * The square section is centred on the origin (opposite corners are
   * mirror images through it), lies in z = 0, and runs counter-clockwise
   * with area width * depth.
   */
  lemma SquareSectionShape(width: real, depth: real)
    ensures |SquareSection(width, depth)| == 4
    ensures forall i :: 0 <= i < 2 ==> Add(SquareSection(width, depth)[i], SquareSection(width, depth)[i + 2]) == Origin
    ensures forall i :: 0 <= i < 4 ==> SquareSection(width, depth)[i].z == 0.0
    ensures TwiceArea(SquareSection(width, depth)) == 2.0 * width * depth
  {
    var s := SquareSection(width, depth);
    assert TwiceAreaFrom(s, 3) == s[3].x * s[0].y - s[0].x * s[3].y;
    assert TwiceAreaFrom(s, 2) == s[2].x * s[3].y - s[3].x * s[2].y + TwiceAreaFrom(s, 3);
    assert TwiceAreaFrom(s, 1) == s[1].x * s[2].y - s[2].x * s[1].y + TwiceAreaFrom(s, 2);
    assert TwiceAreaFrom(s, 0) == s[0].x * s[1].y - s[1].x * s[0].y + TwiceAreaFrom(s, 1);
  }

  /** A rectangle from a corner runs counter-clockwise with area width * height. */
  lemma RectangleShape(p: Point, width: real, height: real)
    ensures |Rectangle(p, width, height)| == 4
    ensures TwiceArea(Rectangle(p, width, height)) == 2.0 * width * height
  {
    var s := Rectangle(p, width, height);
    assert TwiceAreaFrom(s, 3) == s[3].x * s[0].y - s[0].x * s[3].y;
    assert TwiceAreaFrom(s, 2) == s[2].x * s[3].y - s[3].x * s[2].y + TwiceAreaFrom(s, 3);
    assert TwiceAreaFrom(s, 1) == s[1].x * s[2].y - s[2].x * s[1].y + TwiceAreaFrom(s, 2);
    assert TwiceAreaFrom(s, 0) == s[0].x * s[1].y - s[1].x * s[0].y + TwiceAreaFrom(s, 1);
  }

  /**
   * An element transformation as the model builds it: the identity, a
   * translation, a product, or a transformation given from outside.
   */
  datatype Transform = Identity | Translation(v: Vector) | Compose(left: Transform, right: Transform) | Given(id: nat)

  /** The net translation of a transformation made of translations only. */
  function Offset(t: Transform): Option<Vector>
  {
    match t
    case Identity => Some(Origin)
    case Translation(v) => Some(v)
    case Compose(a, b) =>
      if Offset(a).Some? && Offset(b).Some? then Some(Add(Offset(a).value, Offset(b).value)) else None
    case Given(_) => None
  }

  /** A z-range: the heights of the two ends of an axis. */
  datatype Span = Span(bottom: real, top: real)

  /**
   * The world z-range of a local axis from z = 0 to z = length placed by a
   * transformation made of translations.
   */
  function WorldSpan(t: Transform, length: real): Span
    requires Offset(t).Some?
  {
    Span(Offset(t).value.z, Offset(t).value.z + length)
  }

  /**
   * Lengthening an element by 2d and post-multiplying its transformation by
   * a translation (0, 0, -d) moves each end of its axis out by d.
   */
  lemma ExtendMovesBothEnds(t: Transform, length: real, d: real)
    requires Offset(t).Some?
    ensures Offset(Compose(t, Translation(Vector(0.0, 0.0, -d)))).Some?
    ensures WorldSpan(Compose(t, Translation(Vector(0.0, 0.0, -d))), length + d * 2.0)
         == Span(WorldSpan(t, length).bottom - d, WorldSpan(t, length).top + d)
  {
    var moved := ShiftedOffset(t, d);
    var z := Offset(t).value.z;
    var grown := length + d * 2.0;
    assert WorldSpan(Compose(t, Translation(Vector(0.0, 0.0, -d))), grown) == Span(z - d, (z - d) + grown);
  }

  /** The net translation after post-multiplying by (0, 0, -d): the z offset drops by d. */
  lemma ShiftedOffset(t: Transform, d: real) returns (moved: Vector)
    requires Offset(t).Some?
    ensures Offset(Compose(t, Translation(Vector(0.0, 0.0, -d)))) == Some(moved)
    ensures moved.z == Offset(t).value.z - d
  {
    moved := Add(Offset(t).value, Vector(0.0, 0.0, -d));
  }
}
