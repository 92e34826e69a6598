/**
 * BeamElement and BeamTProfileElement (elements/beam.py). The plain beam
 * is a box whose local z axis carries its length; the T-profile beam
 * extrudes an eight-point T section along its axis.
 */
module BeamElements {
  import opened Base
  import opened MeshTopology
  import opened Prism
  import opened Sections
  import opened Loft

  // ---------------------------------------------------------------------
  // BeamElement: the box
  // ---------------------------------------------------------------------

  /**
   * A compas Box whose frame has the world axes: its three sizes and the
   * frame's origin, the centre of the box.
   */
  datatype Box = Box(xsize: real, ysize: real, zsize: real, centre: Point)

  /** The local z interval the box covers. */
  function ZRange(b: Box): (real, real)
  {
    (b.centre.z - b.zsize / 2.0, b.centre.z + b.zsize / 2.0)
  }

  /**
   * Box.from_width_height_depth(width, length, height) with its frame put
   * at (0, 0, zsize / 2): x carries the width, y the height, z the length,
   * and the box stands on z = 0.
   */
  function BoxOfLength(width: real, height: real, length: real): (r: Box)
    ensures r.xsize == width && r.ysize == height && r.zsize == length
    ensures r.centre.x == 0.0 && r.centre.y == 0.0
    ensures ZRange(r) == (0.0, length)
  {
    Box(width, height, length, Vector(0.0, 0.0, length / 2.0))
  }

  /**
   * extend as written: zsize grows by 2d and the frame goes to
   * zsize / 2 - d, a position worked out as if the box still stood on
   * z = 0.
   */
  function BoxExtendAsWritten(b: Box, d: real): Box
  {
    var zsize := b.zsize + d * 2.0;
    b.(zsize := zsize, centre := Vector(0.0, 0.0, zsize / 2.0 - d))
  }

  /** extend as intended: zsize grows by 2d around the same centre. */
  function ExtendBox(b: Box, d: real): (r: Box)
    ensures ZRange(r) == (ZRange(b).0 - d, ZRange(b).1 + d)
    ensures r.xsize == b.xsize && r.ysize == b.ysize && r.zsize == b.zsize + d * 2.0 && r.centre == b.centre
  {
    b.(zsize := b.zsize + d * 2.0)
  }

  /** On a box that stands on z = 0, as every fresh beam's does, the two agree. */
  lemma ExtendFromGroundAgrees(b: Box, d: real)
    requires ZRange(b).0 == 0.0 && b.centre.x == 0.0 && b.centre.y == 0.0
    ensures BoxExtendAsWritten(b, d) == ExtendBox(b, d)
  {
  }

  /**
   * Extended twice as written, a beam of length L reaches down only to
   * -d2 and up to L + 2 d1 + d2: the second call undoes the first call's
   * downward move. Extending by 0.5 twice from length 3 gives [-0.5, 4.5]
   * instead of [-1, 4].
   */
  lemma ExtendTwiceAsWritten(width: real, height: real, length: real, d1: real, d2: real)
    ensures ZRange(BoxExtendAsWritten(BoxExtendAsWritten(BoxOfLength(width, height, length), d1), d2))
         == (-d2, length + d1 * 2.0 + d2)
    ensures ZRange(ExtendBox(ExtendBox(BoxOfLength(width, height, length), d1), d2))
         == (-d1 - d2, length + d1 + d2)
    ensures var b := BoxOfLength(width, height, length);
      d1 != 0.0 ==> ZRange(BoxExtendAsWritten(BoxExtendAsWritten(b, d1), d2)) != ZRange(ExtendBox(ExtendBox(b, d1), d2))
  {
    var b1 := BoxExtendAsWritten(BoxOfLength(width, height, length), d1);
    assert b1.zsize == length + d1 * 2.0 && b1.centre.z == (length + d1 * 2.0) / 2.0 - d1;
    var b2 := BoxExtendAsWritten(b1, d2);
    assert b2.zsize == length + d1 * 2.0 + d2 * 2.0 && b2.centre.z == (length + d1 * 2.0 + d2 * 2.0) / 2.0 - d2;
  }

  /** The state of a BeamElement: its box and its transformation. */
  class BeamElement {
    var box: Box
    var transformation: Transform

    /** __init__: a width by height by length box standing on z = 0. */
    constructor (width: real, height: real, length: real, transformation: Transform)
      ensures box == BoxOfLength(width, height, length) && this.transformation == transformation
    {
      box := BoxOfLength(width, height, length);
      this.transformation := transformation;
    }

    /** The length setter: the box takes the new length and stands on z = 0 again. */
    method SetLength(length: real)
      modifies this
      ensures box == BoxOfLength(old(box).xsize, old(box).ysize, length)
      ensures ZRange(box) == (0.0, length)
      ensures transformation == old(transformation)
    {
      box := box.(zsize := length);
      box := box.(centre := Vector(0.0, 0.0, box.zsize / 2.0));
    }

    /** extend: both ends of the box move out by distance. */
    method Extend(distance: real)
      modifies this
      ensures box == ExtendBox(old(box), distance)
      ensures ZRange(box) == (ZRange(old(box)).0 - distance, ZRange(old(box)).1 + distance)
      ensures transformation == old(transformation)
    {
      box := box.(zsize := box.zsize + distance * 2.0);
    }
  }

  // ---------------------------------------------------------------------
  // BeamTProfileElement: the dimensions and the section
  // ---------------------------------------------------------------------

  datatype TProfileDims = TProfileDims(
    width: real, height: real,
    stepWidthLeft: real, stepWidthRight: real,
    stepHeightLeft: real, stepHeightRight: real)

  /**
   * The dimensions __init__ stores as written: width and height as
   * absolute values, a given right step as its absolute value and a
   * missing one as the raw left argument, then each step width clamped by
   * the raw width * 0.5 * 0.999 and each step height by the raw height.
   */
  function TProfileDimsAsWritten(width: real, height: real, stepWidthLeft: real, stepHeightLeft: real,
                                 stepHeightRight: Option<real>, stepWidthRight: Option<real>): TProfileDims
  {
    var swr := if stepWidthRight.Some? then Abs(stepWidthRight.value) else stepWidthLeft;
    var shr := if stepHeightRight.Some? then Abs(stepHeightRight.value) else stepHeightLeft;
    TProfileDims(Abs(width), Abs(height),
                 MinReal(Abs(stepWidthLeft), width * 0.5 * 0.999), MinReal(swr, width * 0.5 * 0.999),
                 MinReal(Abs(stepHeightLeft), height), MinReal(shr, height))
  }

  /**
   * The dimensions as intended: every size taken as an absolute value
   * before it is used, a missing right step equal to the left one, each
   * step width at most 0.4995 of the width and each step height at most
   * the height.
   */
  function TProfileDimsOf(width: real, height: real, stepWidthLeft: real, stepHeightLeft: real,
                          stepHeightRight: Option<real>, stepWidthRight: Option<real>): (r: TProfileDims)
    ensures r.width == Abs(width) && r.height == Abs(height)
    ensures 0.0 <= r.stepWidthLeft <= r.width * 0.4995 && 0.0 <= r.stepWidthRight <= r.width * 0.4995
    ensures 0.0 <= r.stepHeightLeft <= r.height && 0.0 <= r.stepHeightRight <= r.height
    ensures r.stepWidthLeft == MinReal(Abs(stepWidthLeft), r.width * 0.4995)
    ensures r.stepHeightLeft == MinReal(Abs(stepHeightLeft), r.height)
    ensures stepWidthRight.None? ==> r.stepWidthRight == r.stepWidthLeft
    ensures stepHeightRight.None? ==> r.stepHeightRight == r.stepHeightLeft
    ensures stepWidthRight.Some? ==> r.stepWidthRight == MinReal(Abs(stepWidthRight.value), r.width * 0.4995)
    ensures stepHeightRight.Some? ==> r.stepHeightRight == MinReal(Abs(stepHeightRight.value), r.height)
  {
    var w := Abs(width);
    var h := Abs(height);
    var swr := if stepWidthRight.Some? then Abs(stepWidthRight.value) else Abs(stepWidthLeft);
    var shr := if stepHeightRight.Some? then Abs(stepHeightRight.value) else Abs(stepHeightLeft);
    TProfileDims(w, h,
                 MinReal(Abs(stepWidthLeft), w * 0.5 * 0.999), MinReal(swr, w * 0.5 * 0.999),
                 MinReal(Abs(stepHeightLeft), h), MinReal(shr, h))
  }

  /** With no negative argument the two agree. */
  lemma TProfileDimsAgree(width: real, height: real, stepWidthLeft: real, stepHeightLeft: real,
                          stepHeightRight: Option<real>, stepWidthRight: Option<real>)
    requires width >= 0.0 && height >= 0.0 && stepWidthLeft >= 0.0 && stepHeightLeft >= 0.0
    ensures TProfileDimsAsWritten(width, height, stepWidthLeft, stepHeightLeft, stepHeightRight, stepWidthRight)
         == TProfileDimsOf(width, height, stepWidthLeft, stepHeightLeft, stepHeightRight, stepWidthRight)
  {
  }

  /**
   * A width of -0.1 with the default steps: as written the left step
   * width becomes -0.04995, outside the section; as intended it stays
   * 0.02.
   */
  lemma NegativeWidthAsWritten()
    ensures TProfileDimsAsWritten(-0.1, 0.2, 0.02, 0.02, None, None).stepWidthLeft == -0.04995
    ensures TProfileDimsAsWritten(-0.1, 0.2, 0.02, 0.02, None, None).width == 0.1
    ensures TProfileDimsOf(-0.1, 0.2, 0.02, 0.02, None, None).stepWidthLeft == 0.02
  {
  }

  /** mirror_points_line across the x axis: (x, y, z) becomes (x, -y, -z). */
  function MirrorX(p: Point): Point
  {
    Vector(p.x, -p.y, -p.z)
  }

  /** The eight section points, mirrored when the T is inverted. */
  function TSection(d: TProfileDims, inverted: bool): (r: seq<Point>)
    ensures |r| == 8
  {
    var w := d.width;
    var h := d.height;
    var points := [
      Vector(w * 0.5, -h * 0.5, 0.0),
      Vector(-w * 0.5, -h * 0.5, 0.0),
      Vector(-w * 0.5, -h * 0.5 + d.stepHeightLeft, 0.0),
      Vector(-w * 0.5 + d.stepWidthLeft, -h * 0.5 + d.stepHeightLeft, 0.0),
      Vector(-w * 0.5 + d.stepWidthLeft, h * 0.5, 0.0),
      Vector(w * 0.5 - d.stepWidthRight, h * 0.5, 0.0),
      Vector(w * 0.5 - d.stepWidthRight, -h * 0.5 + d.stepHeightRight, 0.0),
      Vector(w * 0.5, -h * 0.5 + d.stepHeightRight, 0.0)];
    if inverted then seq(8, i requires 0 <= i < 8 => MirrorX(points[i])) else points
  }

  /**
   * The section of the intended dimensions lies in the width by height
   * rectangle centred on the origin in z = 0, and its web (points 4 and
   * 5) keeps a positive width whenever the beam has one.
   */
  lemma TSectionInBox(width: real, height: real, stepWidthLeft: real, stepHeightLeft: real,
                      stepHeightRight: Option<real>, stepWidthRight: Option<real>, inverted: bool)
    ensures var d := TProfileDimsOf(width, height, stepWidthLeft, stepHeightLeft, stepHeightRight, stepWidthRight);
      var s := TSection(d, inverted);
      (forall i :: 0 <= i < 8 ==>
         -d.width * 0.5 <= s[i].x <= d.width * 0.5 && -d.height * 0.5 <= s[i].y <= d.height * 0.5 && s[i].z == 0.0) &&
      (width != 0.0 ==> s[4].x < s[5].x)
  {
    var d := TProfileDimsOf(width, height, stepWidthLeft, stepHeightLeft, stepHeightRight, stepWidthRight);
    var s := TSection(d, inverted);
    if width != 0.0 {
      assert d.width > 0.0;
      assert d.stepWidthLeft + d.stepWidthRight <= d.width * 0.999;
    }
  }

  // ---------------------------------------------------------------------
  // BeamTProfileElement: the mesh
  // ---------------------------------------------------------------------

  /** The bottom triangles, each reversed. */
  function BottomTriangles(tris: seq<Triangle>): (r: seq<Face>)
    ensures |r| == |tris|
    ensures forall k :: 0 <= k < |tris| ==> r[k] == [tris[k].2, tris[k].1, tris[k].0]
  {
    seq(|tris|, k requires 0 <= k < |tris| => [tris[k].2, tris[k].1, tris[k].0])
  }

  /** The top triangles, the same corners moved up by n. */
  function TopTriangles(tris: seq<Triangle>, n: int): (r: seq<Face>)
    ensures |r| == |tris|
    ensures forall k :: 0 <= k < |tris| ==> r[k] == ShiftFace(TriFace(tris[k]), n)
  {
    seq(|tris|, k requires 0 <= k < |tris| => ShiftFace(TriFace(tris[k]), n))
  }

  /** The side quad [c, d, b, a] of edge i: the prism's side quad walked backwards. */
  function TSide(i: int, n: int): Face
    requires 0 <= i < n
  {
    [n + i, n + Next(i, n), Next(i, n), i]
  }

  function TSides(n: nat): (r: seq<Face>)
    ensures |r| == n
    ensures forall i :: 0 <= i < n ==> r[i] == TSide(i, n)
  {
    seq(n, i requires 0 <= i < n => TSide(i, n))
  }

  function TProfileFaces(tris: seq<Triangle>, n: nat): seq<Face>
  {
    BottomTriangles(tris) + TopTriangles(tris, n) + TSides(n)
  }

  /**
   * compute_elementgeometry: the cut polygons and the faces over them, the
   * ZeroDivisionError of a zero-length axis, or the ValueError of a miss.
   */
  function TProfileGeometry(k: Kernel, section: seq<Point>, axis: Line): Result<Mesh>
  {
    match AxisPolygons(k, section, axis)
    case Err(e) => Err(e)
    case Ok((p0, p1)) => Ok(Mesh(p0 + p1, TProfileFaces(k.earclip(p0), |p0|)))
  }

  /**
   * With t triangles over n section points there are 2t + n faces: t
   * bottom and t top triangles and n side quads, each side quad the
   * prism's side quad reversed; when the triangles index the section, all
   * indices lie below 2n.
   */
  lemma TProfileFacesShape(tris: seq<Triangle>, n: nat)
    ensures |TProfileFaces(tris, n)| == 2 * |tris| + n
    ensures forall i :: 0 <= i < n ==> TProfileFaces(tris, n)[2 * |tris| + i] == Reverse(SideQuad(i, n))
    ensures TrianglesBelow(tris, n) ==> IndicesBelow(TProfileFaces(tris, n), 2 * n)
  {
    var faces := TProfileFaces(tris, n);
    forall i | 0 <= i < n
      ensures faces[2 * |tris| + i] == Reverse(SideQuad(i, n))
    {
      assert faces[2 * |tris| + i] == TSide(i, n);
    }
    if TrianglesBelow(tris, n) {
      forall f, j | 0 <= f < |faces| && 0 <= j < |faces[f]|
        ensures 0 <= faces[f][j] < 2 * n
      {
        if f < |tris| {
          assert faces[f] == BottomTriangles(tris)[f];
        } else if f < 2 * |tris| {
          assert faces[f] == TopTriangles(tris, n)[f - |tris|];
        } else {
          assert faces[f] == TSides(n)[f - 2 * |tris|];
        }
      }
    }
  }

  /**
   * compute_elementgeometry raises ZeroDivisionError exactly when the axis
   * has length zero and otherwise ValueError exactly when a section line
   * misses an end plane of the axis; otherwise the mesh holds both cut
   * polygons and 2t + n faces over 2n vertices.
   */
  lemma TProfileGeometryShape(k: Kernel, section: seq<Point>, axis: Line)
    ensures var g := TProfileGeometry(k, section, axis);
      var c := AxisPolygons(k, section, axis);
      (g.Err? <==> c.Err?) && (axis.start == axis.end ==> g.Err?) &&
      (g.Err? ==> g.error == c.error && g.error == if axis.start == axis.end then ZeroDivisionError else ValueError) &&
      (g.Ok? ==> |g.value.vertices| == 2 * |section| &&
                 |g.value.faces| == 2 * |k.earclip(c.value.0)| + |section| &&
                 (TrianglesBelow(k.earclip(c.value.0), |section|) ==> IndicesBelow(g.value.faces, |g.value.vertices|)))
  {
    var c := AxisPolygons(k, section, axis);
    AxisPolygonsOutcome(k, section, axis);
    if c.Ok? {
      TProfileFacesShape(k.earclip(c.value.0), |section|);
    }
  }

  /** The T-profile axis has length zero exactly when the length is zero. */
  lemma TAxisDegenerate(length: real)
    ensures TAxis(length).start == TAxis(length).end <==> length == 0.0
  {
    if TAxis(length).start == TAxis(length).end {
      assert TAxis(length).end.z == 0.0;
    }
  }

  /** The triangle loop of compute_elementgeometry: bottom faces reversed, top faces shifted. */
  method TriangleFaces(triangles: seq<Triangle>, offset: nat) returns (faces: seq<Face>)
    ensures faces == BottomTriangles(triangles) + TopTriangles(triangles, offset)
  {
    var topFaces: seq<Face> := [];
    var bottomFaces: seq<Face> := [];
    var i := 0;
    while i < |triangles|
      invariant 0 <= i <= |triangles|
      invariant topFaces == TopTriangles(triangles, offset)[..i]
      invariant bottomFaces == BottomTriangles(triangles)[..i]
    {
      var t := triangles[i];
      var triangleTop := [t.0 + offset, t.1 + offset, t.2 + offset];
      var triangleBottom := [t.2, t.1, t.0];
      assert triangleTop == ShiftFace(TriFace(t), offset);
      topFaces := topFaces + [triangleTop];
      bottomFaces := bottomFaces + [triangleBottom];
      assert TopTriangles(triangles, offset)[..i + 1] == TopTriangles(triangles, offset)[..i] + [triangleTop];
      assert BottomTriangles(triangles)[..i + 1] == BottomTriangles(triangles)[..i] + [triangleBottom];
      i := i + 1;
    }
    assert TopTriangles(triangles, offset)[..i] == TopTriangles(triangles, offset);
    assert BottomTriangles(triangles)[..i] == BottomTriangles(triangles);
    faces := bottomFaces + topFaces;
  }

  /** The side loop of compute_elementgeometry: [c, d, b, a] per section edge. */
  method SideFaces(init: seq<Face>, offset: nat) returns (faces: seq<Face>)
    ensures faces == init + TSides(offset)
  {
    faces := init;
    var i := 0;
    while i < offset
      invariant 0 <= i <= offset
      invariant faces == init + TSides(offset)[..i]
    {
      var next := (i + 1) % offset;
      assert next == Next(i, offset);
      faces := faces + [[offset + i, offset + next, next, i]];
      assert TSides(offset)[..i + 1] == TSides(offset)[..i] + [TSide(i, offset)];
      i := i + 1;
    }
    assert TSides(offset)[..offset] == TSides(offset);
  }

  /** compute_elementgeometry on the current section and axis. */
  method ComputeTProfileGeometry(k: Kernel, section: seq<Point>, axis: Line) returns (r: Result<Mesh>)
    ensures r == TProfileGeometry(k, section, axis)
  {
    var cut := ComputeAxisPolygons(k, section, axis);
    if cut.Err? {
      return Err(cut.error);
    }
    var polygon0 := cut.value.0;
    var polygon1 := cut.value.1;
    var offset := |polygon0|;
    var vertices := polygon0 + polygon1;
    var triangles := k.earclip(polygon0);
    var faces := TriangleFaces(triangles, offset);
    faces := SideFaces(faces, offset);
    r := Ok(Mesh(vertices, faces));
  }

  /** The axis of a T-profile beam: from the origin up z by length. */
  function TAxis(length: real): Line
  {
    Line(Origin, Vector(0.0, 0.0, length))
  }

  class BeamTProfileElement {
    var dims: TProfileDims
    var inverted: bool
    var isSupport: bool
    var length: real
    var points: seq<Point>
    var section: seq<Point>
    var axis: Line
    var transformation: Transform

    /**
     * __init__: the intended dimensions, the section built from them, the
     * stored length as an absolute value, the axis along the length as
     * given.
     */
    constructor (width: real, height: real, stepWidthLeft: real, stepHeightLeft: real, length: real, inverted: bool,
                 stepHeightRight: Option<real>, stepWidthRight: Option<real>, isSupport: bool, transformation: Transform)
      ensures dims == TProfileDimsOf(width, height, stepWidthLeft, stepHeightLeft, stepHeightRight, stepWidthRight)
      ensures points == TSection(dims, inverted) && section == points
      ensures this.length == Abs(length) && axis == TAxis(length)
      ensures this.inverted == inverted && this.isSupport == isSupport && this.transformation == transformation
    {
      dims := TProfileDimsOf(width, height, stepWidthLeft, stepHeightLeft, stepHeightRight, stepWidthRight);
      this.inverted := inverted;
      this.isSupport := isSupport;
      this.length := Abs(length);
      points := TSection(TProfileDimsOf(width, height, stepWidthLeft, stepHeightLeft, stepHeightRight, stepWidthRight), inverted);
      section := points;
      axis := TAxis(length);
      this.transformation := transformation;
    }

    /**
     * The length setter: the length, the section and the axis are written
     * first, then compute_elementgeometry runs and its result is dropped;
     * only its ValueError escapes.
     */
    method SetLength(k: Kernel, length: real) returns (raised: Option<Error>)
      modifies this
      ensures this.length == length && section == points && axis == TAxis(length)
      ensures raised.None? <==> TProfileGeometry(k, points, TAxis(length)).Ok?
      ensures raised.Some? ==> raised.value == TProfileGeometry(k, points, TAxis(length)).error
      ensures length == 0.0 ==> raised == Some(ZeroDivisionError)
      ensures raised.Some? ==> raised.value == if length == 0.0 then ZeroDivisionError else ValueError
      ensures dims == old(dims) && points == old(points) && inverted == old(inverted) && isSupport == old(isSupport)
      ensures transformation == old(transformation)
    {
      TAxisDegenerate(length);
      TProfileGeometryShape(k, points, TAxis(length));
      this.length := length;
      section := points;
      axis := TAxis(length);
      var g := ComputeTProfileGeometry(k, section, axis);
      raised := if g.Err? then Some(g.error) else None;
    }

    /**
     * extend: the length grows by 2 * distance through the setter, then
     * the transformation is post-multiplied by a translation of -distance
     * along z, so each end of the axis moves out by distance in the
     * beam's frame.
     */
    method Extend(k: Kernel, distance: real) returns (raised: Option<Error>)
      modifies this
      ensures var g := TProfileGeometry(k, old(points), TAxis(old(length) + distance * 2.0));
        length == old(length) + distance * 2.0 && axis == TAxis(length) && section == points &&
        (raised.None? <==> g.Ok?) &&
        (g.Ok? ==> transformation == Compose(old(transformation), Translation(Vector(0.0, 0.0, -distance)))) &&
        (g.Err? ==> raised == Some(g.error) && transformation == old(transformation))
      ensures length == 0.0 ==> raised == Some(ZeroDivisionError)
      ensures raised.Some? ==> raised.value == if length == 0.0 then ZeroDivisionError else ValueError
      ensures dims == old(dims) && points == old(points) && inverted == old(inverted) && isSupport == old(isSupport)
    {
      raised := SetLength(k, length + distance * 2.0);
      if raised.Some? {
        return;
      }
      transformation := Compose(transformation, Translation(Vector(0.0, 0.0, -distance)));
      var g := ComputeTProfileGeometry(k, section, axis);
    }
  }
}
