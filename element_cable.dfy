/**
 * CableElement of element_cable.py: a regular polygon swept along the axis
 * vector. Its compute_shape takes `vertices = self.section.points`, which
 * is the polygon's own list, and appends the translated points to it, so
 * every call grows the section. The code as written is kept beside the
 * shape computation that works on a copy.
 */
module CableShapes {
  import opened Base
  import opened MeshTopology
  import opened Prism
  import opened Sections
  import SectionElements

  /** A compas Polygon: `points` is the object's own list, shared with whoever reads it. */
  class Polygon {
    var points: seq<Point>

    constructor (points: seq<Point>)
      ensures this.points == points
    {
      this.points := points;
    }
  }

  /**
   * The loop of compute_shape as written: `range(len(points))` is taken
   * once, and each step appends points[i] + v to the same list it reads.
   */
  method AppendTranslated(p: Polygon, v: Vector)
    modifies p
    ensures p.points == old(p.points) + Translated(old(p.points), v)
  {
    var n := |p.points|;
    ghost var original := p.points;
    var i := 0;
    while i < n
      invariant 0 <= i <= n && |original| == n
      invariant p.points == original + Translated(original, v)[..i]
    {
      assert p.points[i] == original[i];
      assert Translated(original, v)[..i + 1] == Translated(original, v)[..i] + [Add(original[i], v)];
      p.points := p.points + [Add(p.points[i], v)];
      i := i + 1;
    }
    assert Translated(original, v)[..n] == Translated(original, v);
  }

  /** The section after k calls of compute_shape as written: each call doubles it. */
  function Grown(s: seq<Point>, v: Vector, k: nat): (r: seq<Point>)
    ensures |r| == |s| * Power2(k)
    ensures k > 0 ==> r[..|s|] == s
  {
    if k == 0 then s
    else
      var g := Grown(s, v, k - 1);
      assert (g + Translated(g, v))[..|s|] == g[..|s|];
      g + Translated(g, v)
  }

  function Power2(k: nat): (r: nat)
    ensures r >= 1
  {
    if k == 0 then 1 else 2 * Power2(k - 1)
  }

  /**
   * The shape computed from a section: the bottom points, then the same
   * points moved by the axis vector, with the prism faces over n.
   */
  function SweptShape(s: seq<Point>, v: Vector): (m: Mesh)
    ensures |m.vertices| == 2 * |s| && |m.faces| == |s| + 2
    ensures m.vertices[..|s|] == s && m.vertices[|s|..] == Translated(s, v)
    ensures IndicesBelow(m.faces, |m.vertices|) && Paired(m.faces)
  {
    PrismMeshValid(s, Translated(s, v));
    assert (s + Translated(s, v))[..|s|] == s;
    assert (s + Translated(s, v))[|s|..] == Translated(s, v);
    PrismMesh(s, Translated(s, v))
  }

  /**
   * After a first compute_shape as written, a second one sees 2n points:
   * its mesh has 4n vertices and 2n + 2 faces and is not the first one.
   */
  lemma SecondShapeAsWritten(s: seq<Point>, v: Vector)
    requires |s| > 0
    ensures |Grown(s, v, 1)| == 2 * |s|
    ensures |SweptShape(Grown(s, v, 1), v).vertices| == 4 * |s|
    ensures |SweptShape(Grown(s, v, 1), v).faces| == 2 * |s| + 2
    ensures SweptShape(Grown(s, v, 1), v) != SweptShape(s, v)
  {
    assert Power2(1) == 2 * Power2(0);
    var first := SweptShape(s, v);
    var second := SweptShape(Grown(s, v, 1), v);
    assert |second.faces| != |first.faces|;
  }

  class CableShapeElement {
    var axis: Line
    var radius: real
    var section: Polygon
    var shape: Mesh

    /**
     * CableElement(axis, radius, sides=6): `axis or Line([0, 0, 0], [0, 0, 1])`,
     * the regular section of `sides` sides, and its shape.
     */
    constructor (k: Kernel, axis: Option<Line>, radius: real, sides: int)
      ensures this.axis == (if axis.Some? then axis.value else SectionElements.UnitAxis)
      ensures this.radius == radius
      ensures fresh(section) && section.points == k.regular(sides, radius)
      ensures shape == SweptShape(k.regular(sides, radius), LineVector(this.axis))
    {
      this.axis := if axis.Some? then axis.value else SectionElements.UnitAxis;
      this.radius := radius;
      section := new Polygon(k.regular(sides, radius));
      new;
      shape := ComputeShape();
    }

    /** compute_shape as written: the section's own list receives the top points. */
    method ComputeShapeAsWritten() returns (mesh: Mesh)
      modifies section
      ensures section.points == old(section.points) + Translated(old(section.points), LineVector(axis))
      ensures mesh == SweptShape(old(section.points), LineVector(axis))
    {
      var offset := |section.points|;
      ghost var bottom := section.points;
      AppendTranslated(section, LineVector(axis));
      var vertices := section.points;
      assert vertices[..offset] == bottom && vertices[offset..] == Translated(bottom, LineVector(axis));
      mesh := ComputePrismMesh(vertices[..offset], vertices[offset..]);
    }

    /** compute_shape on a copy of the points: the section is left as it is. */
    method ComputeShape() returns (mesh: Mesh)
      ensures mesh == SweptShape(section.points, LineVector(axis))
    {
      var bottom := section.points;
      var top := Translated(bottom, LineVector(axis));
      mesh := ComputePrismMesh(bottom, top);
    }
  }

  /** The axis of from_length_and_radius: from the origin to (0, 0, length). */
  function LengthAxis(length: real): (r: Line)
    ensures r.start == Origin && LineVector(r) == Vector(0.0, 0.0, length)
  {
    Line(Origin, Vector(0.0, 0.0, length))
  }

  /** CableElement.from_length_and_radius(length, radius): a hexagonal section along LengthAxis(length). */
  method FromLengthAndRadius(k: Kernel, length: real, radius: real) returns (c: CableShapeElement)
    ensures fresh(c) && fresh(c.section)
    ensures c.axis == LengthAxis(length) && c.radius == radius
    ensures c.section.points == k.regular(6, radius)
    ensures c.shape == SweptShape(k.regular(6, radius), Vector(0.0, 0.0, length))
  {
    c := new CableShapeElement(k, Some(LengthAxis(length)), radius, 6);
  }
}
