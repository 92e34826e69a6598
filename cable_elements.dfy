/**
 * CableElement (elements/cable.py): a polygonal section swept along an
 * axis from the origin up z by the cable's length, and the dispatch of
 * add_modifier on the class of the target element.
 */
module CableElements {
  import opened Base
  import opened MeshTopology
  import opened Prism
  import opened Sections
  import opened CableDispatch

  /** The axis from the origin up z by length. */
  function CableAxis(length: real): Line
  {
    Line(Origin, Vector(0.0, 0.0, length))
  }

  /** The polygons __init__ and the length setter compute. */
  function CablePolygons(k: Kernel, section: seq<Point>, length: real): Result<(seq<Point>, seq<Point>)>
  {
    AxisPolygons(k, section, CableAxis(length))
  }

  /**
   * Cutting a cable: a zero length makes axis.direction divide by zero,
   * any other length fails only with the ValueError of a missed plane.
   */
  lemma CablePolygonsOutcome(k: Kernel, section: seq<Point>, length: real)
    ensures var c := CablePolygons(k, section, length);
      (length == 0.0 ==> c == Err(ZeroDivisionError)) &&
      (c.Err? ==> c.error == if length == 0.0 then ZeroDivisionError else ValueError)
  {
    var axis := CableAxis(length);
    assert axis.start == axis.end <==> length == 0.0 by {
      if axis.start == axis.end {
        assert axis.end.z == 0.0;
      }
    }
    AxisPolygonsOutcome(k, section, axis);
  }

  class CableElement {
    var radius: real
    var sides: int
    var length: real
    var isSupport: bool
    var axis: Line
    var section: seq<Point>
    var polygonBottom: seq<Point>
    var polygonTop: seq<Point>
    var transformation: Transform

    /** The two polygons pair up point by point. */
    predicate Valid()
      reads this
    {
      |polygonBottom| == |polygonTop|
    }

    constructor Init(radius: real, sides: int, length: real, isSupport: bool, section: seq<Point>,
                     polygons: (seq<Point>, seq<Point>), transformation: Transform)
      ensures this.radius == radius && this.sides == sides && this.length == length && this.isSupport == isSupport
      ensures axis == CableAxis(length) && this.section == section
      ensures polygonBottom == polygons.0 && polygonTop == polygons.1 && this.transformation == transformation
    {
      this.radius := radius;
      this.sides := sides;
      this.length := length;
      this.isSupport := isSupport;
      axis := CableAxis(length);
      this.section := section;
      polygonBottom := polygons.0;
      polygonTop := polygons.1;
      this.transformation := transformation;
    }

    /**
     * CableElement(...): the regular section of `sides` sides and the
     * given radius, cut at both ends of the axis; a zero length raises
     * ZeroDivisionError and a miss raises ValueError.
     */
    static method New(k: Kernel, radius: real, sides: int, length: real, isSupport: bool, transformation: Transform)
      returns (r: Result<CableElement>)
      ensures var c := CablePolygons(k, k.regular(sides, radius), length);
        (r.Ok? <==> c.Ok?) && (length == 0.0 ==> r.Err?) &&
        (r.Err? ==> r.error == c.error && r.error == if length == 0.0 then ZeroDivisionError else ValueError) &&
        (r.Ok? ==> fresh(r.value) && r.value.Valid() &&
                   r.value.section == k.regular(sides, radius) && r.value.axis == CableAxis(length) &&
                   r.value.length == length && r.value.transformation == transformation &&
                   r.value.polygonBottom == c.value.0 && r.value.polygonTop == c.value.1)
    {
      var section := k.regular(sides, radius);
      CablePolygonsOutcome(k, section, length);
      var cut := ComputeAxisPolygons(k, section, CableAxis(length));
      if cut.Err? {
        return Err(cut.error);
      }
      var e := new CableElement.Init(radius, sides, length, isSupport, section, cut.value, transformation);
      r := Ok(e);
    }

    /**
     * The length setter: the length and the axis are written, then the
     * polygons are cut again; a miss raises after the first two writes.
     */
    method SetLength(k: Kernel, length: real) returns (raised: Option<Error>)
      requires Valid()
      modifies this
      ensures Valid()
      ensures this.length == length && axis == CableAxis(length)
      ensures var c := CablePolygons(k, section, length);
        (raised.None? <==> c.Ok?) &&
        (c.Ok? ==> polygonBottom == c.value.0 && polygonTop == c.value.1) &&
        (c.Err? ==> raised == Some(c.error) && polygonBottom == old(polygonBottom) && polygonTop == old(polygonTop))
      ensures length == 0.0 ==> raised == Some(ZeroDivisionError)
      ensures raised.Some? ==> raised.value == if length == 0.0 then ZeroDivisionError else ValueError
      ensures section == old(section) && radius == old(radius) && sides == old(sides) && isSupport == old(isSupport)
      ensures transformation == old(transformation)
    {
      CablePolygonsOutcome(k, section, length);
      this.length := length;
      axis := CableAxis(length);
      var cut := ComputeAxisPolygons(k, section, axis);
      if cut.Err? {
        return Some(cut.error);
      }
      polygonBottom := cut.value.0;
      polygonTop := cut.value.1;
      raised := None;
    }

    /**
     * extend: the length grows by 2 * distance through the setter, then
     * the transformation is post-multiplied by a translation of -distance
     * along z.
     */
    method Extend(k: Kernel, distance: real) returns (raised: Option<Error>)
      requires Valid()
      modifies this
      ensures Valid()
      ensures length == old(length) + distance * 2.0 && axis == CableAxis(length)
      ensures var c := CablePolygons(k, section, length);
        (raised.None? <==> c.Ok?) &&
        (c.Ok? ==> polygonBottom == c.value.0 && polygonTop == c.value.1 &&
                   transformation == Compose(old(transformation), Translation(Vector(0.0, 0.0, -distance)))) &&
        (c.Err? ==> raised == Some(c.error) && transformation == old(transformation))
      ensures length == 0.0 ==> raised == Some(ZeroDivisionError)
      ensures raised.Some? ==> raised.value == if length == 0.0 then ZeroDivisionError else ValueError
      ensures section == old(section) && radius == old(radius) && sides == old(sides) && isSupport == old(isSupport)
    {
      raised := SetLength(k, length + distance * 2.0);
      if raised.Some? {
        return;
      }
      transformation := Compose(transformation, Translation(Vector(0.0, 0.0, -distance)));
    }

    /** compute_elementgeometry: the closed prism over the two polygons. */
    method ComputeElementGeometry() returns (mesh: Mesh)
      requires Valid()
      ensures mesh == PrismMesh(polygonBottom, polygonTop)
      ensures |mesh.faces| == |polygonBottom| + 2
      ensures IndicesBelow(mesh.faces, |mesh.vertices|) && Paired(mesh.faces)
    {
      mesh := ComputePrismMesh(polygonBottom, polygonTop);
      PrismMeshValid(polygonBottom, polygonTop);
    }

    /**
     * add_modifier: the handler named after the target's direct subclass
     * of Element; with none, the intended ValueError.
     */
    method AddModifier<G>(chain: seq<string>, geometry: G) returns (r: Result<Modifier<G>>)
      requires |chain| > 0
      ensures r == Dispatch(chain, geometry)
    {
      var found := FindElementSubclass(chain);
      if found.Err? {
        return Err(found.error);
      }
      var methodName := HandlerName(chain[found.value]);
      if methodName !in CableHandlers {
        return Err(ValueError);
      }
      r := Ok(BooleanModifier(geometry));
    }
  }
}
