/**
 * InterfaceCutterElement (elements/element_interface_cutter.py): a square
 * of side `size` in the element's frame whose plane slices the first of a
 * list of geometries in place. The frame-to-plane conversion, the
 * transformations and Mesh.slice are kernel calls.
 */
module InterfaceCutter {
  import opened Base
  import opened MeshTopology
  import opened Prism
  import opened Sections
  import CutPipeline

  /** The kernel calls compute_interface makes; an Err is an exception slicing raises. */
  datatype Kernel<!G, !X> = Kernel(
    /** plane.transformed(x) and plane.transform(x) */
    transformPlane: (Plane, X) -> Plane,
    /** mesh.slice(plane): the pieces; none when the plane misses the mesh. */
    slice: (G, Plane) -> Result<seq<G>>)

  /** Polygon.from_rectangle([-size / 2, -size / 2, 0], size, size) */
  function CutterSquare(size: real): seq<Point>
  {
    Rectangle(Vector(-size * 0.5, -size * 0.5, 0.0), size, size)
  }

  /**
   * The square is centred on the origin (opposite corners are mirror
   * images through it), lies in z = 0, runs counter-clockwise with area
   * size * size, and has side size along both axes.
   */
  lemma CutterSquareShape(size: real)
    ensures |CutterSquare(size)| == 4
    ensures forall i :: 0 <= i < 2 ==> Add(CutterSquare(size)[i], CutterSquare(size)[i + 2]) == Origin
    ensures forall i :: 0 <= i < 4 ==> CutterSquare(size)[i].z == 0.0
    ensures TwiceArea(CutterSquare(size)) == 2.0 * size * size
    ensures CutterSquare(size)[1].x - CutterSquare(size)[0].x == size
    ensures CutterSquare(size)[3].y - CutterSquare(size)[0].y == size
  {
    RectangleShape(Vector(-size * 0.5, -size * 0.5, 0.0), size, size);
  }

  /** Mesh.from_polygons([square]): the four corners and one face through them in order. */
  function CutterShape(size: real): (m: Mesh)
    ensures |m.vertices| == 4 && m.vertices == CutterSquare(size)
    ensures |m.faces| == 1 && m.faces[0] == Range(0, 4)
    ensures IndicesBelow(m.faces, |m.vertices|)
  {
    Mesh(CutterSquare(size), [Range(0, 4)])
  }

  /**
   * The slice plane: Plane.from_frame(frame) transformed by the world
   * transformation, then by xform into the object's space.
   */
  function InterfacePlane<G, X>(k: Kernel<G, X>, frame: Frame, world: X, xform: X): Plane
  {
    k.transformPlane(k.transformPlane(PlaneOfFrame(frame), world), xform)
  }

  /**
   * The geometry list after compute_interface, or the exception it raises.
   * An empty list raises IndexError: `geometries[0]` fails in the try and
   * again in the handler, which is not covered. A slice that raises leaves
   * the list as it is, and so does one with no pieces.
   */
  function Interfaced<G, X>(k: Kernel<G, X>, plane: Plane, gs: seq<G>): (r: Result<seq<G>>)
    ensures r.Err? <==> |gs| == 0
    ensures r.Err? ==> r.error == IndexError
    ensures r.Ok? ==> |r.value| == |gs| && r.value[1..] == gs[1..]
    ensures r.Ok? ==> var pieces := k.slice(gs[0], plane);
      r.value[0] == (if pieces.Ok? && |pieces.value| > 0 then pieces.value[0] else gs[0])
  {
    if |gs| == 0 then Err(IndexError)
    else
      match k.slice(gs[0], plane)
      case Err(_) => Ok(gs)
      case Ok(pieces) => if |pieces| > 0 then Ok(gs[0 := pieces[0]]) else Ok(gs)
  }

  /** What compute_interface appends to global_property: the plane, then geometries[0], when slicing raises. */
  function InterfaceLog<G, X>(k: Kernel<G, X>, plane: Plane, gs: seq<G>): (l: seq<CutPipeline.Logged<G, Plane>>)
    ensures |l| == 0 || |l| == 2
    ensures |l| == 2 <==> |gs| > 0 && k.slice(gs[0], plane).Err?
    ensures |l| == 2 ==> l == [CutPipeline.LoggedPlane(plane), CutPipeline.LoggedMesh(gs[0])]
  {
    if |gs| > 0 && k.slice(gs[0], plane).Err? then [CutPipeline.LoggedPlane(plane), CutPipeline.LoggedMesh(gs[0])] else []
  }

  class InterfaceCutterElement {
    var size: real
    var frame: Frame
    var shape: Mesh

    /** InterfaceCutterElement(size=500, frame=None): `frame or Frame.worldXY()`, and the square shape. */
    constructor (size: real, frame: Option<Frame>)
      ensures this.size == size
      ensures this.frame == (if frame.Some? then frame.value else WorldXY)
      ensures shape == CutterShape(size)
    {
      this.size := size;
      this.frame := if frame.Some? then frame.value else WorldXY;
      shape := CutterShape(size);
    }

    /**
     * compute_interface(geometries, xform): slices geometries[0] with the
     * element's plane and overwrites it with the first piece. A failed
     * slice is logged whether or not debug is set.
     */
    method ComputeInterface<G, X>(k: Kernel<G, X>, globals: CutPipeline.Globals<G, Plane>, geometries: array<G>,
                                  world: X, xform: X) returns (raised: Option<Error>)
      modifies geometries, globals
      ensures globals.debug == old(globals.debug)
      ensures var plane := InterfacePlane(k, frame, world, xform);
        var r := Interfaced(k, plane, old(geometries[..]));
        (raised.Some? <==> r.Err?) && (raised.Some? ==> raised.value == r.error) &&
        (r.Ok? ==> geometries[..] == r.value) && (r.Err? ==> geometries[..] == old(geometries[..])) &&
        globals.globalProperty == old(globals.globalProperty) + InterfaceLog(k, plane, old(geometries[..]))
    {
      var plane := k.transformPlane(PlaneOfFrame(frame), world);
      plane := k.transformPlane(plane, xform);
      if geometries.Length == 0 {
        return Some(IndexError);
      }
      var pieces := k.slice(geometries[0], plane);
      if pieces.Err? {
        globals.globalProperty := globals.globalProperty + [CutPipeline.LoggedPlane(plane)];
        globals.globalProperty := globals.globalProperty + [CutPipeline.LoggedMesh(geometries[0])];
        return None;
      }
      if |pieces.value| > 0 {
        geometries[0] := pieces.value[0];
      }
      raised := None;
    }
  }

  /** Slicing never changes the length of the list nor any entry after the first. */
  lemma OnlyFirstChanges<G, X>(k: Kernel<G, X>, plane: Plane, gs: seq<G>, i: int)
    requires 0 < i < |gs|
    ensures Interfaced(k, plane, gs).Ok? && Interfaced(k, plane, gs).value[i] == gs[i]
  {
    assert Interfaced(k, plane, gs).value[1..][i - 1] == gs[1..][i - 1];
  }
}
