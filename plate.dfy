/**
 * PlateElement (element_plate.py): a plate between a bottom and a top
 * polygon, with a prism mesh as its shape.
 */
module PlateElements {
  import opened Base
  import opened MeshTopology
  import opened Prism
  import opened Sections

  datatype PlateElement = PlateElement(bottom: seq<Point>, top: seq<Point>, shape: Mesh, name: string)

  /**
   * compute_shape: the vertices of both polygons; the bottom face reversed,
   * the top face, and one quad per bottom edge. Every index list is built
   * from the bottom polygon's length.
   */
  function PlateShape(bottom: seq<Point>, top: seq<Point>): (r: Mesh)
    ensures r.vertices == bottom + top
    ensures |r.faces| == |bottom| + 2
  {
    PrismFacesShape(|bottom|);
    PrismMesh(bottom, top)
  }

  /** __init__: a given shape is kept; an empty name becomes the class name. */
  function NewPlate(bottom: seq<Point>, top: seq<Point>, name: Option<string>, shape: Option<Mesh>): (r: PlateElement)
    ensures r.bottom == bottom && r.top == top
    ensures shape.Some? ==> r.shape == shape.value
    ensures shape.None? ==> r.shape.vertices == bottom + top && |r.shape.faces| == |bottom| + 2
    ensures r.name != ""
    ensures name.Some? && name.value != "" ==> r.name == name.value
  {
    var n := if name.Some? && name.value != "" then name.value else "PlateElement";
    PlateElement(bottom, top, if shape.Some? then shape.value else PlateShape(bottom, top), n)
  }

  /**
   * With polygons of equal length the computed shape is closed: every
   * vertex index is in range and every edge is walked back by a
   * neighbouring face.
   */
  lemma PlateShapeClosed(bottom: seq<Point>, top: seq<Point>)
    requires |bottom| == |top|
    ensures IndicesBelow(PlateShape(bottom, top).faces, |bottom + top|)
    ensures Paired(PlateShape(bottom, top).faces)
  {
    PrismMeshValid(bottom, top);
  }

  /** A copy of the polygon's points in a fresh array. */
  method CopyPoints(polygon: seq<Point>) returns (a: array<Point>)
    ensures fresh(a) && a[..] == polygon
  {
    a := new Point[|polygon|](i requires 0 <= i < |polygon| => polygon[i]);
  }

  /**
   * from_polygon_and_thickness: the bottom is the polygon moved by
   * 0 * thickness along its normal, the top the polygon moved by
   * 1 * thickness along it.
   */
  method FromPolygonAndThickness(k: Kernel, polygon: seq<Point>, thickness: real, name: Option<string>, shape: Option<Mesh>)
    returns (plate: PlateElement)
    ensures plate == NewPlate(Translated(polygon, Scale(k.normal(polygon), 0.0 * thickness)),
                              Translated(polygon, Scale(k.normal(polygon), 1.0 * thickness)), name, shape)
  {
    var normal := k.normal(polygon);
    var down := Scale(normal, 0.0 * thickness);
    var up := Scale(normal, 1.0 * thickness);
    var bottom := CopyPoints(polygon);
    TranslateInPlace(bottom, down);
    var top := CopyPoints(polygon);
    TranslateInPlace(top, up);
    plate := NewPlate(bottom[..], top[..], name, shape);
  }

  /**
   * The plate of from_polygon_and_thickness: its bottom is the polygon
   * itself, its top is the polygon moved by thickness along the normal,
   * point for point.
   */
  lemma PlateFromPolygon(normal: Vector, polygon: seq<Point>, thickness: real)
    ensures Translated(polygon, Scale(normal, 0.0 * thickness)) == polygon
    ensures var top := Translated(polygon, Scale(normal, 1.0 * thickness));
      |top| == |polygon| && forall i :: 0 <= i < |polygon| ==> Sub(top[i], polygon[i]) == Scale(normal, thickness)
  {
    var bottom := Translated(polygon, Scale(normal, 0.0 * thickness));
    forall i | 0 <= i < |polygon|
      ensures bottom[i] == polygon[i]
    {
    }
  }

  /** from_width_depth_thickness: a rectangle from the origin, then from_polygon_and_thickness. */
  method FromWidthDepthThickness(k: Kernel, width: real, depth: real, thickness: real, name: Option<string>, shape: Option<Mesh>)
    returns (plate: PlateElement)
    ensures var polygon := Rectangle(Origin, width, depth);
      plate == NewPlate(Translated(polygon, Scale(k.normal(polygon), 0.0 * thickness)),
                        Translated(polygon, Scale(k.normal(polygon), 1.0 * thickness)), name, shape)
  {
    var polygon := Rectangle(Origin, width, depth);
    plate := FromPolygonAndThickness(k, polygon, thickness, name, shape);
  }

  /**
   * A plate from width, depth and thickness with no shape given: its
   * bottom is the width-by-depth rectangle at the origin, its top the
   * same rectangle moved by thickness along the normal, and its shape a
   * closed box of six faces.
   */
  lemma WidthDepthPlate(normal: Vector, width: real, depth: real, thickness: real, name: Option<string>)
    ensures Translated(Rectangle(Origin, width, depth), Scale(normal, 0.0 * thickness)) == Rectangle(Origin, width, depth)
    ensures TwiceArea(Rectangle(Origin, width, depth)) == 2.0 * width * depth
    ensures var p := NewPlate(Rectangle(Origin, width, depth),
                              Translated(Rectangle(Origin, width, depth), Scale(normal, 1.0 * thickness)), name, None);
      |p.shape.vertices| == 8 && |p.shape.faces| == 6 && IndicesBelow(p.shape.faces, 8) && Paired(p.shape.faces)
  {
    var polygon := Rectangle(Origin, width, depth);
    var top := Translated(polygon, Scale(normal, 1.0 * thickness));
    PlateFromPolygon(normal, polygon, thickness);
    RectangleShape(Origin, width, depth);
    PlateShapeClosed(polygon, top);
  }

}
