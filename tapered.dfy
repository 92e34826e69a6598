/**
 * BeamTaperedElement (element_beam_tapered.py): a beam between two
 * sections of equal point count, each cut by a frame's plane. The
 * element keeps its sections and shape in fields that
 * compute_top_and_bottom_polygons and recompute overwrite.
 */
module TaperedBeams {
  import opened Base
  import opened MeshTopology
  import opened Prism
  import opened Sections
  import SectionElements

  /** The fields __init__ fills, as one value. */
  datatype TaperedState = TaperedState(
    axis: Line, sectionBottom: seq<Point>, sectionTop: seq<Point>,
    frame: Frame, frameTop: Frame, shape: Mesh)

  /** Line(section_bottom.points[i], section_top.points[i]) for every i. */
  function SectionLines(bottom: seq<Point>, top: seq<Point>): (r: seq<Line>)
    requires |bottom| == |top|
    ensures |r| == |bottom|
    ensures forall i :: 0 <= i < |bottom| ==> r[i] == Line(bottom[i], top[i])
  {
    seq(|bottom|, i requires 0 <= i < |bottom| => Line(bottom[i], top[i]))
  }

  /** The plane a cut uses: the given frame's, or else the element's own. */
  function CutPlane(cut: Option<Frame>, own: Frame): Plane
  {
    PlaneOfFrame(if cut.Some? then cut.value else own)
  }

  /** What __init__ leaves in the fields, or the exception it raises. */
  function Tapered(k: Kernel, axis: Option<Line>, sectionBottom: seq<Point>, sectionTop: seq<Point>,
                   frameBottom: Frame, frameTop: Option<Frame>): Result<TaperedState>
  {
    if |sectionBottom| != |sectionTop| then Err(ValueError)
    else if axis.None? && |sectionBottom| == 0 then Err(IndexError)
    else
      var ax := if axis.Some? then axis.value else Line(sectionBottom[0], sectionTop[0]);
      var top := if frameTop.Some? then frameTop.value else Frame(Add(frameBottom.point, LineVector(ax)), frameBottom.xaxis, frameBottom.yaxis);
      match CutPolygons(k, SectionLines(sectionBottom, sectionTop), PlaneOfFrame(frameBottom), PlaneOfFrame(top))
      case Err(e) => Err(e)
      case Ok((b, t)) => Ok(TaperedState(ax, b, t, frameBottom, top, PrismMesh(b, t)))
  }

  /**
   * __init__ raises ValueError when the sections differ in length or an
   * edge line between them misses a frame plane, and IndexError when
   * there is no axis to take from empty sections; otherwise the cut
   * sections keep their common length and the shape is a closed prism
   * over them.
   */
  lemma TaperedOutcome(k: Kernel, axis: Option<Line>, sectionBottom: seq<Point>, sectionTop: seq<Point>,
                       frameBottom: Frame, frameTop: Option<Frame>)
    ensures var r := Tapered(k, axis, sectionBottom, sectionTop, frameBottom, frameTop);
      (|sectionBottom| != |sectionTop| ==> r == Err(ValueError)) &&
      (|sectionBottom| == |sectionTop| && axis.None? && |sectionBottom| == 0 ==> r == Err(IndexError)) &&
      (r.Err? ==> r.error == ValueError || r.error == IndexError) &&
      (r.Ok? ==> |sectionBottom| == |sectionTop| &&
                 |r.value.sectionBottom| == |sectionBottom| && |r.value.sectionTop| == |sectionBottom| &&
                 (axis.Some? ==> r.value.axis == axis.value) &&
                 (axis.None? ==> r.value.axis == Line(sectionBottom[0], sectionTop[0])) &&
                 |r.value.shape.faces| == |sectionBottom| + 2 &&
                 IndicesBelow(r.value.shape.faces, |r.value.shape.vertices|) &&
                 Paired(r.value.shape.faces))
  {
    var r := Tapered(k, axis, sectionBottom, sectionTop, frameBottom, frameTop);
    if r.Ok? {
      PrismMeshValid(r.value.sectionBottom, r.value.sectionTop);
    }
  }

  class BeamTaperedElement {
    var axis: Line
    var sectionBottom: seq<Point>
    var sectionTop: seq<Point>
    var frame: Frame
    var frameTop: Frame
    var shape: Mesh
    var name: string

    /** The two sections pair up point by point. */
    predicate Valid()
      reads this
    {
      |sectionBottom| == |sectionTop|
    }

    function State(): TaperedState
      reads this
    {
      TaperedState(axis, sectionBottom, sectionTop, frame, frameTop, shape)
    }

    constructor Init(s: TaperedState)
      ensures State() == s && name == "BeamTaperedElement"
    {
      axis := s.axis;
      sectionBottom := s.sectionBottom;
      sectionTop := s.sectionTop;
      frame := s.frame;
      frameTop := s.frameTop;
      shape := s.shape;
      name := "BeamTaperedElement";
    }

    /** BeamTaperedElement(...): the element, or the exception __init__ raises. */
    static method New(k: Kernel, axis: Option<Line>, sectionBottom: seq<Point>, sectionTop: seq<Point>,
                      frameBottom: Frame, frameTop: Option<Frame>) returns (r: Result<BeamTaperedElement>)
      ensures var t := Tapered(k, axis, sectionBottom, sectionTop, frameBottom, frameTop);
        (r.Ok? <==> t.Ok?) && (r.Err? ==> r.error == t.error) &&
        (r.Ok? ==> fresh(r.value) && r.value.Valid() && r.value.State() == t.value && r.value.name == "BeamTaperedElement")
    {
      if |sectionBottom| != |sectionTop| {
        return Err(ValueError);
      }
      if axis.None? && |sectionBottom| == 0 {
        return Err(IndexError);
      }
      var ax := if axis.Some? then axis.value else Line(sectionBottom[0], sectionTop[0]);
      var top := if frameTop.Some? then frameTop.value else Frame(Add(frameBottom.point, LineVector(ax)), frameBottom.xaxis, frameBottom.yaxis);
      var cut := IntersectLines(k, SectionLines(sectionBottom, sectionTop), PlaneOfFrame(frameBottom), PlaneOfFrame(top));
      if cut.Err? {
        return Err(cut.error);
      }
      var mesh := ComputePrismMesh(cut.value.0, cut.value.1);
      var e := new BeamTaperedElement.Init(TaperedState(ax, cut.value.0, cut.value.1, frameBottom, top, mesh));
      r := Ok(e);
    }

    /**
     * compute_top_and_bottom_polygons: the lines between the current
     * sections cut by the given frames' planes (or the element's own);
     * on success the fields take the cut sections, on a miss nothing
     * changes.
     */
    method ComputeTopAndBottomPolygons(k: Kernel, frameCut0: Option<Frame>, frameCut1: Option<Frame>)
      returns (r: Result<(seq<Point>, seq<Point>)>)
      requires Valid()
      modifies this
      ensures Valid()
      ensures r == CutPolygons(k, SectionLines(old(sectionBottom), old(sectionTop)),
                               CutPlane(frameCut0, frame), CutPlane(frameCut1, frameTop))
      ensures r.Ok? ==> sectionBottom == r.value.0 && sectionTop == r.value.1
      ensures r.Err? ==> sectionBottom == old(sectionBottom) && sectionTop == old(sectionTop)
      ensures axis == old(axis) && frame == old(frame) && frameTop == old(frameTop) && shape == old(shape) && name == old(name)
    {
      var plane0 := CutPlane(frameCut0, frame);
      var plane1 := CutPlane(frameCut1, frameTop);
      r := IntersectLines(k, SectionLines(sectionBottom, sectionTop), plane0, plane1);
      if r.Ok? {
        sectionBottom := r.value.0;
        sectionTop := r.value.1;
      }
    }

    /** compute_shape: the prism over the current sections. */
    method ComputeShape() returns (mesh: Mesh)
      requires Valid()
      ensures mesh == PrismMesh(sectionBottom, sectionTop)
      ensures IndicesBelow(mesh.faces, |mesh.vertices|) && Paired(mesh.faces)
    {
      mesh := ComputePrismMesh(sectionBottom, sectionTop);
      PrismMeshValid(sectionBottom, sectionTop);
    }

    /**
     * recompute: the sections cut again by the element's own frames, then
     * the shape rebuilt from them; a miss raises and leaves the element
     * as it was.
     */
    method Recompute(k: Kernel) returns (raised: Option<Error>)
      requires Valid()
      modifies this
      ensures Valid()
      ensures var c := CutPolygons(k, SectionLines(old(sectionBottom), old(sectionTop)), PlaneOfFrame(frame), PlaneOfFrame(frameTop));
        (raised.None? <==> c.Ok?) &&
        (c.Err? ==> raised == Some(c.error) && State() == old(State())) &&
        (c.Ok? ==> State() == old(State()).(sectionBottom := c.value.0, sectionTop := c.value.1, shape := PrismMesh(c.value.0, c.value.1)))
      ensures raised.None? ==> IndicesBelow(shape.faces, |shape.vertices|) && Paired(shape.faces)
      ensures name == old(name)
    {
      var cut := ComputeTopAndBottomPolygons(k, None, None);
      if cut.Err? {
        return Some(cut.error);
      }
      shape := ComputeShape();
      raised := None;
    }
  }

  /**
   * The two sections of from_cross_sections after the recentring shift
   * (0, -depth_0 / 2, 0): the bottom one width by depth_0 at z = 0, the
   * top one width by depth_1 at z = height, the top section offset by
   * (depth_1 - depth_0) / 2.
   */
  function CrossSections(width: real, depth0: real, depth1: real, height: real): (seq<Point>, seq<Point>)
  {
    var offset := (depth1 - depth0) * 0.5;
    var shift := Vector(-width * 0.0, depth0 * -0.5, 0.0);
    var polygon0 := [Vector(width * 0.5, -depth0 * 0.5, 0.0), Vector(width * 0.5, depth0 * 0.5, 0.0),
                     Vector(-width * 0.5, depth0 * 0.5, 0.0), Vector(-width * 0.5, -depth0 * 0.5, 0.0)];
    var polygon1 := [Vector(width * 0.5, -depth1 * 0.5 - offset, height), Vector(width * 0.5, depth1 * 0.5 - offset, height),
                     Vector(-width * 0.5, depth1 * 0.5 - offset, height), Vector(-width * 0.5, -depth1 * 0.5 - offset, height)];
    (Translated(polygon0, shift), Translated(polygon1, shift))
  }

  /**
   * Both sections end flush at y = 0 and reach back to -depth: the bottom
   * to -depth_0 in the plane z = 0, the top to -depth_1 in the plane
   * z = height, each as wide as the beam.
   */
  lemma CrossSectionsShape(width: real, depth0: real, depth1: real, height: real)
    ensures CrossSections(width, depth0, depth1, height).0 ==
      [Vector(width * 0.5, -depth0, 0.0), Vector(width * 0.5, 0.0, 0.0), Vector(-width * 0.5, 0.0, 0.0), Vector(-width * 0.5, -depth0, 0.0)]
    ensures CrossSections(width, depth0, depth1, height).1 ==
      [Vector(width * 0.5, -depth1, height), Vector(width * 0.5, 0.0, height), Vector(-width * 0.5, 0.0, height), Vector(-width * 0.5, -depth1, height)]
  {
  }

  /** Points copied into a fresh array. */
  method ToArray(ps: seq<Point>) returns (a: array<Point>)
    ensures fresh(a) && a[..] == ps
  {
    a := new Point[|ps|](i requires 0 <= i < |ps| => ps[i]);
  }

  /**
   * from_cross_sections: the two sections built and translated in place,
   * then the element on the axis from the origin up to height. The offset
   * argument is overwritten before use.
   */
  method FromCrossSections(k: Kernel, width: real, depth0: real, depth1: real, height: real, offset: real,
                           frameBottom: Frame, frameTop: Option<Frame>) returns (r: Result<BeamTaperedElement>)
    ensures var s := CrossSections(width, depth0, depth1, height);
      var t := Tapered(k, Some(Line(Origin, Vector(0.0, 0.0, height))), s.0, s.1, frameBottom, frameTop);
      (r.Ok? <==> t.Ok?) && (r.Err? ==> r.error == t.error) &&
      (r.Ok? ==> fresh(r.value) && r.value.State() == t.value)
  {
    var offset := (depth1 - depth0) * 0.5;
    var polygon0 := ToArray([Vector(width * 0.5, -depth0 * 0.5, 0.0), Vector(width * 0.5, depth0 * 0.5, 0.0),
                             Vector(-width * 0.5, depth0 * 0.5, 0.0), Vector(-width * 0.5, -depth0 * 0.5, 0.0)]);
    var polygon1 := ToArray([Vector(width * 0.5, -depth1 * 0.5 - offset, height), Vector(width * 0.5, depth1 * 0.5 - offset, height),
                             Vector(-width * 0.5, depth1 * 0.5 - offset, height), Vector(-width * 0.5, -depth1 * 0.5 - offset, height)]);
    ghost var (bottom, top) := (polygon0[..], polygon1[..]);
    TranslateInPlace(polygon1, Vector(-width * 0.0, depth0 * -0.5, 0.0));
    TranslateInPlace(polygon0, Vector(-width * 0.0, depth0 * -0.5, 0.0));
    CrossSectionsAre(width, depth0, depth1, height, bottom, top);
    var axis := Line(Origin, Vector(0.0, 0.0, height));
    r := BeamTaperedElement.New(k, Some(axis), polygon0[..], polygon1[..], frameBottom, frameTop);
  }

  lemma CrossSectionsAre(width: real, depth0: real, depth1: real, height: real, bottom: seq<Point>, top: seq<Point>)
    requires bottom == [Vector(width * 0.5, -depth0 * 0.5, 0.0), Vector(width * 0.5, depth0 * 0.5, 0.0),
                        Vector(-width * 0.5, depth0 * 0.5, 0.0), Vector(-width * 0.5, -depth0 * 0.5, 0.0)]
    requires top == [Vector(width * 0.5, -depth1 * 0.5 - (depth1 - depth0) * 0.5, height),
                     Vector(width * 0.5, depth1 * 0.5 - (depth1 - depth0) * 0.5, height),
                     Vector(-width * 0.5, depth1 * 0.5 - (depth1 - depth0) * 0.5, height),
                     Vector(-width * 0.5, -depth1 * 0.5 - (depth1 - depth0) * 0.5, height)]
    ensures CrossSections(width, depth0, depth1, height)
         == (Translated(bottom, Vector(-width * 0.0, depth0 * -0.5, 0.0)), Translated(top, Vector(-width * 0.0, depth0 * -0.5, 0.0)))
  {
  }
  /**
   * BeamTaperedElement.__data__ as written: the inherited "frame" key holds
   * the bottom frame, and "frame_bottom" holds the top frame.
   */
  function TaperedDataAsWritten(s: TaperedState): map<string, SectionElements.DataValue>
  {
    map["frame" := SectionElements.FrameData(s.frame), "axis" := SectionElements.AxisData(s.axis),
        "section_bottom" := SectionElements.SectionData(s.sectionBottom), "section_top" := SectionElements.SectionData(s.sectionTop),
        "frame_bottom" := SectionElements.FrameData(s.frameTop), "frame_top" := SectionElements.FrameData(s.frameTop)]
  }

  /** BeamTaperedElement.__data__ with the bottom frame under "frame_bottom". */
  function TaperedData(s: TaperedState): map<string, SectionElements.DataValue>
  {
    TaperedDataAsWritten(s)["frame_bottom" := SectionElements.FrameData(s.frame)]
  }

  /** The keyword arguments BeamTaperedElement.__from_data__ passes to the constructor. */
  datatype TaperedArgs = TaperedArgs(axis: Line, sectionBottom: seq<Point>, sectionTop: seq<Point>, frameBottom: Frame, frameTop: Frame)

  /** BeamTaperedElement.__from_data__: like the beam's, the bottom frame comes from "frame". */
  function TaperedFromData(data: map<string, SectionElements.DataValue>): Result<TaperedArgs>
  {
    match SectionElements.AxisAt(data, "axis")
    case Err(e) => Err(e)
    case Ok(axis) =>
      match SectionElements.SectionAt(data, "section_bottom")
      case Err(e) => Err(e)
      case Ok(bottom) =>
        match SectionElements.SectionAt(data, "section_top")
        case Err(e) => Err(e)
        case Ok(top) =>
          match SectionElements.FrameAt(data, "frame")
          case Err(e) => Err(e)
          case Ok(frameBottom) =>
            match SectionElements.FrameAt(data, "frame_top")
            case Err(e) => Err(e)
            case Ok(frameTop) => Ok(TaperedArgs(axis, bottom, top, frameBottom, frameTop))
  }

  /** As written, "frame_bottom" holds the top frame, not the bottom one. */
  lemma TaperedDataMislabelsBottomFrame(s: TaperedState)
    ensures "frame_bottom" in TaperedDataAsWritten(s) && TaperedDataAsWritten(s)["frame_bottom"] == SectionElements.FrameData(s.frameTop)
    ensures s.frame != s.frameTop ==> TaperedDataAsWritten(s)["frame_bottom"] != SectionElements.FrameData(s.frame)
  {
  }

  /**
   * With the correction "frame_bottom" holds the bottom frame, and the data
   * read back, corrected or as written, hands the constructor the axis,
   * both sections and both frames the element holds.
   */
  lemma TaperedDataRoundTrip(s: TaperedState)
    ensures TaperedData(s)["frame_bottom"] == SectionElements.FrameData(s.frame)
    ensures TaperedFromData(TaperedData(s)) == Ok(TaperedArgs(s.axis, s.sectionBottom, s.sectionTop, s.frame, s.frameTop))
    ensures TaperedFromData(TaperedDataAsWritten(s)) == TaperedFromData(TaperedData(s))
  {
  }
}
