/**
 * BeamElement (element_beam.py) and ColumnElement (element_column.py): a
 * section polygon extruded along an axis and cut by a bottom and a top
 * frame. The two classes share their code line for line; the column
 * always renames itself after its class.
 */
module SectionElements {
  import opened Base
  import opened MeshTopology
  import opened Prism
  import opened Sections

  /** The state __init__ leaves behind. */
  datatype SectionElement = SectionElement(
    name: Option<string>,
    axis: Line,
    section: seq<Point>,
    frame: Frame,
    frameTop: Frame,
    polygonBottom: seq<Point>,
    polygonTop: seq<Point>,
    shape: Mesh)

  /** `axis or Line([0, 0, 0], [0, 0, 1])` */
  const UnitAxis: Line := Line(Origin, Vector(0.0, 0.0, 1.0))

  /** `frame_top or Frame(frame.point + axis.vector, frame.xaxis, frame.yaxis)` */
  function TopFrame(frame: Frame, axis: Line, frameTop: Option<Frame>): (r: Frame)
    ensures frameTop.Some? ==> r == frameTop.value
    ensures frameTop.None? ==> r.point == Add(frame.point, LineVector(axis)) && r.xaxis == frame.xaxis && r.yaxis == frame.yaxis
  {
    if frameTop.Some? then frameTop.value else Frame(Add(frame.point, LineVector(axis)), frame.xaxis, frame.yaxis)
  }

  /** compute_top_and_bottom_polygons: the extrusion lines cut by the planes of the two frames. */
  function FramePolygons(k: Kernel, axis: Line, section: seq<Point>, frame: Frame, frameTop: Frame): Result<(seq<Point>, seq<Point>)>
  {
    CutPolygons(k, ExtrusionLines(section, LineVector(axis)), PlaneOfFrame(frame), PlaneOfFrame(frameTop))
  }

  /** What __init__ computes, or the exception it raises. */
  function Extrude(k: Kernel, axis: Option<Line>, section: seq<Point>, frame: Frame, frameTop: Option<Frame>, name: Option<string>): Result<SectionElement>
  {
    var ax := if axis.Some? then axis.value else UnitAxis;
    var top := TopFrame(frame, ax, frameTop);
    match FramePolygons(k, ax, section, frame, top)
    case Err(e) => Err(e)
    case Ok((bottom, upper)) => Ok(SectionElement(name, ax, section, frame, top, bottom, upper, PrismMesh(bottom, upper)))
  }

  method ComputeTopAndBottomPolygons(k: Kernel, axis: Line, section: seq<Point>, frame: Frame, frameTop: Frame)
    returns (r: Result<(seq<Point>, seq<Point>)>)
    ensures r == FramePolygons(k, axis, section, frame, frameTop)
  {
    r := IntersectLines(k, ExtrusionLines(section, LineVector(axis)), PlaneOfFrame(frame), PlaneOfFrame(frameTop));
  }

  /** BeamElement.__init__: polygons first, then the shape from them. */
  method NewBeamElement(k: Kernel, axis: Option<Line>, section: seq<Point>, frame: Frame, frameTop: Option<Frame>, name: Option<string>)
    returns (r: Result<SectionElement>)
    ensures r == Extrude(k, axis, section, frame, frameTop, name)
  {
    var ax := if axis.Some? then axis.value else UnitAxis;
    var top := TopFrame(frame, ax, frameTop);
    var polygons := ComputeTopAndBottomPolygons(k, ax, section, frame, top);
    if polygons.Err? {
      return Err(polygons.error);
    }
    var shape := ComputePrismMesh(polygons.value.0, polygons.value.1);
    r := Ok(SectionElement(name, ax, section, frame, top, polygons.value.0, polygons.value.1, shape));
  }

  /** ColumnElement.__init__: the same steps, then self.name = "ColumnElement". */
  method NewColumnElement(k: Kernel, axis: Option<Line>, section: seq<Point>, frame: Frame, frameTop: Option<Frame>, name: Option<string>)
    returns (r: Result<SectionElement>)
    ensures r == Extrude(k, axis, section, frame, frameTop, Some("ColumnElement"))
  {
    r := NewBeamElement(k, axis, section, frame, frameTop, name);
    if r.Ok? {
      r := Ok(r.value.(name := Some("ColumnElement")));
    }
  }

  /** The axis of the factories: from the origin straight up by height. */
  function UpAxis(height: real): Line
  {
    Line(Origin, Vector(0.0, 0.0, height))
  }

  /** BeamElement.from_square_section. */
  method BeamFromSquareSection(k: Kernel, width: real, depth: real, height: real, frame: Frame, frameTop: Option<Frame>, name: Option<string>)
    returns (r: Result<SectionElement>)
    ensures r == Extrude(k, Some(UpAxis(height)), SquareSection(width, depth), frame, frameTop, name)
  {
    var polygon := [Vector(width * 0.5, -depth * 0.5, 0.0), Vector(width * 0.5, depth * 0.5, 0.0),
                    Vector(-width * 0.5, depth * 0.5, 0.0), Vector(-width * 0.5, -depth * 0.5, 0.0)];
    r := NewBeamElement(k, Some(UpAxis(height)), polygon, frame, frameTop, name);
  }

  /** ColumnElement.from_square_section. */
  method ColumnFromSquareSection(k: Kernel, width: real, depth: real, height: real, frame: Frame, frameTop: Option<Frame>, name: Option<string>)
    returns (r: Result<SectionElement>)
    ensures r == Extrude(k, Some(UpAxis(height)), SquareSection(width, depth), frame, frameTop, Some("ColumnElement"))
  {
    r := NewColumnElement(k, Some(UpAxis(height)), SquareSection(width, depth), frame, frameTop, name);
  }

  /** ColumnElement.from_round_section: the polygon always has 24 sides, whatever `sides` says. */
  method ColumnFromRoundSection(k: Kernel, radius: real, sides: int, height: real, frame: Frame, frameTop: Option<Frame>, name: Option<string>)
    returns (r: Result<SectionElement>)
    ensures r == Extrude(k, Some(UpAxis(height)), k.regular(24, radius), frame, frameTop, Some("ColumnElement"))
  {
    var polygon := k.regular(24, radius);
    r := NewColumnElement(k, Some(UpAxis(height)), polygon, frame, frameTop, name);
  }

  /**
   * __init__ raises ValueError exactly when an extrusion line misses one of
   * the two frame planes; otherwise both polygons have one point per
   * section point, the default top frame is the bottom frame moved along
   * the axis, and the shape is a closed prism over the two polygons.
   */
  lemma ExtrudeShape(k: Kernel, axis: Option<Line>, section: seq<Point>, frame: Frame, frameTop: Option<Frame>, name: Option<string>)
    ensures var r := Extrude(k, axis, section, frame, frameTop, name);
      var ax := if axis.Some? then axis.value else UnitAxis;
      var lines := ExtrusionLines(section, LineVector(ax));
      var plane1 := PlaneOfFrame(TopFrame(frame, ax, frameTop));
      (r.Err? <==> exists i :: 0 <= i < |section| && Misses(k, lines[i], PlaneOfFrame(frame), plane1)) &&
      (r.Err? ==> r.error == ValueError) &&
      (r.Ok? ==>
         |r.value.polygonBottom| == |section| && |r.value.polygonTop| == |section| &&
         (frameTop.None? ==> r.value.frameTop.point == Add(frame.point, LineVector(r.value.axis))) &&
         |r.value.shape.faces| == |section| + 2 &&
         IndicesBelow(r.value.shape.faces, |r.value.shape.vertices|) &&
         Paired(r.value.shape.faces))
  {
    var r := Extrude(k, axis, section, frame, frameTop, name);
    if r.Ok? {
      PrismMeshValid(r.value.polygonBottom, r.value.polygonTop);
    }
  }

  /** The serialisable value of an attribute in __data__. */
  datatype DataValue = AxisData(line: Line) | SectionData(points: seq<Point>) | FrameData(frame: Frame)

  /** `data[key]` read as a line: KeyError when the key is absent, TypeError when it holds another kind of value. */
  function AxisAt(data: map<string, DataValue>, key: string): Result<Line>
  {
    if key !in data then Err(KeyError) else if data[key].AxisData? then Ok(data[key].line) else Err(TypeError)
  }

  /** `data[key]` read as a polygon. */
  function SectionAt(data: map<string, DataValue>, key: string): Result<seq<Point>>
  {
    if key !in data then Err(KeyError) else if data[key].SectionData? then Ok(data[key].points) else Err(TypeError)
  }

  /** `data[key]` read as a frame. */
  function FrameAt(data: map<string, DataValue>, key: string): Result<Frame>
  {
    if key !in data then Err(KeyError) else if data[key].FrameData? then Ok(data[key].frame) else Err(TypeError)
  }

  /**
   * BeamElement.__data__ as written: the inherited Element.__data__ stores
   * the element frame (the bottom frame) under "frame", and the beam adds
   * its own keys, storing the top frame under "frame_bottom" as well.
   */
  function BeamDataAsWritten(e: SectionElement): map<string, DataValue>
  {
    map["frame" := FrameData(e.frame), "axis" := AxisData(e.axis), "section" := SectionData(e.section),
        "frame_bottom" := FrameData(e.frameTop), "frame_top" := FrameData(e.frameTop)]
  }

  /** BeamElement.__data__ with the bottom frame under "frame_bottom". */
  function BeamData(e: SectionElement): map<string, DataValue>
  {
    map["frame" := FrameData(e.frame), "axis" := AxisData(e.axis), "section" := SectionData(e.section),
        "frame_bottom" := FrameData(e.frame), "frame_top" := FrameData(e.frameTop)]
  }

  /** The keyword arguments BeamElement.__from_data__ passes to the constructor. */
  datatype BeamArgs = BeamArgs(axis: Line, section: seq<Point>, frameBottom: Frame, frameTop: Frame)

  /**
   * BeamElement.__from_data__: the bottom frame comes from the inherited
   * "frame" key; "frame_bottom" is never read. A missing key raises
   * KeyError, read in argument order.
   */
  function BeamFromData(data: map<string, DataValue>): Result<BeamArgs>
  {
    match AxisAt(data, "axis")
    case Err(e) => Err(e)
    case Ok(axis) =>
      match SectionAt(data, "section")
      case Err(e) => Err(e)
      case Ok(section) =>
        match FrameAt(data, "frame")
        case Err(e) => Err(e)
        case Ok(bottom) =>
          match FrameAt(data, "frame_top")
          case Err(e) => Err(e)
          case Ok(top) => Ok(BeamArgs(axis, section, bottom, top))
  }

  /**
   * As written, "frame_bottom" holds the top frame, and so differs from the
   * bottom frame whenever the two frames differ.
   */
  lemma BeamDataMislabelsBottomFrame(e: SectionElement)
    ensures "frame_bottom" in BeamDataAsWritten(e) && BeamDataAsWritten(e)["frame_bottom"] == FrameData(e.frameTop)
    ensures e.frame != e.frameTop ==> BeamDataAsWritten(e)["frame_bottom"] != FrameData(e.frame)
  {
  }

  /**
   * Rebuilding a beam from its data gives back the same element: the
   * constructor sees the stored axis, section and both frames, and the
   * polygons it cuts are the ones the element holds. As written this holds
   * too, because __from_data__ reads the bottom frame from "frame".
   */
  lemma BeamDataRoundTrip(k: Kernel, axis: Option<Line>, section: seq<Point>, frame: Frame, frameTop: Option<Frame>,
                          name: Option<string>, e: SectionElement)
    requires Extrude(k, axis, section, frame, frameTop, name) == Ok(e)
    ensures BeamFromData(BeamData(e)) == Ok(BeamArgs(e.axis, e.section, e.frame, e.frameTop))
    ensures BeamFromData(BeamDataAsWritten(e)) == BeamFromData(BeamData(e))
    ensures Extrude(k, Some(e.axis), e.section, e.frame, Some(e.frameTop), name) == Ok(e)
  {
    var ax := if axis.Some? then axis.value else UnitAxis;
    assert e.axis == ax && e.section == section && e.frame == frame;
    assert e.frameTop == TopFrame(frame, ax, frameTop);
  }

  /** The corrected data determines the axis, the section and both frames. */
  lemma BeamDataKeepsFrames(e: SectionElement, f: SectionElement)
    requires BeamData(e) == BeamData(f)
    ensures e.axis == f.axis && e.section == f.section && e.frame == f.frame && e.frameTop == f.frameTop
  {
    assert BeamData(e)["axis"] == BeamData(f)["axis"];
    assert BeamData(e)["section"] == BeamData(f)["section"];
    assert BeamData(e)["frame_bottom"] == BeamData(f)["frame_bottom"];
    assert BeamData(e)["frame_top"] == BeamData(f)["frame_top"];
  }
}
