/**
 * The model-building half of the crea script (crea_json_to_cell_network.py):
 * one column head and one column per column edge of the cell network, one
 * beam per beam edge, one plate per floor face, and a CutterInterface from a
 * column head to every column, beam or plate that meets the head's vertex.
 * The script's three dictionaries and its model are the state of a
 * CreaScript object.
 */
module CreaModel {
  import opened Base
  import opened CellNetworkModel
  import opened ModelGraph
  import opened MeshTopology

  /** width, depth, height, column_head_offset */
  const Width: real := 150.0
  const Depth: real := 150.0
  const Height: real := 300.0
  const HeadOffset: real := 210.0

  predicate EdgesIn(edges: seq<NodePair>, n: int)
  {
    forall i :: 0 <= i < |edges| ==> 0 <= edges[i].0 < n && 0 <= edges[i].1 < n
  }

  /** The end of a column edge that carries its head: edge[1], unless edge[0] lies strictly higher. */
  function HeadVertex(xyz: seq<Point>, e: NodePair): (v: int)
    requires 0 <= e.0 < |xyz| && 0 <= e.1 < |xyz|
    ensures v == e.0 || v == e.1
    ensures xyz[v].z >= xyz[e.0].z && xyz[v].z >= xyz[e.1].z
    ensures xyz[e.0].z == xyz[e.1].z ==> v == e.1
  {
    if xyz[e.0].z > xyz[e.1].z then e.0 else e.1
  }

  /** The other end: where the column's axis starts. */
  function BaseVertex(xyz: seq<Point>, e: NodePair): (v: int)
    requires 0 <= e.0 < |xyz| && 0 <= e.1 < |xyz|
    ensures (v == e.0 && HeadVertex(xyz, e) == e.1) || (v == e.1 && HeadVertex(xyz, e) == e.0)
    ensures xyz[v].z <= xyz[HeadVertex(xyz, e)].z
  {
    if xyz[e.0].z > xyz[e.1].z then e.1 else e.0
  }

  // ---------------------------------------------------------------------
  // The column-head mesh of add_column_head
  // ---------------------------------------------------------------------

  /** polygon0, an octagon a head height below, then polygon1, the square at the head. */
  function HeadPoints(): seq<Point>
  {
    [ Add(Vector(-Width, -Depth, -Height), Vector(0.0, -HeadOffset, 0.0)),
      Add(Vector(Width, -Depth, -Height), Vector(0.0, -HeadOffset, 0.0)),
      Add(Vector(Width, -Depth, -Height), Vector(HeadOffset, 0.0, 0.0)),
      Add(Vector(Width, Depth, -Height), Vector(HeadOffset, 0.0, 0.0)),
      Add(Vector(Width, Depth, -Height), Vector(0.0, HeadOffset, 0.0)),
      Add(Vector(-Width, Depth, -Height), Vector(0.0, HeadOffset, 0.0)),
      Add(Vector(-Width, Depth, -Height), Vector(-HeadOffset, 0.0, 0.0)),
      Add(Vector(-Width, -Depth, -Height), Vector(-HeadOffset, 0.0, 0.0)),
      Vector(-Width, -Depth, 0.0), Vector(Width, -Depth, 0.0), Vector(Width, Depth, 0.0), Vector(-Width, Depth, 0.0) ]
  }

  /** Side i: the quad from octagon edge 2i to square edge i ... */
  function SideQuad(i: int): Face
  {
    [i * 2, (i * 2 + 1) % 8, 8 + (i + 1) % 4, 8 + i]
  }

  /** ... and the triangle closing octagon edge 2i + 1 against square corner i + 1. */
  function SideTriangle(i: int): Face
  {
    [(i * 2 + 1) % 8, (i * 2 + 2) % 8, 8 + (i + 1) % 4]
  }

  /** The faces the loop over range(n) appends. */
  function SideFaces(n: nat): (fs: seq<Face>)
    requires n <= 4
    ensures |fs| == 2 * n
    ensures forall k :: 0 <= k < n ==> fs[2 * k] == SideQuad(k) && fs[2 * k + 1] == SideTriangle(k)
    ensures IndicesBelow(fs, 12)
  {
    if n == 0 then [] else SideFaces(n - 1) + [SideQuad(n - 1), SideTriangle(n - 1)]
  }

  /** The octagon, the square reversed, then the four sides. */
  function HeadFaces(): seq<Face>
  {
    [Range(0, 8), Reverse(Range(8, 12))] + SideFaces(4)
  }

  /**
   * The mesh has 12 vertices and 10 faces, every index below 12: an
   * octagon, the reversed square, and four quads each followed by a
   * triangle.
   */
  lemma HeadMeshShape()
    ensures |HeadPoints()| == 12 && |HeadFaces()| == 10
    ensures IndicesBelow(HeadFaces(), 12)
    ensures HeadFaces()[0] == [0, 1, 2, 3, 4, 5, 6, 7] && HeadFaces()[1] == [11, 10, 9, 8]
    ensures forall k :: 0 <= k < 4 ==> |HeadFaces()[2 + 2 * k]| == 4 && |HeadFaces()[3 + 2 * k]| == 3
  {
    var caps := [Range(0, 8), Reverse(Range(8, 12))];
    var sides := SideFaces(4);
    assert HeadFaces() == caps + sides;
    CapFaces();
    IndicesBelowAppend(caps, sides, 12, 12, 12);
    forall k | 0 <= k < 4
      ensures |HeadFaces()[2 + 2 * k]| == 4 && |HeadFaces()[3 + 2 * k]| == 3
    {
      assert HeadFaces()[2 + 2 * k] == sides[2 * k] && HeadFaces()[3 + 2 * k] == sides[2 * k + 1];
    }
  }

  /** The octagon and the reversed square, as index lists below 12. */
  lemma CapFaces()
    ensures Range(0, 8) == [0, 1, 2, 3, 4, 5, 6, 7] && Reverse(Range(8, 12)) == [11, 10, 9, 8]
    ensures IndicesBelow([Range(0, 8), Reverse(Range(8, 12))], 12)
  {
    assert Range(0, 8) == [0, 1, 2, 3, 4, 5, 6, 7];
    assert Reverse(Range(8, 12)) == [11, 10, 9, 8];
  }

  /** add_column_head's mesh construction: v and f filled by extend and append. */
  method BuildHeadMesh() returns (v: seq<Point>, f: seq<Face>)
    ensures v == HeadPoints() && f == HeadFaces()
  {
    var polygon0 := HeadPoints()[..8];
    var polygon1 := HeadPoints()[8..];
    v := [];
    f := [];
    v := v + polygon0;
    v := v + polygon1;
    Rejoin(HeadPoints(), 8);
    f := f + [[0, 1, 2, 3, 4, 5, 6, 7]];
    f := f + [[3 + 8, 2 + 8, 1 + 8, 0 + 8]];
    CapFaces();
    ghost var caps := [Range(0, 8), Reverse(Range(8, 12))];
    assert f == caps + SideFaces(0);
    for i := 0 to 4
      invariant f == caps + SideFaces(i)
    {
      ghost var before := f;
      f := f + [[i * 2, (i * 2 + 1) % 8, 8 + (i + 1) % 4, 8 + i]];
      f := f + [[(i * 2 + 1) % 8, (i * 2 + 2) % 8, 8 + (i + 1) % 4]];
      SidesGrow(caps, before, f, i);
    }
  }

  /** A sequence cut at k and joined again. */
  lemma Rejoin<T>(s: seq<T>, k: nat)
    requires k <= |s|
    ensures [] + s[..k] + s[k..] == s
  {
  }

  /** One pass of the side loop appends side i's quad and triangle. */
  lemma SidesGrow(caps: seq<Face>, before: seq<Face>, after: seq<Face>, i: nat)
    requires i < 4 && before == caps + SideFaces(i)
    requires after == before + [[i * 2, (i * 2 + 1) % 8, 8 + (i + 1) % 4, 8 + i]] + [[(i * 2 + 1) % 8, (i * 2 + 2) % 8, 8 + (i + 1) % 4]]
    ensures after == caps + SideFaces(i + 1)
  {
    assert SideFaces(i + 1) == SideFaces(i) + [SideQuad(i), SideTriangle(i)];
  }

  // ---------------------------------------------------------------------
  // Elements and the dictionaries that find them
  // ---------------------------------------------------------------------

  /** The elements the script creates, with what identifies each in the network. */
  datatype CreaElement =
    /** ColumnHeadElement.from_mesh, framed at the head vertex's point */
    | ColumnHead(vertex: int, origin: Point, points: seq<Point>, faces: seq<Face>)
    /** ColumnElement.from_square_section, framed at the lower end of the axis */
    | Column(edge: NodePair, start: Point)
    /** BeamElement.from_square_section, framed at the start of the edge line */
    | Beam(edge: NodePair, start: Point)
    /** PlateElement.from_polygon_and_thickness, framed at the face centroid */
    | Plate(face: nat)

  function HeadElement(xyz: seq<Point>, e: NodePair): CreaElement
    requires 0 <= e.0 < |xyz| && 0 <= e.1 < |xyz|
  {
    var v := HeadVertex(xyz, e);
    ColumnHead(v, xyz[v], HeadPoints(), HeadFaces())
  }

  function ColumnElement(xyz: seq<Point>, e: NodePair): CreaElement
    requires 0 <= e.0 < |xyz| && 0 <= e.1 < |xyz|
  {
    Column(e, xyz[BaseVertex(xyz, e)])
  }

  function BeamElement(xyz: seq<Point>, e: NodePair): CreaElement
    requires 0 <= e.0 < |xyz| && 0 <= e.1 < |xyz|
  {
    Beam(e, xyz[e.0])
  }

  function Heads(xyz: seq<Point>, cols: seq<NodePair>): (es: seq<CreaElement>)
    requires EdgesIn(cols, |xyz|)
  {
    seq(|cols|, k requires 0 <= k < |cols| => HeadElement(xyz, cols[k]))
  }

  function Columns(xyz: seq<Point>, cols: seq<NodePair>): (es: seq<CreaElement>)
    requires EdgesIn(cols, |xyz|)
  {
    seq(|cols|, k requires 0 <= k < |cols| => ColumnElement(xyz, cols[k]))
  }

  function Beams(xyz: seq<Point>, beams: seq<NodePair>): (es: seq<CreaElement>)
    requires EdgesIn(beams, |xyz|)
  {
    seq(|beams|, k requires 0 <= k < |beams| => BeamElement(xyz, beams[k]))
  }

  function HeadVertices(xyz: seq<Point>, cols: seq<NodePair>): (vs: seq<int>)
    requires EdgesIn(cols, |xyz|)
    ensures |vs| == |cols|
    ensures forall k :: 0 <= k < |cols| ==> vs[k] == HeadVertex(xyz, cols[k])
  {
    seq(|cols|, k requires 0 <= k < |cols| => HeadVertex(xyz, cols[k]))
  }

  /** A dictionary filled by `d[keys[k]] = base + k` for k in order. */
  function IndexMap<K>(keys: seq<K>, base: nat): map<K, nat>
  {
    if keys == [] then map[]
    else IndexMap(keys[..|keys| - 1], base)[keys[|keys| - 1] := base + |keys| - 1]
  }

  /**
   * The dictionary holds exactly the keys, each mapped to the element made
   * for its last occurrence.
   */
  lemma {:induction false} IndexMapHolds<K>(keys: seq<K>, base: nat)
    ensures forall x :: x in IndexMap(keys, base) <==> x in keys
    ensures forall x :: x in IndexMap(keys, base) ==>
      var m := IndexMap(keys, base);
      base <= m[x] < base + |keys| && keys[m[x] - base] == x
      && forall j :: m[x] - base < j < |keys| ==> keys[j] != x
  {
    if keys != [] {
      var init := keys[..|keys| - 1];
      IndexMapHolds(init, base);
      assert keys == init + [keys[|keys| - 1]];
    }
  }

  lemma IndexMapHasKeys<K>(keys: seq<K>, base: nat)
    ensures forall i :: 0 <= i < |keys| ==> keys[i] in IndexMap(keys, base)
  {
    IndexMapHolds(keys, base);
  }

  // ---------------------------------------------------------------------
  // The interactions each helper adds
  // ---------------------------------------------------------------------

  /** The interaction starts at the head element registered for an end of edge e. */
  predicate FromHeadAt(headOf: map<int, nat>, e: NodePair, r: Interaction)
  {
    (e.0 in headOf && r.source == headOf[e.0]) || (e.1 in headOf && r.source == headOf[e.1])
  }

  const ColumnName: string := "column_head_column_to_column"
  const BeamName: string := "column_head_and_beam"
  const PlateName: string := "column_head_and_plate"

  /**
   * add_interaction_column_and_column_head(edge): the head at the column's
   * upper end cuts it with its lowest face, the head at its lower end with
   * its highest face. Looking up the column raises KeyError when the edge
   * has none, before anything is added.
   */
  function ColumnInteractions(xyz: seq<Point>, headOf: map<int, nat>, columnOf: map<NodePair, nat>, e: NodePair)
    : (r: Result<seq<Interaction>>)
    requires 0 <= e.0 < |xyz| && 0 <= e.1 < |xyz|
    ensures r.Err? <==> (HeadVertex(xyz, e) in headOf || BaseVertex(xyz, e) in headOf) && e !in columnOf
    ensures r.Err? ==> r.error == KeyError
    ensures r.Ok? ==>
      |r.value| == (if HeadVertex(xyz, e) in headOf then 1 else 0) + (if BaseVertex(xyz, e) in headOf then 1 else 0)
      && forall i :: 0 <= i < |r.value| ==>
           e in columnOf && r.value[i].target == columnOf[e] && FromHeadAt(headOf, e, r.value[i])
    ensures r.Ok? && HeadVertex(xyz, e) in headOf ==>
      r.value[0] == Interaction(headOf[HeadVertex(xyz, e)], columnOf[e], CutterInterface(FaceLowest, ColumnName))
    ensures r.Ok? && BaseVertex(xyz, e) in headOf ==>
      r.value[|r.value| - 1] == Interaction(headOf[BaseVertex(xyz, e)], columnOf[e], CutterInterface(FaceHighest, ColumnName))
  {
    var top := HeadVertex(xyz, e);
    var bottom := BaseVertex(xyz, e);
    if (top in headOf || bottom in headOf) && e !in columnOf then Err(KeyError)
    else
      Ok((if top in headOf then [Interaction(headOf[top], columnOf[e], CutterInterface(FaceLowest, ColumnName))] else [])
         + (if bottom in headOf then [Interaction(headOf[bottom], columnOf[e], CutterInterface(FaceHighest, ColumnName))] else []))
  }

  /**
   * add_interaction_beam_and_column_head(edge): looking up the beam raises
   * KeyError when the edge has none; otherwise each end of the edge that
   * carries a head cuts the beam, edge[0] first.
   */
  function BeamInteractions(headOf: map<int, nat>, beamOf: map<NodePair, nat>, e: NodePair): (r: Result<seq<Interaction>>)
    ensures r.Err? <==> e !in beamOf
    ensures r.Err? ==> r.error == KeyError
    ensures r.Ok? ==>
      |r.value| == (if e.0 in headOf then 1 else 0) + (if e.1 in headOf then 1 else 0)
      && forall i :: 0 <= i < |r.value| ==>
           r.value[i].target == beamOf[e] && FromHeadAt(headOf, e, r.value[i])
           && r.value[i].kind == CutterInterface(FaceNearest(beamOf[e]), BeamName)
  {
    if e !in beamOf then Err(KeyError)
    else
      var beam := beamOf[e];
      Ok((if e.0 in headOf then [Interaction(headOf[e.0], beam, CutterInterface(FaceNearest(beam), BeamName))] else [])
         + (if e.1 in headOf then [Interaction(headOf[e.1], beam, CutterInterface(FaceNearest(beam), BeamName))] else []))
  }

  /** The interactions add_floor adds after the plate, in face order. */
  function FloorInteractions(headOf: map<int, nat>, plate: nat, vs: seq<int>): seq<Interaction>
  {
    if vs == [] then []
    else
      var v := vs[|vs| - 1];
      FloorInteractions(headOf, plate, vs[..|vs| - 1])
      + (if v in headOf then [Interaction(headOf[v], plate, CutterInterface(FaceNearest(plate), PlateName))] else [])
  }

  /**
   * add_floor adds one interaction from the head of every face vertex that
   * has one, and no other: each cuts the plate with the head face nearest
   * to it.
   */
  lemma {:induction false} FloorInteractionsCover(headOf: map<int, nat>, plate: nat, vs: seq<int>)
    ensures |FloorInteractions(headOf, plate, vs)| <= |vs|
    ensures forall r :: r in FloorInteractions(headOf, plate, vs) ==>
      r.target == plate && r.kind == CutterInterface(FaceNearest(plate), PlateName)
      && exists v :: v in vs && v in headOf && r.source == headOf[v]
    ensures forall v :: v in vs && v in headOf ==>
      Interaction(headOf[v], plate, CutterInterface(FaceNearest(plate), PlateName)) in FloorInteractions(headOf, plate, vs)
  {
    if vs != [] {
      var init := vs[..|vs| - 1];
      var last := vs[|vs| - 1];
      FloorInteractionsCover(headOf, plate, init);
      assert last in vs;
      assert forall u :: u in init ==> u in vs;
      assert vs == init + [last];
    }
  }

  lemma EmptyUnion<K, V>(m: map<K, V>)
    ensures map[] + m == m
  {
  }

  function AllColumnInteractions(xyz: seq<Point>, headOf: map<int, nat>, columnOf: map<NodePair, nat>, cols: seq<NodePair>)
    : Result<seq<Interaction>>
    requires EdgesIn(cols, |xyz|)
  {
    if cols == [] then Ok([])
    else Then(AllColumnInteractions(xyz, headOf, columnOf, cols[..|cols| - 1]),
              ColumnInteractions(xyz, headOf, columnOf, cols[|cols| - 1]))
  }

  function AllBeamInteractions(headOf: map<int, nat>, beamOf: map<NodePair, nat>, beams: seq<NodePair>)
    : Result<seq<Interaction>>
  {
    if beams == [] then Ok([])
    else Then(AllBeamInteractions(headOf, beamOf, beams[..|beams| - 1]), BeamInteractions(headOf, beamOf, beams[|beams| - 1]))
  }

  predicate FacesIn(floors: seq<nat>, faces: seq<seq<int>>)
  {
    forall j :: 0 <= j < |floors| ==> floors[j] < |faces|
  }

  /** Plate first + j is the plate of floors[j]. */
  function AllFloorInteractions(headOf: map<int, nat>, faces: seq<seq<int>>, floors: seq<nat>, first: nat): seq<Interaction>
    requires FacesIn(floors, faces)
  {
    if floors == [] then []
    else
      var n := |floors| - 1;
      AllFloorInteractions(headOf, faces, floors[..n], first) + FloorInteractions(headOf, first + n, faces[floors[n]])
  }

  function Plates(floors: seq<nat>): (es: seq<CreaElement>)
  {
    seq(|floors|, k requires 0 <= k < |floors| => Plate(floors[k]))
  }

  /** Everything the script adds to the model, in order. */
  function CreaElements(xyz: seq<Point>, cols: seq<NodePair>, beams: seq<NodePair>, floors: seq<nat>): seq<CreaElement>
    requires EdgesIn(cols, |xyz|) && EdgesIn(beams, |xyz|)
  {
    Heads(xyz, cols) + Columns(xyz, cols) + Beams(xyz, beams) + Plates(floors)
  }

  /** The dictionaries the script ends with. */
  function HeadMap(xyz: seq<Point>, cols: seq<NodePair>): map<int, nat>
    requires EdgesIn(cols, |xyz|)
  {
    IndexMap(HeadVertices(xyz, cols), 0)
  }

  /** Every interaction the script adds, in order, or the KeyError it would raise. */
  function CreaInteractions(xyz: seq<Point>, faces: seq<seq<int>>, cols: seq<NodePair>, beams: seq<NodePair>, floors: seq<nat>)
    : Result<seq<Interaction>>
    requires EdgesIn(cols, |xyz|) && EdgesIn(beams, |xyz|) && FacesIn(floors, faces)
  {
    var headOf := HeadMap(xyz, cols);
    Then(Then(AllColumnInteractions(xyz, headOf, IndexMap(cols, |cols|), cols),
              AllBeamInteractions(headOf, IndexMap(beams, 2 * |cols|), beams)),
         Ok(AllFloorInteractions(headOf, faces, floors, 2 * |cols| + |beams|)))
  }

  /**
   * The script as written. Its ColumnHeadElement comes from
   * src/compas_grid/element_column_head.py, whose class has from_box but no
   * from_mesh, so the first add_column_head raises AttributeError. With no
   * column edge the head and column loops never run, and the script ends
   * with the other elements and no interaction, since there is no head to
   * add one from.
   */
  function ScriptAsWritten(xyz: seq<Point>, faces: seq<seq<int>>, cols: seq<NodePair>, beams: seq<NodePair>, floors: seq<nat>)
    : Result<(seq<CreaElement>, seq<Interaction>)>
    requires EdgesIn(cols, |xyz|) && EdgesIn(beams, |xyz|) && FacesIn(floors, faces)
  {
    if cols != [] then Err(AttributeError)
    else
      match CreaInteractions(xyz, faces, cols, beams, floors)
      case Err(x) => Err(x)
      case Ok(interactions) => Ok((CreaElements(xyz, cols, beams, floors), interactions))
  }

  /**
   * The script as written raises AttributeError exactly when the network
   * has a column edge; otherwise it gives the beams and plates the
   * corrected script gives, and no interaction at all.
   */
  lemma ScriptAsWrittenRaises(xyz: seq<Point>, faces: seq<seq<int>>, cols: seq<NodePair>, beams: seq<NodePair>, floors: seq<nat>)
    requires EdgesIn(cols, |xyz|) && EdgesIn(beams, |xyz|) && FacesIn(floors, faces)
    ensures var r := ScriptAsWritten(xyz, faces, cols, beams, floors);
      (r.Err? <==> cols != []) && (r.Err? ==> r.error == AttributeError)
      && (r.Ok? ==> r.value == (Beams(xyz, beams) + Plates(floors), []) && CreaInteractions(xyz, faces, cols, beams, floors) == Ok([]))
  {
    if cols == [] {
      IndexMapHasKeys(beams, 0);
      NoHeadBeams(IndexMap(beams, 0), beams);
      NoHeadFloors(faces, floors, |beams|);
      assert HeadMap(xyz, cols) == map[] && Heads(xyz, cols) == [] && Columns(xyz, cols) == [];
      var none: seq<Interaction> := [];
      assert none + none + none == none;
      assert CreaInteractions(xyz, faces, cols, beams, floors) == Ok(none);
      assert CreaElements(xyz, cols, beams, floors) == [] + [] + Beams(xyz, beams) + Plates(floors);
      assert [] + [] + Beams(xyz, beams) + Plates(floors) == Beams(xyz, beams) + Plates(floors);
    }
  }

  /** Without heads, the beam loop adds nothing and finds every beam. */
  lemma {:induction false} NoHeadBeams(beamOf: map<NodePair, nat>, beams: seq<NodePair>)
    requires forall i :: 0 <= i < |beams| ==> beams[i] in beamOf
    ensures AllBeamInteractions(map[], beamOf, beams) == Ok([])
  {
    if beams != [] {
      var init := beams[..|beams| - 1];
      assert forall i :: 0 <= i < |init| ==> init[i] == beams[i];
      NoHeadBeams(beamOf, init);
    }
  }

  /** Without heads, the floor loop adds nothing. */
  lemma {:induction false} NoHeadFloors(faces: seq<seq<int>>, floors: seq<nat>, first: nat)
    requires FacesIn(floors, faces)
    ensures AllFloorInteractions(map[], faces, floors, first) == []
  {
    if floors != [] {
      var n := |floors| - 1;
      NoHeadFloors(faces, floors[..n], first);
      NoHeadCorners(first + n, faces[floors[n]]);
    }
  }

  /** Without heads, add_floor adds no interaction. */
  lemma {:induction false} NoHeadCorners(plate: nat, vs: seq<int>)
    ensures FloorInteractions(map[], plate, vs) == []
  {
    if vs != [] {
      NoHeadCorners(plate, vs[..|vs| - 1]);
    }
  }

  const ColumnsGroup: string := "columns"
  const HeadsGroup: string := "column_heads"
  const BeamsGroup: string := "beams"
  const FloorsGroup: string := "floors"

  /**
   * The script's model and its three dictionaries: column head by vertex,
   * column by edge and beam by edge, each holding element numbers.
   */
  class CreaScript {
    var model: Model<CreaElement>
    var headOf: map<int, nat>
    var columnOf: map<NodePair, nat>
    var beamOf: map<NodePair, nat>

    /** The dictionaries point at elements of the model. */
    ghost predicate Valid()
      reads this, model
    {
      model.Valid()
      && (forall v :: v in headOf ==> headOf[v] < |model.elements|)
      && (forall e :: e in columnOf ==> columnOf[e] < |model.elements|)
      && (forall e :: e in beamOf ==> beamOf[e] < |model.elements|)
    }

    /** model = Model() and its four groups, with empty dictionaries. */
    constructor ()
      ensures Valid() && fresh(model)
      ensures model.elements == [] && model.parents == [] && model.interactions == []
      ensures model.groups == [ColumnsGroup, HeadsGroup, BeamsGroup, FloorsGroup]
      ensures headOf == map[] && columnOf == map[] && beamOf == map[]
    {
      var m := new Model<CreaElement>();
      var g := m.AddGroup(ColumnsGroup);
      g := m.AddGroup(HeadsGroup);
      g := m.AddGroup(BeamsGroup);
      g := m.AddGroup(FloorsGroup);
      model := m;
      headOf, columnOf, beamOf := map[], map[], map[];
    }

    /** add_column_head(edge): the head element, registered under the column's upper end. */
    method AddColumnHead(xyz: seq<Point>, e: NodePair)
      requires Valid() && 0 <= e.0 < |xyz| && 0 <= e.1 < |xyz|
      modifies this, model
      ensures model == old(model) && Valid()
      ensures model.elements == old(model.elements) + [HeadElement(xyz, e)]
      ensures model.parents == old(model.parents) + [Some(HeadsGroup)]
      ensures headOf == old(headOf)[HeadVertex(xyz, e) := |old(model.elements)|]
      ensures columnOf == old(columnOf) && beamOf == old(beamOf)
      ensures model.groups == old(model.groups) && model.interactions == old(model.interactions)
    {
      var vertex := HeadVertex(xyz, e);
      var v, f := BuildHeadMesh();
      var id := model.AddElement(ColumnHead(vertex, xyz[vertex], v, f), Some(HeadsGroup));
      headOf := headOf[vertex := id];
    }

    /** add_column(edge): the column element, registered under its edge. */
    method AddColumn(xyz: seq<Point>, e: NodePair)
      requires Valid() && 0 <= e.0 < |xyz| && 0 <= e.1 < |xyz|
      modifies this, model
      ensures model == old(model) && Valid()
      ensures model.elements == old(model.elements) + [ColumnElement(xyz, e)]
      ensures model.parents == old(model.parents) + [Some(ColumnsGroup)]
      ensures columnOf == old(columnOf)[e := |old(model.elements)|]
      ensures headOf == old(headOf) && beamOf == old(beamOf)
      ensures model.groups == old(model.groups) && model.interactions == old(model.interactions)
    {
      var start := if xyz[e.0].z > xyz[e.1].z then xyz[e.1] else xyz[e.0];
      var id := model.AddElement(Column(e, start), Some(ColumnsGroup));
      columnOf := columnOf[e := id];
    }

    /** add_beam(edge): the beam element, put under the columns group, registered under its edge. */
    method AddBeam(xyz: seq<Point>, e: NodePair)
      requires Valid() && 0 <= e.0 < |xyz| && 0 <= e.1 < |xyz|
      modifies this, model
      ensures model == old(model) && Valid()
      ensures model.elements == old(model.elements) + [BeamElement(xyz, e)]
      ensures model.parents == old(model.parents) + [Some(ColumnsGroup)]
      ensures beamOf == old(beamOf)[e := |old(model.elements)|]
      ensures headOf == old(headOf) && columnOf == old(columnOf)
      ensures model.groups == old(model.groups) && model.interactions == old(model.interactions)
    {
      var id := model.AddElement(Beam(e, xyz[e.0]), Some(ColumnsGroup));
      beamOf := beamOf[e := id];
    }

    /** add_interaction_column_and_column_head(edge) */
    method AddColumnInteractions(xyz: seq<Point>, e: NodePair) returns (raised: Option<Error>)
      requires Valid() && 0 <= e.0 < |xyz| && 0 <= e.1 < |xyz|
      modifies model
      ensures Valid()
      ensures model.elements == old(model.elements) && model.parents == old(model.parents)
      ensures model.groups == old(model.groups)
      ensures match ColumnInteractions(xyz, headOf, columnOf, e)
        case Ok(rs) => raised == None && model.interactions == old(model.interactions) + rs
        case Err(x) => raised == Some(x) && model.interactions == old(model.interactions)
    {
      var top, bottom := e.1, e.0;
      if xyz[e.0].z > xyz[e.1].z {
        top, bottom := e.0, e.1;
      }
      raised := None;
      if top in headOf {
        if e !in columnOf {
          return Some(KeyError);
        }
        model.AddInteraction(headOf[top], columnOf[e], CutterInterface(FaceLowest, ColumnName));
      }
      if bottom in headOf {
        if e !in columnOf {
          return Some(KeyError);
        }
        model.AddInteraction(headOf[bottom], columnOf[e], CutterInterface(FaceHighest, ColumnName));
      }
    }

    /** add_interaction_beam_and_column_head(edge) */
    method AddBeamInteractions(e: NodePair) returns (raised: Option<Error>)
      requires Valid()
      modifies model
      ensures Valid()
      ensures model.elements == old(model.elements) && model.parents == old(model.parents)
      ensures model.groups == old(model.groups)
      ensures match BeamInteractions(headOf, beamOf, e)
        case Ok(rs) => raised == None && model.interactions == old(model.interactions) + rs
        case Err(x) => raised == Some(x) && model.interactions == old(model.interactions)
    {
      if e !in beamOf {
        return Some(KeyError);
      }
      raised := None;
      var beam := beamOf[e];
      var start, end := e.0, e.1;
      if start in headOf {
        model.AddInteraction(headOf[start], beam, CutterInterface(FaceNearest(beam), BeamName));
      }
      if end in headOf {
        model.AddInteraction(headOf[end], beam, CutterInterface(FaceNearest(beam), BeamName));
      }
    }

    /** add_floor(face): the plate, put under the columns group, then its interactions. */
    method AddFloor(face: nat, vs: seq<int>)
      requires Valid()
      modifies model
      ensures Valid()
      ensures model.elements == old(model.elements) + [Plate(face)]
      ensures model.parents == old(model.parents) + [Some(ColumnsGroup)]
      ensures model.groups == old(model.groups)
      ensures model.interactions == old(model.interactions) + FloorInteractions(headOf, |old(model.elements)|, vs)
    {
      var plate := model.AddElement(Plate(face), Some(ColumnsGroup));
      ghost var before := model.interactions;
      for i := 0 to |vs|
        invariant Valid() && model.elements == old(model.elements) + [Plate(face)]
        invariant model.parents == old(model.parents) + [Some(ColumnsGroup)] && model.groups == old(model.groups)
        invariant model.interactions == before + FloorInteractions(headOf, plate, vs[..i])
      {
        assert vs[..i + 1][..i] == vs[..i];
        var vertex := vs[i];
        if vertex in headOf {
          model.AddInteraction(headOf[vertex], plate, CutterInterface(FaceNearest(plate), PlateName));
        }
      }
      assert vs[..|vs|] == vs;
    }
  
    /** for edge in cell_network_columns: add_column_head(edge) */
    method AddColumnHeads(xyz: seq<Point>, cols: seq<NodePair>)
      requires Valid() && EdgesIn(cols, |xyz|)
      modifies this, model
      ensures model == old(model) && Valid()
      ensures model.elements == old(model.elements) + Heads(xyz, cols)
      ensures model.parents == old(model.parents) + Repeat(Some(HeadsGroup), |cols|)
      ensures headOf == old(headOf) + IndexMap(HeadVertices(xyz, cols), |old(model.elements)|)
      ensures columnOf == old(columnOf) && beamOf == old(beamOf)
      ensures model.groups == old(model.groups) && model.interactions == old(model.interactions)
    {
      ghost var base := |model.elements|;
      for i := 0 to |cols|
        invariant model == old(model) && Valid()
        invariant model.elements == old(model.elements) + Heads(xyz, cols[..i])
        invariant model.parents == old(model.parents) + Repeat(Some(HeadsGroup), i)
        invariant headOf == old(headOf) + IndexMap(HeadVertices(xyz, cols[..i]), base)
        invariant columnOf == old(columnOf) && beamOf == old(beamOf)
        invariant model.groups == old(model.groups) && model.interactions == old(model.interactions)
      {
        ghost var (elements, parents, heads) := (model.elements, model.parents, headOf);
        AddColumnHead(xyz, cols[i]);
        HeadsStep(xyz, cols, i);
        RegisterStep(base, Some(HeadsGroup), old(model.elements), old(model.parents), old(headOf),
                     Heads(xyz, cols[..i]), HeadVertices(xyz, cols[..i]), HeadElement(xyz, cols[i]), HeadVertex(xyz, cols[i]),
                     elements, parents, heads, model.elements, model.parents, headOf);
      }
      assert cols[..|cols|] == cols;
    }

    /** for edge in cell_network_columns: add_column(edge) */
    method AddColumns(xyz: seq<Point>, cols: seq<NodePair>)
      requires Valid() && EdgesIn(cols, |xyz|)
      modifies this, model
      ensures model == old(model) && Valid()
      ensures model.elements == old(model.elements) + Columns(xyz, cols)
      ensures model.parents == old(model.parents) + Repeat(Some(ColumnsGroup), |cols|)
      ensures columnOf == old(columnOf) + IndexMap(cols, |old(model.elements)|)
      ensures headOf == old(headOf) && beamOf == old(beamOf)
      ensures model.groups == old(model.groups) && model.interactions == old(model.interactions)
    {
      ghost var base := |model.elements|;
      for i := 0 to |cols|
        invariant model == old(model) && Valid()
        invariant model.elements == old(model.elements) + Columns(xyz, cols[..i])
        invariant model.parents == old(model.parents) + Repeat(Some(ColumnsGroup), i)
        invariant columnOf == old(columnOf) + IndexMap(cols[..i], base)
        invariant headOf == old(headOf) && beamOf == old(beamOf)
        invariant model.groups == old(model.groups) && model.interactions == old(model.interactions)
      {
        ghost var (elements, parents, columns) := (model.elements, model.parents, columnOf);
        AddColumn(xyz, cols[i]);
        ColumnsStep(xyz, cols, i);
        RegisterStep(base, Some(ColumnsGroup), old(model.elements), old(model.parents), old(columnOf),
                     Columns(xyz, cols[..i]), cols[..i], ColumnElement(xyz, cols[i]), cols[i],
                     elements, parents, columns, model.elements, model.parents, columnOf);
      }
      assert cols[..|cols|] == cols;
    }

    /** for edge in cell_network_beams: add_beam(edge) */
    method AddBeams(xyz: seq<Point>, beams: seq<NodePair>)
      requires Valid() && EdgesIn(beams, |xyz|)
      modifies this, model
      ensures model == old(model) && Valid()
      ensures model.elements == old(model.elements) + Beams(xyz, beams)
      ensures model.parents == old(model.parents) + Repeat(Some(ColumnsGroup), |beams|)
      ensures beamOf == old(beamOf) + IndexMap(beams, |old(model.elements)|)
      ensures headOf == old(headOf) && columnOf == old(columnOf)
      ensures model.groups == old(model.groups) && model.interactions == old(model.interactions)
    {
      ghost var base := |model.elements|;
      for i := 0 to |beams|
        invariant model == old(model) && Valid()
        invariant model.elements == old(model.elements) + Beams(xyz, beams[..i])
        invariant model.parents == old(model.parents) + Repeat(Some(ColumnsGroup), i)
        invariant beamOf == old(beamOf) + IndexMap(beams[..i], base)
        invariant headOf == old(headOf) && columnOf == old(columnOf)
        invariant model.groups == old(model.groups) && model.interactions == old(model.interactions)
      {
        ghost var (elements, parents, beamsOf) := (model.elements, model.parents, beamOf);
        AddBeam(xyz, beams[i]);
        BeamsStep(xyz, beams, i);
        RegisterStep(base, Some(ColumnsGroup), old(model.elements), old(model.parents), old(beamOf),
                     Beams(xyz, beams[..i]), beams[..i], BeamElement(xyz, beams[i]), beams[i],
                     elements, parents, beamsOf, model.elements, model.parents, beamOf);
      }
      assert beams[..|beams|] == beams;
    }

    /** for edge in cell_network_columns: add_interaction_column_and_column_head(edge) */
    method AddAllColumnInteractions(xyz: seq<Point>, cols: seq<NodePair>)
      requires Valid() && EdgesIn(cols, |xyz|)
      requires forall i :: 0 <= i < |cols| ==> cols[i] in columnOf
      modifies model
      ensures Valid()
      ensures model.elements == old(model.elements) && model.parents == old(model.parents)
      ensures model.groups == old(model.groups)
      ensures Then(Ok(old(model.interactions)), AllColumnInteractions(xyz, headOf, columnOf, cols)) == Ok(model.interactions)
    {
      assert old(model.interactions) + [] == old(model.interactions);
      for i := 0 to |cols|
        invariant Valid()
        invariant model.elements == old(model.elements) && model.parents == old(model.parents)
        invariant model.groups == old(model.groups)
        invariant Then(Ok(old(model.interactions)), AllColumnInteractions(xyz, headOf, columnOf, cols[..i])) == Ok(model.interactions)
      {
        assert cols[..i + 1][..i] == cols[..i];
        ghost var before := model.interactions;
        assert cols[i] in columnOf;
        var raised := AddColumnInteractions(xyz, cols[i]);
        ThenAssociates(old(model.interactions), AllColumnInteractions(xyz, headOf, columnOf, cols[..i]),
                       ColumnInteractions(xyz, headOf, columnOf, cols[i]));
      }
      assert cols[..|cols|] == cols;
    }

    /** for edge in cell_network_beams: add_interaction_beam_and_column_head(edge) */
    method AddAllBeamInteractions(beams: seq<NodePair>)
      requires Valid()
      requires forall i :: 0 <= i < |beams| ==> beams[i] in beamOf
      modifies model
      ensures Valid()
      ensures model.elements == old(model.elements) && model.parents == old(model.parents)
      ensures model.groups == old(model.groups)
      ensures Then(Ok(old(model.interactions)), AllBeamInteractions(headOf, beamOf, beams)) == Ok(model.interactions)
    {
      assert old(model.interactions) + [] == old(model.interactions);
      for i := 0 to |beams|
        invariant Valid()
        invariant model.elements == old(model.elements) && model.parents == old(model.parents)
        invariant model.groups == old(model.groups)
        invariant Then(Ok(old(model.interactions)), AllBeamInteractions(headOf, beamOf, beams[..i])) == Ok(model.interactions)
      {
        assert beams[..i + 1][..i] == beams[..i];
        assert beams[i] in beamOf;
        var raised := AddBeamInteractions(beams[i]);
        ThenAssociates(old(model.interactions), AllBeamInteractions(headOf, beamOf, beams[..i]), BeamInteractions(headOf, beamOf, beams[i]));
      }
      assert beams[..|beams|] == beams;
    }

    /** for face in cell_network_floors: add_floor(face) */
    method AddFloors(faces: seq<seq<int>>, floors: seq<nat>)
      requires Valid() && FacesIn(floors, faces)
      modifies model
      ensures Valid()
      ensures model.elements == old(model.elements) + Plates(floors)
      ensures model.parents == old(model.parents) + Repeat(Some(ColumnsGroup), |floors|)
      ensures model.groups == old(model.groups)
      ensures model.interactions == old(model.interactions) + AllFloorInteractions(headOf, faces, floors, |old(model.elements)|)
    {
      ghost var base := |model.elements|;
      for i := 0 to |floors|
        invariant Valid()
        invariant model.elements == old(model.elements) + Plates(floors[..i])
        invariant model.parents == old(model.parents) + Repeat(Some(ColumnsGroup), i)
        invariant model.groups == old(model.groups)
        invariant model.interactions == old(model.interactions) + AllFloorInteractions(headOf, faces, floors[..i], base)
      {
        assert floors[..i + 1][..i] == floors[..i];
        assert Plates(floors[..i + 1]) == Plates(floors[..i]) + [Plate(floors[i])];
        AddFloor(floors[i], faces[floors[i]]);
      }
      assert floors[..|floors|] == floors;
    }
  }

  /**
   * One step of a registration loop: the element is appended with its
   * parent and numbered in the dictionary under its key.
   */
  lemma RegisterStep<K>(base: nat, group: Option<string>,
                        elements0: seq<CreaElement>, parents0: seq<Option<string>>, index0: map<K, nat>,
                        done: seq<CreaElement>, keys: seq<K>, element: CreaElement, key: K,
                        elements: seq<CreaElement>, parents: seq<Option<string>>, index: map<K, nat>,
                        elements': seq<CreaElement>, parents': seq<Option<string>>, index': map<K, nat>)
    requires base == |elements0| && |done| == |keys|
    requires elements == elements0 + done
    requires parents == parents0 + Repeat(group, |keys|)
    requires index == index0 + IndexMap(keys, base)
    requires elements' == elements + [element] && parents' == parents + [group]
    requires index' == index[key := |elements|]
    ensures elements' == elements0 + (done + [element])
    ensures parents' == parents0 + Repeat(group, |keys| + 1)
    ensures index' == index0 + IndexMap(keys + [key], base)
  {
    IndexMapStep(keys, base, key);
    UnionUpdate(index0, IndexMap(keys, base), key, base + |keys|);
    RepeatStep(group, |keys|);
    Extend(elements0, done, element);
    Extend(parents0, Repeat(group, |keys|), group);
  }

  /** The element sequences grow by one element per loop step. */
  lemma HeadsStep(xyz: seq<Point>, cols: seq<NodePair>, i: nat)
    requires EdgesIn(cols, |xyz|) && i < |cols|
    ensures cols[..i + 1] == cols[..i] + [cols[i]]
    ensures Heads(xyz, cols[..i + 1]) == Heads(xyz, cols[..i]) + [HeadElement(xyz, cols[i])]
    ensures HeadVertices(xyz, cols[..i + 1]) == HeadVertices(xyz, cols[..i]) + [HeadVertex(xyz, cols[i])]
  {
  }

  lemma ColumnsStep(xyz: seq<Point>, cols: seq<NodePair>, i: nat)
    requires EdgesIn(cols, |xyz|) && i < |cols|
    ensures cols[..i + 1] == cols[..i] + [cols[i]]
    ensures Columns(xyz, cols[..i + 1]) == Columns(xyz, cols[..i]) + [ColumnElement(xyz, cols[i])]
  {
  }

  lemma BeamsStep(xyz: seq<Point>, beams: seq<NodePair>, i: nat)
    requires EdgesIn(beams, |xyz|) && i < |beams|
    ensures beams[..i + 1] == beams[..i] + [beams[i]]
    ensures Beams(xyz, beams[..i + 1]) == Beams(xyz, beams[..i]) + [BeamElement(xyz, beams[i])]
  {
  }

  /** Registering one more key under the next number. */
  lemma IndexMapStep<K>(keys: seq<K>, base: nat, k: K)
    ensures IndexMap(keys + [k], base) == IndexMap(keys, base)[k := base + |keys|]
  {
    assert (keys + [k])[..|keys|] == keys;
  }

  lemma RepeatStep<T>(x: T, n: nat)
    ensures Repeat(x, n + 1) == Repeat(x, n) + [x]
  {
  }

  lemma Extend<T>(o: seq<T>, prefix: seq<T>, x: T)
    ensures o + prefix + [x] == o + (prefix + [x])
  {
  }

  lemma UnionUpdate<K, V>(m1: map<K, V>, m2: map<K, V>, k: K, v: V)
    ensures (m1 + m2)[k := v] == m1 + m2[k := v]
  {
  }

  function Repeat<T>(x: T, n: nat): (s: seq<T>)
    ensures |s| == n && forall i :: 0 <= i < n ==> s[i] == x
  {
    seq(n, i => x)
  }

  lemma FlaggedEdgesIn(edges: seq<NodePair>, attrs: map<NodePair, Attributes>, name: string, n: int)
    requires EdgesIn(edges, n)
    ensures EdgesIn(EdgesFlagged(edges, attrs, name), n)
  {
    var es := EdgesFlagged(edges, attrs, name);
    forall i | 0 <= i < |es|
      ensures 0 <= es[i].0 < n && 0 <= es[i].1 < n
    {
      var e := es[i];
      assert e in es;
      var j :| 0 <= j < |edges| && edges[j] == e;
    }
  }

  /** The parent group of each element the script adds, in order. */
  function CreaParents(cols: seq<NodePair>, beams: seq<NodePair>, floors: seq<nat>): seq<Option<string>>
  {
    Repeat(Some(HeadsGroup), |cols|) + Repeat(Some(ColumnsGroup), |cols|) + Repeat(Some(ColumnsGroup), |beams|)
    + Repeat(Some(ColumnsGroup), |floors|)
  }

  /** What the script leaves behind for the given query results. */
  ghost predicate ScriptResult(script: CreaScript, xyz: seq<Point>, faces: seq<seq<int>>,
                               cols: seq<NodePair>, beams: seq<NodePair>, floors: seq<nat>)
    requires EdgesIn(cols, |xyz|) && EdgesIn(beams, |xyz|) && FacesIn(floors, faces)
    reads script, script.model
  {
    script.model.groups == [ColumnsGroup, HeadsGroup, BeamsGroup, FloorsGroup]
    && script.model.elements == CreaElements(xyz, cols, beams, floors)
    && script.model.parents == CreaParents(cols, beams, floors)
    && script.headOf == HeadMap(xyz, cols)
    && script.columnOf == IndexMap(cols, |cols|)
    && script.beamOf == IndexMap(beams, 2 * |cols|)
    && CreaInteractions(xyz, faces, cols, beams, floors) == Ok(script.model.interactions)
  }

  /** The state after the three column loops. */
  ghost predicate AfterColumns(script: CreaScript, xyz: seq<Point>, cols: seq<NodePair>)
    requires EdgesIn(cols, |xyz|)
    reads script, script.model
  {
    script.model.groups == [ColumnsGroup, HeadsGroup, BeamsGroup, FloorsGroup]
    && script.model.elements == Heads(xyz, cols) + Columns(xyz, cols)
    && script.model.parents == Repeat(Some(HeadsGroup), |cols|) + Repeat(Some(ColumnsGroup), |cols|)
    && script.headOf == HeadMap(xyz, cols)
    && script.columnOf == IndexMap(cols, |cols|)
    && script.beamOf == map[]
    && AllColumnInteractions(xyz, HeadMap(xyz, cols), IndexMap(cols, |cols|), cols) == Ok(script.model.interactions)
  }

  /** The state after the two beam loops. */
  ghost predicate AfterBeams(script: CreaScript, xyz: seq<Point>, cols: seq<NodePair>, beams: seq<NodePair>)
    requires EdgesIn(cols, |xyz|) && EdgesIn(beams, |xyz|)
    reads script, script.model
  {
    script.model.groups == [ColumnsGroup, HeadsGroup, BeamsGroup, FloorsGroup]
    && script.model.elements == Heads(xyz, cols) + Columns(xyz, cols) + Beams(xyz, beams)
    && script.model.parents == Repeat(Some(HeadsGroup), |cols|) + Repeat(Some(ColumnsGroup), |cols|) + Repeat(Some(ColumnsGroup), |beams|)
    && script.headOf == HeadMap(xyz, cols)
    && script.columnOf == IndexMap(cols, |cols|)
    && script.beamOf == IndexMap(beams, 2 * |cols|)
    && Then(AllColumnInteractions(xyz, HeadMap(xyz, cols), IndexMap(cols, |cols|), cols),
            AllBeamInteractions(HeadMap(xyz, cols), IndexMap(beams, 2 * |cols|), beams)) == Ok(script.model.interactions)
  }

  /** The loops over cell_network_columns. */
  method ColumnLoops(xyz: seq<Point>, cols: seq<NodePair>) returns (script: CreaScript)
    requires EdgesIn(cols, |xyz|)
    ensures fresh(script) && fresh(script.model) && script.Valid()
    ensures AfterColumns(script, xyz, cols)
  {
    script := new CreaScript();
    script.AddColumnHeads(xyz, cols);
    EmptyUnion(HeadMap(xyz, cols));
    ghost var headCount := |script.model.elements|;
    script.AddColumns(xyz, cols);
    EmptyUnion(IndexMap(cols, headCount));
    IndexMapHasKeys(cols, headCount);
    script.AddAllColumnInteractions(xyz, cols);
    ColumnLoopsValues(xyz, cols, headCount, script.model.elements, script.model.parents, script.headOf, script.columnOf,
                      script.model.interactions);
  }

  /** What the column loops leave, stated on the values they leave. */
  lemma ColumnLoopsValues(xyz: seq<Point>, cols: seq<NodePair>, headCount: nat,
                          elements: seq<CreaElement>, parents: seq<Option<string>>, headOf: map<int, nat>,
                          columnOf: map<NodePair, nat>, interactions: seq<Interaction>)
    requires EdgesIn(cols, |xyz|)
    requires headCount == |[] + Heads(xyz, cols)|
    requires elements == [] + Heads(xyz, cols) + Columns(xyz, cols)
    requires parents == [] + Repeat(Some(HeadsGroup), |cols|) + Repeat(Some(ColumnsGroup), |cols|)
    requires headOf == HeadMap(xyz, cols) && columnOf == IndexMap(cols, headCount)
    requires Then(Ok([]), AllColumnInteractions(xyz, headOf, columnOf, cols)) == Ok(interactions)
    ensures elements == Heads(xyz, cols) + Columns(xyz, cols)
    ensures parents == Repeat(Some(HeadsGroup), |cols|) + Repeat(Some(ColumnsGroup), |cols|)
    ensures columnOf == IndexMap(cols, |cols|)
    ensures AllColumnInteractions(xyz, HeadMap(xyz, cols), IndexMap(cols, |cols|), cols) == Ok(interactions)
  {
    assert [] + Heads(xyz, cols) == Heads(xyz, cols);
    assert [] + Repeat(Some(HeadsGroup), |cols|) == Repeat(Some(HeadsGroup), |cols|);
    ThenEmpty(AllColumnInteractions(xyz, headOf, columnOf, cols));
  }

  /** The loops over cell_network_beams. */
  method BeamLoops(script: CreaScript, xyz: seq<Point>, cols: seq<NodePair>, beams: seq<NodePair>)
    requires EdgesIn(cols, |xyz|) && EdgesIn(beams, |xyz|)
    requires script.Valid() && AfterColumns(script, xyz, cols)
    modifies script, script.model
    ensures script.model == old(script.model) && script.Valid()
    ensures AfterBeams(script, xyz, cols, beams)
  {
    ghost var (elements0, parents0, interactions0) := (script.model.elements, script.model.parents, script.model.interactions);
    script.AddBeams(xyz, beams);
    EmptyUnion(IndexMap(beams, |elements0|));
    IndexMapHasKeys(beams, |elements0|);
    script.AddAllBeamInteractions(beams);
    BeamLoopsValues(xyz, cols, beams, elements0, parents0, interactions0,
                    script.model.elements, script.model.parents, script.beamOf, script.model.interactions);
  }

  /** What the beam loops leave, stated on the values they leave. */
  lemma BeamLoopsValues(xyz: seq<Point>, cols: seq<NodePair>, beams: seq<NodePair>,
                        elements0: seq<CreaElement>, parents0: seq<Option<string>>, interactions0: seq<Interaction>,
                        elements: seq<CreaElement>, parents: seq<Option<string>>, beamOf: map<NodePair, nat>,
                        interactions: seq<Interaction>)
    requires EdgesIn(cols, |xyz|) && EdgesIn(beams, |xyz|)
    requires elements0 == Heads(xyz, cols) + Columns(xyz, cols)
    requires parents0 == Repeat(Some(HeadsGroup), |cols|) + Repeat(Some(ColumnsGroup), |cols|)
    requires AllColumnInteractions(xyz, HeadMap(xyz, cols), IndexMap(cols, |cols|), cols) == Ok(interactions0)
    requires elements == elements0 + Beams(xyz, beams)
    requires parents == parents0 + Repeat(Some(ColumnsGroup), |beams|)
    requires beamOf == IndexMap(beams, |elements0|)
    requires Then(Ok(interactions0), AllBeamInteractions(HeadMap(xyz, cols), beamOf, beams)) == Ok(interactions)
    ensures elements == Heads(xyz, cols) + Columns(xyz, cols) + Beams(xyz, beams)
    ensures parents == Repeat(Some(HeadsGroup), |cols|) + Repeat(Some(ColumnsGroup), |cols|) + Repeat(Some(ColumnsGroup), |beams|)
    ensures beamOf == IndexMap(beams, 2 * |cols|)
    ensures Then(AllColumnInteractions(xyz, HeadMap(xyz, cols), IndexMap(cols, |cols|), cols),
                 AllBeamInteractions(HeadMap(xyz, cols), IndexMap(beams, 2 * |cols|), beams)) == Ok(interactions)
  {
    assert |elements0| == 2 * |cols|;
  }

  /** The six loops of the script over the results of its three queries. */
  method Run(xyz: seq<Point>, faces: seq<seq<int>>, cols: seq<NodePair>, beams: seq<NodePair>, floors: seq<nat>)
    returns (script: CreaScript)
    requires EdgesIn(cols, |xyz|) && EdgesIn(beams, |xyz|) && FacesIn(floors, faces)
    ensures fresh(script) && fresh(script.model) && script.Valid()
    ensures ScriptResult(script, xyz, faces, cols, beams, floors)
  {
    script := ColumnLoops(xyz, cols);
    BeamLoops(script, xyz, cols, beams);
    ghost var (elements0, parents0, interactions0) := (script.model.elements, script.model.parents, script.model.interactions);
    script.AddFloors(faces, floors);
    RunValues(xyz, cols, beams, floors, elements0, parents0, script.model.elements, script.model.parents);
    RunCount(xyz, cols, beams, elements0);
    RunInteractions(xyz, faces, cols, beams, floors, |elements0|, interactions0, script.model.interactions);
  }

  /** The elements and parents the floor loop leaves, stated on values. */
  lemma RunValues(xyz: seq<Point>, cols: seq<NodePair>, beams: seq<NodePair>, floors: seq<nat>,
                  elements0: seq<CreaElement>, parents0: seq<Option<string>>,
                  elements: seq<CreaElement>, parents: seq<Option<string>>)
    requires EdgesIn(cols, |xyz|) && EdgesIn(beams, |xyz|)
    requires elements0 == Heads(xyz, cols) + Columns(xyz, cols) + Beams(xyz, beams)
    requires parents0 == Repeat(Some(HeadsGroup), |cols|) + Repeat(Some(ColumnsGroup), |cols|) + Repeat(Some(ColumnsGroup), |beams|)
    requires elements == elements0 + Plates(floors)
    requires parents == parents0 + Repeat(Some(ColumnsGroup), |floors|)
    ensures elements == CreaElements(xyz, cols, beams, floors)
    ensures parents == CreaParents(cols, beams, floors)
  {
  }

  lemma RunCount(xyz: seq<Point>, cols: seq<NodePair>, beams: seq<NodePair>, elements0: seq<CreaElement>)
    requires EdgesIn(cols, |xyz|) && EdgesIn(beams, |xyz|)
    requires elements0 == Heads(xyz, cols) + Columns(xyz, cols) + Beams(xyz, beams)
    ensures |elements0| == 2 * |cols| + |beams|
  {
  }

  lemma RunInteractions(xyz: seq<Point>, faces: seq<seq<int>>, cols: seq<NodePair>, beams: seq<NodePair>, floors: seq<nat>,
                        count: nat, interactions0: seq<Interaction>, interactions: seq<Interaction>)
    requires EdgesIn(cols, |xyz|) && EdgesIn(beams, |xyz|) && FacesIn(floors, faces)
    requires count == 2 * |cols| + |beams|
    requires Then(AllColumnInteractions(xyz, HeadMap(xyz, cols), IndexMap(cols, |cols|), cols),
                  AllBeamInteractions(HeadMap(xyz, cols), IndexMap(beams, 2 * |cols|), beams)) == Ok(interactions0)
    requires interactions == interactions0 + AllFloorInteractions(HeadMap(xyz, cols), faces, floors, count)
    ensures CreaInteractions(xyz, faces, cols, beams, floors) == Ok(interactions)
  {
  }

  /**
   * The script from its three queries (columns, beams, floors) to the last
   * add_floor: the elements come in the order heads, columns, beams,
   * plates; beams and plates are filed under the columns group; the
   * dictionaries end as the last registration of each key left them; and
   * the interactions are those of the column, beam and floor helpers, in
   * that order, with no KeyError raised.
   */
  method RunScript(network: CellNetwork) returns (script: CreaScript)
    requires network.Valid() && EdgesIn(network.edges, |network.vertices|)
    ensures fresh(script) && fresh(script.model) && script.Valid()
    ensures var cols := EdgesFlagged(network.edges, network.edgeAttributes, "is_column");
      var beams := EdgesFlagged(network.edges, network.edgeAttributes, "is_beam");
      var floors := FacesFlagged(network.faceAttributes, "is_floor");
      EdgesIn(cols, |network.vertices|) && EdgesIn(beams, |network.vertices|) && FacesIn(floors, network.faces)
      && ScriptResult(script, network.vertices, network.faces, cols, beams, floors)
  {
    var cols := EdgesFlagged(network.edges, network.edgeAttributes, "is_column");
    var beams := EdgesFlagged(network.edges, network.edgeAttributes, "is_beam");
    var floors := FacesFlagged(network.faceAttributes, "is_floor");
    FlaggedEdgesIn(network.edges, network.edgeAttributes, "is_column", |network.vertices|);
    FlaggedEdgesIn(network.edges, network.edgeAttributes, "is_beam", |network.vertices|);
    script := Run(network.vertices, network.faces, cols, beams, floors);
  }
}
