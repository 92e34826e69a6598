/**
 * GridModel.from_lines_and_surfaces: turns the column, beam and floor parts
 * of a cell network into model elements (one column head and one column per
 * column edge, one beam per beam edge, one plate per floor face) and then
 * into the interactions that cut them: at every column end, beam end and
 * floor corner that meets a column head, a cutter element is placed on the
 * head and joined to the element it cuts.
 *
 * The builder is modelled as a state machine: the spec functions below
 * give the state after each nested add_* helper and after each loop of the
 * driver, with every exception the helpers can raise as an Err; the class
 * GridBuilder runs the same loops on a Model object and four dictionaries.
 * Frames, polygons and transformations are geometry and are not modelled;
 * a cutter element records the head and the head face it is placed on.
 */
module GridModelBuild {
  import opened Base
  import opened Directions
  import opened ColumnHeadRules
  import opened ColumnHeadMesh
  import opened ColumnHeadShape
  import opened ColumnHeadElement
  import opened CellNetworkModel
  import opened ModelGraph
  import CreaModel

  // ---------------------------------------------------------------------
  // The cell network as the builder reads it
  // ---------------------------------------------------------------------

  /** Vertex points, vertex attributes, and the faces with their attributes. */
  datatype Net = Net(xyz: seq<Point>, vertexAttributes: map<int, Attributes>, faces: seq<seq<int>>, faceAttributes: seq<Attributes>)

  predicate NetOK(net: Net)
  {
    |net.faceAttributes| == |net.faces|
  }

  predicate IsVertex(net: Net, v: int)
  {
    0 <= v < |net.xyz|
  }

  predicate EdgesOf(net: Net, es: seq<NodePair>)
  {
    forall i :: 0 <= i < |es| ==> IsVertex(net, es[i].0) && IsVertex(net, es[i].1)
  }

  predicate FacesOf(net: Net, fs: seq<nat>)
  {
    forall i :: 0 <= i < |fs| ==> fs[i] < |net.faces|
  }

  /**
   * vertex_attribute(vertex, "neighbors") as the loop over it sees it: an
   * unknown vertex raises KeyError, and anything but a node list (None when
   * the attribute was never set) cannot be iterated.
   */
  function NeighborList(net: Net, vertex: int): Result<seq<int>>
  {
    if vertex !in net.vertexAttributes then Err(KeyError)
    else if "neighbors" in net.vertexAttributes[vertex] && net.vertexAttributes[vertex]["neighbors"].Nodes? then
      Ok(net.vertexAttributes[vertex]["neighbors"].nodes)
    else Err(TypeError)
  }

  // ---------------------------------------------------------------------
  // add_column_head: the junction a head is built for
  // ---------------------------------------------------------------------

  /** The v, e and f handed to rebuild. */
  datatype Junction = Junction(v: map<int, Point>, e: seq<Edge>, f: seq<seq<int>>)

  /** The neighbour loop's v[neighbor] = vertex_point(neighbor); an unknown vertex raises KeyError. */
  function PointsFrom(net: Net, v: map<int, Point>, ns: seq<int>): Result<map<int, Point>>
    decreases |ns|
  {
    if ns == [] then Ok(v)
    else if !IsVertex(net, ns[0]) then Err(KeyError)
    else PointsFrom(net, v[ns[0] := net.xyz[ns[0]]], ns[1..])
  }

  /**
   * The points dictionary holds the given entries plus every neighbour at
   * its own point, and it fails exactly when a neighbour is not a vertex.
   */
  lemma {:induction false} PointsFromHolds(net: Net, v: map<int, Point>, ns: seq<int>)
    ensures PointsFrom(net, v, ns).Ok? <==> forall i :: 0 <= i < |ns| ==> IsVertex(net, ns[i])
    ensures PointsFrom(net, v, ns).Err? ==> PointsFrom(net, v, ns).error == KeyError
    ensures PointsFrom(net, v, ns).Ok? ==>
      var m := PointsFrom(net, v, ns).value;
      (forall k :: k in m <==> k in v || k in ns)
      && (forall k :: k in m && k in ns ==> m[k] == net.xyz[k])
      && (forall k :: k in m && k !in ns ==> m[k] == v[k])
    decreases |ns|
  {
    if ns != [] {
      if IsVertex(net, ns[0]) {
        PointsFromHolds(net, v[ns[0] := net.xyz[ns[0]]], ns[1..]);
        assert forall i :: 0 <= i < |ns[1..]| ==> ns[1..][i] == ns[i + 1];
        assert forall k :: k in ns <==> k == ns[0] || k in ns[1..];
      }
    }
  }

  /** A face the head sees: it holds the vertex and carries an is_floor attribute. */
  predicate Incident(net: Net, vertex: int, k: nat)
    requires NetOK(net) && k < |net.faces|
  {
    vertex in net.faces[k] && "is_floor" in net.faceAttributes[k]
  }

  /**
   * The keys of list(set(vertex_faces(vertex))) that pass the is_floor test,
   * in ascending order (the order CPython iterates a set of small integers).
   */
  function FloorKeys(net: Net, vertex: int, n: nat): (ks: seq<nat>)
    requires NetOK(net) && n <= |net.faces|
    ensures forall k: nat :: k in ks <==> k < n && Incident(net, vertex, k)
    ensures forall i, j :: 0 <= i < j < |ks| ==> ks[i] < ks[j]
    ensures forall i :: 0 <= i < |ks| ==> ks[i] < n
  {
    if n == 0 then []
    else FloorKeys(net, vertex, n - 1) + (if Incident(net, vertex, n - 1) then [n - 1] else [])
  }

  function FacesAt(net: Net, ks: seq<nat>): seq<seq<int>>
    requires forall i :: 0 <= i < |ks| ==> ks[i] < |net.faces|
  {
    seq(|ks|, i requires 0 <= i < |ks| => net.faces[ks[i]])
  }

  function HeadEdges(vertex: int, ns: seq<int>): seq<Edge>
  {
    seq(|ns|, i requires 0 <= i < |ns| => (vertex, ns[i]))
  }

  /**
   * The junction of a head vertex: its point and its neighbours' points, one
   * edge (head, n) per neighbour in attribute order, and the vertices of
   * each incident floor face once.
   */
  function JunctionAt(net: Net, vertex: int): (r: Result<Junction>)
    requires NetOK(net) && IsVertex(net, vertex)
    ensures r.Ok? ==>
      NeighborList(net, vertex).Ok?
      && var ns := NeighborList(net, vertex).value;
      |r.value.e| == |ns| && (forall i :: 0 <= i < |ns| ==> r.value.e[i] == (vertex, ns[i]))
      && (forall k :: k in r.value.v <==> k == vertex || k in ns)
      && (forall k :: k in r.value.v ==> IsVertex(net, k) && r.value.v[k] == net.xyz[k])
      && r.value.f == FacesAt(net, FloorKeys(net, vertex, |net.faces|))
    ensures r.Err? ==> r.error in {KeyError, TypeError}
  {
    match NeighborList(net, vertex)
    case Err(x) => Err(x)
    case Ok(ns) =>
      PointsFromHolds(net, map[vertex := net.xyz[vertex]], ns);
      match PointsFrom(net, map[vertex := net.xyz[vertex]], ns)
      case Err(x) => Err(x)
      case Ok(v) => Ok(Junction(v, HeadEdges(vertex, ns), FacesAt(net, FloorKeys(net, vertex, |net.faces|))))
  }

  /**
   * column_head.rebuild(v, e, f) once the shared shape object holds the
   * dimensions dims: the template's dimensions and name, and the mesh of
   * the junction's rules.
   */
  function HeadFor(template: ColumnHeadCross, dims: Dimensions, j: Junction): (r: Result<ColumnHeadCross>)
    ensures r.Ok? <==> GenerateRules(j.v, j.e, j.f).Ok?
    ensures r.Err? ==> r.error == GenerateRules(j.v, j.e, j.f).error
    ensures r.Ok? ==>
      r.value.v == j.v && r.value.e == j.e && r.value.f == j.f
      && r.value.shape.faces == HeadFaces(GenerateRules(j.v, j.e, j.f).value)
  {
    match GenerateRules(j.v, j.e, j.f)
    case Err(x) => Err(x)
    case Ok(rules) =>
      GeneratedRulesAreConsistent(j.v, j.e, j.f);
      Ok(ColumnHeadCross(j.v, j.e, j.f, template.width, template.depth, template.height, template.offset,
                         ElementName(Some(template.name)), MeshOf(rules, dims).value))
  }

  // ---------------------------------------------------------------------
  // The builder's state
  // ---------------------------------------------------------------------

  datatype GridElement =
    | ColumnHeadAt(vertex: int, head: ColumnHeadCross)
    | ColumnOn(edge: NodePair)
    | BeamOn(edge: NodePair)
    | PlateOn(face: nat)
    /** Element `part` of the cutter model, placed on face `hostFace` of the head element `host`. */
    | CutterPart(part: nat, host: nat, hostFace: int)
    /** A copy of the cutter element, placed on face `hostFace` of the head element `host`. */
    | CutterOn(host: nat, hostFace: int)

  predicate IsCutter(x: GridElement)
  {
    x.CutterPart? || x.CutterOn?
  }

  /** A head element as column_head_to_vertex holds it: its graph node and the element. */
  datatype HeadRef = HeadRef(id: nat, head: ColumnHeadCross)

  /** An entry of vertex_to_plates_and_faces: a plate and the vertices of its face. */
  datatype PlateRef = PlateRef(plate: nat, face: seq<int>)

  /**
   * The model's elements and interactions, and the four dictionaries; the
   * keys of vertex_to_plates_and_faces are also kept in insertion order,
   * the order its items() loop follows.
   */
  datatype Build = Build(
    elements: seq<GridElement>,
    interactions: seq<Interaction>,
    headOf: map<int, HeadRef>,
    columnOf: map<NodePair, nat>,
    beamOf: map<NodePair, nat>,
    platesAt: map<int, seq<PlateRef>>,
    plateOrder: seq<int>)

  const Empty: Build := Build([], [], map[], map[], map[], map[], [])

  // ---------------------------------------------------------------------
  // The element helpers
  // ---------------------------------------------------------------------

  /** The element add_column_head builds for the head at vertex top. */
  function HeadAtVertex(net: Net, template: ColumnHeadCross, dims: Dimensions, top: int): Result<ColumnHeadCross>
    requires NetOK(net) && IsVertex(net, top)
  {
    match JunctionAt(net, top)
    case Err(x) => Err(x)
    case Ok(j) => HeadFor(template, dims, j)
  }

  /**
   * The head element add_column_head would build at each vertex. The head
   * depends only on the network, so the element loops take it as a
   * function of the vertex.
   */
  function HeadBuilder(net: Net, template: ColumnHeadCross, dims: Dimensions): (heads: int --> Result<ColumnHeadCross>)
    requires NetOK(net)
    ensures Builds(heads, net)
    ensures forall t :: IsVertex(net, t) ==> heads(t) == HeadAtVertex(net, template, dims, t)
  {
    t requires IsVertex(net, t) => HeadAtVertex(net, template, dims, t)
  }

  /**
   * The template elements from_lines_and_surfaces takes
   * (src/compas_grid/models/model_grid.py:76-81), every one None by
   * default: the column-head template if one was passed, whether column,
   * beam, plate and cutter templates were passed, and the number of
   * elements of the cutter model if one was passed. The builder raises
   * AttributeError where it first calls a method on a missing one.
   */
  datatype Templates = Templates(columnHead: Option<ColumnHeadCross>, column: bool, beam: bool, plate: bool,
                                 cutter: bool, cutterModel: Option<nat>)

  /**
   * The head builder of an optional head template. Without one,
   * add_column_head still gathers the junction (which may raise) and then
   * raises AttributeError at `column_head.rebuild`.
   */
  function TemplateHeads(net: Net, head: Option<ColumnHeadCross>, dims: Dimensions): (heads: int --> Result<ColumnHeadCross>)
    requires NetOK(net)
    ensures Builds(heads, net)
    ensures head.Some? ==> forall t :: IsVertex(net, t) ==> heads(t) == HeadAtVertex(net, head.value, dims, t)
    ensures head.None? ==> forall t :: IsVertex(net, t) ==>
      heads(t).Err? && (heads(t).error == AttributeError || JunctionAt(net, t) == Err(heads(t).error))
  {
    match head
    case Some(template) => HeadBuilder(net, template, dims)
    case None =>
      t requires IsVertex(net, t) =>
        match JunctionAt(net, t)
        case Err(x) => Err(x)
        case Ok(_) => Err(AttributeError)
  }

  /** A head builder defined at every vertex. */
  ghost predicate Builds(heads: int --> Result<ColumnHeadCross>, net: Net)
  {
    forall t :: IsVertex(net, t) ==> heads.requires(t)
  }

  /** add_column_head(edge): the head goes under the column's upper end. */
  function HeadStep(heads: int --> Result<ColumnHeadCross>, net: Net, b: Build, edge: NodePair): Result<Build>
    requires Builds(heads, net) && IsVertex(net, edge.0) && IsVertex(net, edge.1)
  {
    var top := CreaModel.HeadVertex(net.xyz, edge);
    match heads(top)
    case Err(x) => Err(x)
    case Ok(h) =>
      Ok(b.(elements := b.elements + [ColumnHeadAt(top, h)], headOf := b.headOf[top := HeadRef(|b.elements|, h)]))
  }

  function HeadsFold(heads: int --> Result<ColumnHeadCross>, net: Net, b: Build, cols: seq<NodePair>): Result<Build>
    requires Builds(heads, net) && EdgesOf(net, cols)
    decreases |cols|
  {
    if cols == [] then Ok(b)
    else
      match HeadStep(heads, net, b, cols[0])
      case Err(x) => Err(x)
      case Ok(b1) => HeadsFold(heads, net, b1, cols[1..])
  }

  /** add_column(edge) */
  function ColumnStep(b: Build, edge: NodePair): Build
  {
    b.(elements := b.elements + [ColumnOn(edge)], columnOf := b.columnOf[edge := |b.elements|])
  }

  function ColumnsFold(b: Build, cols: seq<NodePair>): Build
    decreases |cols|
  {
    if cols == [] then b else ColumnsFold(ColumnStep(b, cols[0]), cols[1..])
  }

  /** add_beam(edge) */
  function BeamStep(b: Build, edge: NodePair): Build
  {
    b.(elements := b.elements + [BeamOn(edge)], beamOf := b.beamOf[edge := |b.elements|])
  }

  function BeamsFold(b: Build, beams: seq<NodePair>): Build
    decreases |beams|
  {
    if beams == [] then b else BeamsFold(BeamStep(b, beams[0]), beams[1..])
  }

  /** The vertex loop of add_floor: the plate goes into the list of each of the face's vertices. */
  function Register(platesAt: map<int, seq<PlateRef>>, order: seq<int>, ref: PlateRef, vs: seq<int>): (map<int, seq<PlateRef>>, seq<int>)
    decreases |vs|
  {
    if vs == [] then (platesAt, order)
    else
      var v := vs[0];
      if v in platesAt then Register(platesAt[v := platesAt[v] + [ref]], order, ref, vs[1..])
      else Register(platesAt[v := [ref]], order + [v], ref, vs[1..])
  }

  /** The key order lists each key of the dictionary once. */
  ghost predicate OrderMatches(platesAt: map<int, seq<PlateRef>>, order: seq<int>)
  {
    (forall v :: v in platesAt <==> v in order) && Distinct(order)
  }

  /**
   * After add_floor, every vertex of the face lists the plate (once per
   * occurrence in the face), the other vertices' lists are untouched, and
   * new keys are appended to the key order.
   */
  lemma RegisterHolds(platesAt: map<int, seq<PlateRef>>, order: seq<int>, ref: PlateRef, vs: seq<int>)
    requires OrderMatches(platesAt, order)
    ensures var (p, o) := Register(platesAt, order, ref, vs);
      OrderMatches(p, o)
      && |order| <= |o| && o[..|order|] == order
      && (forall v :: v in p <==> v in platesAt || v in vs)
      && (forall v :: v in vs ==> ref in p[v])
      && (forall v :: v in platesAt ==> |platesAt[v]| <= |p[v]| && p[v][..|platesAt[v]|] == platesAt[v])
      && (forall v :: v in p && v !in vs ==> p[v] == platesAt[v])
      && (forall v, r :: v in p && r in p[v] ==> r == ref || (v in platesAt && r in platesAt[v]))
  {
    RegisterOrder(platesAt, order, ref, vs);
    RegisterKeys(platesAt, order, ref, vs);
    RegisterLists(platesAt, order, ref, vs);
    RegisterOrigins(platesAt, order, ref, vs);
  }

  /** The first step of Register, as a pair. */
  function RegisterFirst(platesAt: map<int, seq<PlateRef>>, order: seq<int>, ref: PlateRef, v: int): (map<int, seq<PlateRef>>, seq<int>)
  {
    if v in platesAt then (platesAt[v := platesAt[v] + [ref]], order) else (platesAt[v := [ref]], order + [v])
  }

  lemma RegisterUnfold(platesAt: map<int, seq<PlateRef>>, order: seq<int>, ref: PlateRef, vs: seq<int>)
    requires vs != []
    ensures var (p1, o1) := RegisterFirst(platesAt, order, ref, vs[0]);
      Register(platesAt, order, ref, vs) == Register(p1, o1, ref, vs[1..])
  {
  }

  /** The key order keeps matching the dictionary, and only grows at its end. */
  lemma {:induction false} RegisterOrder(platesAt: map<int, seq<PlateRef>>, order: seq<int>, ref: PlateRef, vs: seq<int>)
    requires OrderMatches(platesAt, order)
    ensures var (p, o) := Register(platesAt, order, ref, vs);
      OrderMatches(p, o) && |order| <= |o| && o[..|order|] == order
    decreases |vs|
  {
    if vs != [] {
      var v := vs[0];
      var (p1, o1) := RegisterFirst(platesAt, order, ref, v);
      assert OrderMatches(p1, o1) by {
        if v !in platesAt {
          assert v !in order;
          forall i, j | 0 <= i < j < |o1| ensures o1[i] != o1[j] {
            if j == |order| { assert o1[i] == order[i] && order[i] in order; }
          }
        }
      }
      RegisterOrder(p1, o1, ref, vs[1..]);
      RegisterUnfold(platesAt, order, ref, vs);
      var (p, o) := Register(platesAt, order, ref, vs);
      assert o[..|order|] == order by {
        assert o[..|o1|] == o1;
        assert o1[..|order|] == order;
      }
    }
  }

  /** The keys afterwards are the old ones and the face's vertices, and each of those lists the plate. */
  lemma {:induction false} RegisterKeys(platesAt: map<int, seq<PlateRef>>, order: seq<int>, ref: PlateRef, vs: seq<int>)
    ensures var (p, o) := Register(platesAt, order, ref, vs);
      (forall v :: v in p <==> v in platesAt || v in vs) && (forall v :: v in vs ==> ref in p[v])
    decreases |vs|
  {
    if vs != [] {
      var v := vs[0];
      var (p1, o1) := RegisterFirst(platesAt, order, ref, v);
      RegisterKeys(p1, o1, ref, vs[1..]);
      RegisterLists(p1, o1, ref, vs[1..]);
      RegisterUnfold(platesAt, order, ref, vs);
      assert forall w :: w in vs <==> w == v || w in vs[1..];
      var (p, o) := Register(platesAt, order, ref, vs);
      assert ref in p[v] by {
        assert ref in p1[v] by { assert p1[v][|p1[v]| - 1] == ref; }
        if v !in vs[1..] {
          assert p[v][..|p1[v]|] == p1[v];
          assert ref in p[v][..|p1[v]|];
        }
      }
    }
  }

  /** Every earlier list is a prefix of the new one, and a vertex not on the face keeps its list. */
  lemma {:induction false} RegisterLists(platesAt: map<int, seq<PlateRef>>, order: seq<int>, ref: PlateRef, vs: seq<int>)
    ensures var (p, o) := Register(platesAt, order, ref, vs);
      (forall v :: v in platesAt ==> v in p && |platesAt[v]| <= |p[v]| && p[v][..|platesAt[v]|] == platesAt[v])
      && (forall v :: v in p && v !in vs ==> v in platesAt && p[v] == platesAt[v])
    decreases |vs|
  {
    if vs != [] {
      var v := vs[0];
      var (p1, o1) := RegisterFirst(platesAt, order, ref, v);
      RegisterLists(p1, o1, ref, vs[1..]);
      RegisterUnfold(platesAt, order, ref, vs);
      var (p, o) := Register(platesAt, order, ref, vs);
      forall w | w in platesAt
        ensures w in p && |platesAt[w]| <= |p[w]| && p[w][..|platesAt[w]|] == platesAt[w]
      {
        assert p[w][..|p1[w]|] == p1[w];
        assert p1[w][..|platesAt[w]|] == platesAt[w];
      }
    }
  }

  /** Every entry afterwards is the new plate or was there before. */
  lemma {:induction false} RegisterOrigins(platesAt: map<int, seq<PlateRef>>, order: seq<int>, ref: PlateRef, vs: seq<int>)
    ensures var (p, o) := Register(platesAt, order, ref, vs);
      forall v, r :: v in p && r in p[v] ==> r == ref || (v in platesAt && r in platesAt[v])
    decreases |vs|
  {
    if vs != [] {
      var v := vs[0];
      var (p1, o1) := RegisterFirst(platesAt, order, ref, v);
      RegisterOrigins(p1, o1, ref, vs[1..]);
      RegisterUnfold(platesAt, order, ref, vs);
    }
  }

  /** add_floor(face): one plate, listed under every vertex of the face. */
  function FloorStep(net: Net, b: Build, face: nat): Build
    requires face < |net.faces|
  {
    var ref := PlateRef(|b.elements|, net.faces[face]);
    var (p, o) := Register(b.platesAt, b.plateOrder, ref, net.faces[face]);
    b.(elements := b.elements + [PlateOn(face)], platesAt := p, plateOrder := o)
  }

  function FloorsFold(net: Net, b: Build, floors: seq<nat>): Build
    requires FacesOf(net, floors)
    decreases |floors|
  {
    if floors == [] then b else FloorsFold(net, FloorStep(net, b, floors[0]), floors[1..])
  }

  // ---------------------------------------------------------------------
  // The interaction helpers
  // ---------------------------------------------------------------------

  /** A cutter on face `face` of the head hr, cutting `target`, and the plain head -> target edge. */
  function AddCutter(b: Build, hr: HeadRef, face: int, target: nat): Build
  {
    var c := |b.elements|;
    b.(elements := b.elements + [CutterOn(hr.id, face)],
       interactions := b.interactions + [Interaction(c, target, InterfaceCutter), Interaction(hr.id, target, Plain)])
  }

  /** The two cutter-model parts at the top of a column under head h. */
  function AddCutterParts(b: Build, h: nat, column: nat): Build
  {
    var c := |b.elements|;
    b.(elements := b.elements + [CutterPart(0, h, 0), CutterPart(1, h, 0)],
       interactions := b.interactions + [Interaction(c, column, InterfaceCutter),
                                         Interaction(c + 1, h, BooleanDifference),
                                         Interaction(c + 1, column, BooleanDifference),
                                         Interaction(h, column, Plain)])
  }

  /**
   * add_interaction_column_and_column_head(edge). At the upper end: the
   * cutter model's first element cuts the column, its second element is
   * subtracted from the head and from the column, and a plain head ->
   * column edge. At the lower end: a cutter on the head's face 1 cuts the
   * column, and a plain head -> column edge. At either end with a head a
   * missing cutter template raises AttributeError (`cutter.copy()` comes
   * first), and at the upper end so does a missing cutter model. A cutter
   * model with fewer than two elements raises IndexError at an upper end
   * with a head, an unregistered column KeyError (the cutter model is
   * indexed first).
   */
  function ColumnInteractionStep(net: Net, t: Templates, b: Build, edge: NodePair): (r: Result<Build>)
    requires IsVertex(net, edge.0) && IsVertex(net, edge.1)
    ensures var top := CreaModel.HeadVertex(net.xyz, edge);
      var base := CreaModel.BaseVertex(net.xyz, edge);
      var parts := if t.cutterModel.Some? then t.cutterModel.value else 0;
      (r.Err? <==> (top in b.headOf || base in b.headOf) && (!t.cutter || edge !in b.columnOf || (top in b.headOf && parts < 2)))
      && (r.Err? ==>
            r.error == (if !t.cutter || (top in b.headOf && t.cutterModel.None?) then AttributeError
                        else if top in b.headOf && (parts == 0 || (parts == 1 && edge in b.columnOf)) then IndexError
                        else KeyError))
      && (r.Ok? ==>
            |r.value.elements| == |b.elements| + (if top in b.headOf then 2 else 0) + (if base in b.headOf then 1 else 0)
            && |r.value.interactions| == |b.interactions| + (if top in b.headOf then 4 else 0) + (if base in b.headOf then 2 else 0))
  {
    var top := CreaModel.HeadVertex(net.xyz, edge);
    var base := CreaModel.BaseVertex(net.xyz, edge);
    var upper :=
      if top !in b.headOf then Ok(b)
      else if !t.cutter || t.cutterModel.None? then Err(AttributeError)
      else if t.cutterModel.value == 0 then Err(IndexError)
      else if edge !in b.columnOf then Err(KeyError)
      else if t.cutterModel.value == 1 then Err(IndexError)
      else Ok(AddCutterParts(b, b.headOf[top].id, b.columnOf[edge]));
    match upper
    case Err(x) => Err(x)
    case Ok(b1) =>
      if base !in b1.headOf then Ok(b1)
      else if !t.cutter then Err(AttributeError)
      else if edge !in b1.columnOf then Err(KeyError)
      else Ok(AddCutter(b1, b1.headOf[base], 1, b1.columnOf[edge]))
  }

  function ColumnInteractionsFold(net: Net, t: Templates, b: Build, cols: seq<NodePair>): Result<Build>
    requires EdgesOf(net, cols)
    decreases |cols|
  {
    if cols == [] then Ok(b)
    else
      match ColumnInteractionStep(net, t, b, cols[0])
      case Err(x) => Err(x)
      case Ok(b1) => ColumnInteractionsFold(net, t, b1, cols[1..])
  }

  /**
   * One end of add_interaction_beam_and_column_head: when `at` has a head,
   * a cutter on the head face tagged with the cardinal direction towards
   * `other`; no such face raises IndexError, and a missing cutter
   * template AttributeError once the face is found.
   */
  function BeamEnd(net: Net, t: Templates, b: Build, beam: nat, at: int, other: int): Result<Build>
    requires IsVertex(net, at) && IsVertex(net, other)
  {
    if at !in b.headOf then Ok(b)
    else
      var hr := b.headOf[at];
      match DirectionOf(Sub(net.xyz[other], net.xyz[at]))
      case Err(x) => Err(x)
      case Ok(d) =>
        var keys := FacesWhere(hr.head.shape.faces, d);
        if keys == [] then Err(IndexError)
        else if !t.cutter then Err(AttributeError)
        else Ok(AddCutter(b, hr, keys[0], beam))
  }

  /** add_interaction_beam_and_column_head(edge): the edge[0] end, then the edge[1] end. */
  function BeamInteractionStep(net: Net, t: Templates, b: Build, edge: NodePair): Result<Build>
    requires IsVertex(net, edge.0) && IsVertex(net, edge.1)
  {
    if edge !in b.beamOf then Err(KeyError)
    else
      match BeamEnd(net, t, b, b.beamOf[edge], edge.0, edge.1)
      case Err(x) => Err(x)
      case Ok(b1) => BeamEnd(net, t, b1, b.beamOf[edge], edge.1, edge.0)
  }

  function BeamInteractionsFold(net: Net, t: Templates, b: Build, beams: seq<NodePair>): Result<Build>
    requires EdgesOf(net, beams)
    decreases |beams|
  {
    if beams == [] then Ok(b)
    else
      match BeamInteractionStep(net, t, b, beams[0])
      case Err(x) => Err(x)
      case Ok(b1) => BeamInteractionsFold(net, t, b1, beams[1..])
  }

  /** face.index(vertex): the first position of the vertex. */
  function IndexOf(face: seq<int>, vertex: int): (i: nat)
    requires vertex in face
    ensures i < |face| && face[i] == vertex && vertex !in face[..i]
  {
    if face[0] == vertex then 0 else 1 + IndexOf(face[1..], vertex)
  }

  /** vertex_point(a) - vertex_point(b); an unknown vertex raises KeyError. */
  function Towards(net: Net, a: int, b: int): Result<Vector>
  {
    if !IsVertex(net, a) || !IsVertex(net, b) then Err(KeyError) else Ok(Sub(net.xyz[a], net.xyz[b]))
  }

  /** closest_direction(vertex_point(a) - vertex_point(b)) */
  function DirectionTowards(net: Net, a: int, b: int): Result<Direction>
  {
    match Towards(net, a, b)
    case Err(x) => Err(x)
    case Ok(u) => DirectionOf(u)
  }

  /**
   * The diagonal of a floor corner: the cardinal directions towards the
   * previous and the next vertex of the face (cyclically), combined.
   */
  function CornerDirection(net: Net, face: seq<int>, vertex: int): Result<Direction>
  {
    if vertex !in face then Err(ValueError)
    else
      var i := IndexOf(face, vertex);
      var prev := (i - 1) % |face|;
      var next := (i + 1) % |face|;
      match DirectionTowards(net, face[prev], face[i])
      case Err(x) => Err(x)
      case Ok(d0) =>
        match DirectionTowards(net, face[next], face[i])
        case Err(x) => Err(x)
        case Ok(d1) =>
          match Combine(d0, d1)
          case None => Err(KeyError)
          case Some(d) => Ok(d)
  }

  /** One plate of add_interaction_floor_and_column_head: a cutter on the head face of the corner's diagonal. */
  function CornerStep(net: Net, t: Templates, b: Build, hr: HeadRef, vertex: int, ref: PlateRef): Result<Build>
  {
    match CornerDirection(net, ref.face, vertex)
    case Err(x) => Err(x)
    case Ok(d) =>
      var keys := FacesWhere(hr.head.shape.faces, d);
      if keys == [] then Err(IndexError)
      else if !t.cutter then Err(AttributeError)
      else Ok(AddCutter(b, hr, keys[0], ref.plate))
  }

  function CornersFold(net: Net, t: Templates, b: Build, hr: HeadRef, vertex: int, refs: seq<PlateRef>): Result<Build>
    decreases |refs|
  {
    if refs == [] then Ok(b)
    else
      match CornerStep(net, t, b, hr, vertex, refs[0])
      case Err(x) => Err(x)
      case Ok(b1) => CornersFold(net, t, b1, hr, vertex, refs[1..])
  }

  /** add_interaction_floor_and_column_head(vertex, plates_and_faces): nothing without a head. */
  function FloorInteractionStep(net: Net, t: Templates, b: Build, vertex: int, refs: seq<PlateRef>): Result<Build>
  {
    if vertex !in b.headOf then Ok(b) else CornersFold(net, t, b, b.headOf[vertex], vertex, refs)
  }

  /** The items() loop over vertex_to_plates_and_faces, in key insertion order. */
  function FloorInteractionsFold(net: Net, t: Templates, platesAt: map<int, seq<PlateRef>>, b: Build, order: seq<int>): Result<Build>
    decreases |order|
  {
    if order == [] then Ok(b)
    else
      var refs := if order[0] in platesAt then platesAt[order[0]] else [];
      match FloorInteractionStep(net, t, b, order[0], refs)
      case Err(x) => Err(x)
      case Ok(b1) => FloorInteractionsFold(net, t, platesAt, b1, order[1..])
  }

  // ---------------------------------------------------------------------
  // The whole builder
  // ---------------------------------------------------------------------

  /**
   * The four element loops. A missing column, beam or plate template
   * raises AttributeError at the first element of its loop (`rebuild` or
   * `copy` is the first call on the template that can fail).
   */
  function ElementPhase(net: Net, t: Templates, dims: Dimensions,
                        cols: seq<NodePair>, beams: seq<NodePair>, floors: seq<nat>): Result<Build>
    requires NetOK(net) && EdgesOf(net, cols) && EdgesOf(net, beams) && FacesOf(net, floors)
  {
    match HeadsFold(TemplateHeads(net, t.columnHead, dims), net, Empty, cols)
    case Err(x) => Err(x)
    case Ok(b1) => AfterHeads(net, t, b1, cols, beams, floors)
  }

  /** The column, beam and floor loops, which follow the head loop. */
  function AfterHeads(net: Net, t: Templates, b1: Build, cols: seq<NodePair>, beams: seq<NodePair>, floors: seq<nat>): Result<Build>
    requires FacesOf(net, floors)
  {
    if cols != [] && !t.column then Err(AttributeError)
    else if beams != [] && !t.beam then Err(AttributeError)
    else if floors != [] && !t.plate then Err(AttributeError)
    else Ok(FloorsFold(net, BeamsFold(ColumnsFold(b1, cols), beams), floors))
  }

  /** Every template the element loops use is there. */
  predicate ElementTemplates(t: Templates, cols: seq<NodePair>, beams: seq<NodePair>, floors: seq<nat>)
  {
    (cols != [] ==> t.columnHead.Some? && t.column) && (beams != [] ==> t.beam) && (floors != [] ==> t.plate)
  }

  function ElementLoops(heads: int --> Result<ColumnHeadCross>, net: Net,
                        cols: seq<NodePair>, beams: seq<NodePair>, floors: seq<nat>): Result<Build>
    requires Builds(heads, net) && EdgesOf(net, cols) && EdgesOf(net, beams) && FacesOf(net, floors)
  {
    match HeadsFold(heads, net, Empty, cols)
    case Err(x) => Err(x)
    case Ok(b1) => Ok(FloorsFold(net, BeamsFold(ColumnsFold(b1, cols), beams), floors))
  }

  /** The three interaction loops. */
  function InteractionPhase(net: Net, t: Templates, b: Build, cols: seq<NodePair>, beams: seq<NodePair>): Result<Build>
    requires EdgesOf(net, cols) && EdgesOf(net, beams)
  {
    match ColumnInteractionsFold(net, t, b, cols)
    case Err(x) => Err(x)
    case Ok(b1) =>
      match BeamInteractionsFold(net, t, b1, beams)
      case Err(x) => Err(x)
      case Ok(b2) => FloorInteractionsFold(net, t, b.platesAt, b2, b.plateOrder)
  }

  /**
   * from_lines_and_surfaces after the network queries: t the templates it
   * was given, dims the dimensions the shared column-head shape already
   * holds (the template head was built before).
   */
  function GridBuild(net: Net, t: Templates, dims: Dimensions,
                     cols: seq<NodePair>, beams: seq<NodePair>, floors: seq<nat>): Result<Build>
    requires NetOK(net) && EdgesOf(net, cols) && EdgesOf(net, beams) && FacesOf(net, floors)
  {
    match ElementPhase(net, t, dims, cols, beams, floors)
    case Err(x) => Err(x)
    case Ok(b) => InteractionPhase(net, t, b, cols, beams)
  }
  // ---------------------------------------------------------------------
  // What the builder produces
  // ---------------------------------------------------------------------

  /** Every dictionary entry names an element of its own kind. */
  ghost predicate Registered(b: Build)
  {
    (forall v :: v in b.headOf ==>
       b.headOf[v].id < |b.elements| && b.elements[b.headOf[v].id] == ColumnHeadAt(v, b.headOf[v].head))
    && (forall e :: e in b.columnOf ==> b.columnOf[e] < |b.elements| && b.elements[b.columnOf[e]] == ColumnOn(e))
    && (forall e :: e in b.beamOf ==> b.beamOf[e] < |b.elements| && b.elements[b.beamOf[e]] == BeamOn(e))
    && (forall v, r :: v in b.platesAt && r in b.platesAt[v] ==> r.plate < |b.elements| && b.elements[r.plate].PlateOn?)
    && OrderMatches(b.platesAt, b.plateOrder)
  }

  /**
   * An interaction of the grid: a cutter element cuts (InterfaceCutter) or
   * is subtracted from (BooleanDifference) an element that is not a cutter,
   * and a plain interaction joins a head to such an element.
   */
  predicate SoundEdge(els: seq<GridElement>, r: Interaction)
  {
    r.source < |els| && r.target < |els| && r.source != r.target && !IsCutter(els[r.target])
    && (r.kind.InterfaceCutter? || r.kind.BooleanDifference? ==> IsCutter(els[r.source]))
    && (r.kind.Plain? ==> els[r.source].ColumnHeadAt?)
    && !r.kind.CutterInterface?
  }

  ghost predicate Sound(b: Build)
  {
    forall i :: 0 <= i < |b.interactions| ==> SoundEdge(b.elements, b.interactions[i])
  }

  /** b2 is b with cutter elements and interactions appended, and the dictionaries as they were. */
  ghost predicate CuttersAdded(b: Build, b2: Build)
  {
    |b.elements| <= |b2.elements| && b2.elements[..|b.elements|] == b.elements
    && (forall k :: |b.elements| <= k < |b2.elements| ==> IsCutter(b2.elements[k]))
    && |b.interactions| <= |b2.interactions| && b2.interactions[..|b.interactions|] == b.interactions
    && b2.headOf == b.headOf && b2.columnOf == b.columnOf && b2.beamOf == b.beamOf
    && b2.platesAt == b.platesAt && b2.plateOrder == b.plateOrder
  }

  lemma CuttersAddedTransitive(b: Build, b1: Build, b2: Build)
    requires CuttersAdded(b, b1) && CuttersAdded(b1, b2)
    ensures CuttersAdded(b, b2)
  {
    assert b2.elements[..|b.elements|] == b2.elements[..|b1.elements|][..|b.elements|];
    assert b2.interactions[..|b.interactions|] == b2.interactions[..|b1.interactions|][..|b.interactions|];
    forall k | |b.elements| <= k < |b2.elements|
      ensures IsCutter(b2.elements[k])
    {
      if k < |b1.elements| {
        assert b2.elements[k] == b2.elements[..|b1.elements|][k];
      }
    }
  }

  /** Appending elements and sound interactions keeps the registrations and the soundness. */
  lemma Grown(b: Build, b2: Build)
    requires Registered(b) && Sound(b) && CuttersAdded(b, b2)
    requires forall i :: |b.interactions| <= i < |b2.interactions| ==> SoundEdge(b2.elements, b2.interactions[i])
    ensures Registered(b2) && Sound(b2)
  {
    forall k | 0 <= k < |b.elements|
      ensures b2.elements[k] == b.elements[k]
    {
      assert b2.elements[..|b.elements|][k] == b.elements[k];
    }
    forall i | 0 <= i < |b.interactions|
      ensures SoundEdge(b2.elements, b2.interactions[i])
    {
      assert b2.interactions[..|b.interactions|][i] == b.interactions[i];
    }
  }

  /** A cutter on a registered head, aimed at a registered element that is not a cutter. */
  lemma AddCutterSound(b: Build, v: int, face: int, target: nat)
    requires Registered(b) && Sound(b) && v in b.headOf
    requires target < |b.elements| && !IsCutter(b.elements[target]) && target != b.headOf[v].id
    ensures Registered(AddCutter(b, b.headOf[v], face, target)) && Sound(AddCutter(b, b.headOf[v], face, target))
    ensures CuttersAdded(b, AddCutter(b, b.headOf[v], face, target))
  {
    var b2 := AddCutter(b, b.headOf[v], face, target);
    assert b2.elements[..|b.elements|] == b.elements;
    assert b2.interactions[..|b.interactions|] == b.interactions;
    Grown(b, b2);
  }

  lemma AddCutterPartsSound(b: Build, v: int, column: nat)
    requires Registered(b) && Sound(b) && v in b.headOf
    requires column < |b.elements| && b.elements[column].ColumnOn?
    ensures var b1 := AddCutterParts(b, b.headOf[v].id, column);
      Registered(b1) && Sound(b1) && CuttersAdded(b, b1)
  {
    var b1 := AddCutterParts(b, b.headOf[v].id, column);
    assert b1.elements[..|b.elements|] == b.elements;
    assert b1.interactions[..|b.interactions|] == b.interactions;
    Grown(b, b1);
  }

  /** The interactions at one column join cutters and heads to the column only. */
  lemma ColumnInteractionStepHolds(net: Net, t: Templates, b: Build, edge: NodePair)
    requires IsVertex(net, edge.0) && IsVertex(net, edge.1)
    requires Registered(b) && Sound(b)
    ensures var r := ColumnInteractionStep(net, t, b, edge);
      r.Ok? ==> Registered(r.value) && Sound(r.value) && CuttersAdded(b, r.value)
  {
    var top := CreaModel.HeadVertex(net.xyz, edge);
    var base := CreaModel.BaseVertex(net.xyz, edge);
    var r := ColumnInteractionStep(net, t, b, edge);
    if r.Ok? {
      var b1 := if top in b.headOf then AddCutterParts(b, b.headOf[top].id, b.columnOf[edge]) else b;
      assert Registered(b1) && Sound(b1) && CuttersAdded(b, b1) by {
        if top in b.headOf {
          AddCutterPartsSound(b, top, b.columnOf[edge]);
        } else {
          CuttersAddedSelf(b);
        }
      }
      assert r == if base !in b1.headOf then Ok(b1) else if !t.cutter then Err(AttributeError)
                  else if edge !in b1.columnOf then Err(KeyError)
                  else Ok(AddCutter(b1, b1.headOf[base], 1, b1.columnOf[edge]));
      if base in b1.headOf {
        AddCutterSound(b1, base, 1, b1.columnOf[edge]);
        CuttersAddedTransitive(b, b1, r.value);
      }
    }
  }

  lemma CuttersAddedSelf(b: Build)
    ensures CuttersAdded(b, b)
  {
    assert b.elements[..|b.elements|] == b.elements;
    assert b.interactions[..|b.interactions|] == b.interactions;
  }

  lemma {:induction false} ColumnInteractionsFoldHolds(net: Net, t: Templates, b: Build, cols: seq<NodePair>)
    requires EdgesOf(net, cols) && Registered(b) && Sound(b)
    ensures var r := ColumnInteractionsFold(net, t, b, cols);
      r.Ok? ==> Registered(r.value) && Sound(r.value) && CuttersAdded(b, r.value)
    decreases |cols|
  {
    if cols != [] {
      ColumnInteractionStepHolds(net, t, b, cols[0]);
      if ColumnInteractionStep(net, t, b, cols[0]).Ok? {
        var b1 := ColumnInteractionStep(net, t, b, cols[0]).value;
        ColumnInteractionsFoldHolds(net, t, b1, cols[1..]);
        if ColumnInteractionsFold(net, t, b, cols).Ok? {
          CuttersAddedTransitive(b, b1, ColumnInteractionsFold(net, t, b, cols).value);
        }
      }
    }
  }

  /** Elements at indices below |b.elements| stay where they are. */
  lemma KeptAt(b: Build, b2: Build, k: nat)
    requires CuttersAdded(b, b2) && k < |b.elements|
    ensures k < |b2.elements| && b2.elements[k] == b.elements[k]
  {
    assert b2.elements[..|b.elements|][k] == b.elements[k];
  }

  lemma BeamEndHolds(net: Net, t: Templates, b: Build, beam: nat, at: int, other: int)
    requires IsVertex(net, at) && IsVertex(net, other)
    requires Registered(b) && Sound(b) && beam < |b.elements| && b.elements[beam].BeamOn?
    ensures var r := BeamEnd(net, t, b, beam, at, other);
      r.Ok? ==> Registered(r.value) && Sound(r.value) && CuttersAdded(b, r.value)
  {
    if at in b.headOf {
      match DirectionOf(Sub(net.xyz[other], net.xyz[at]))
      case Err(_) =>
      case Ok(d) =>
        var keys := FacesWhere(b.headOf[at].head.shape.faces, d);
        if keys != [] {
          AddCutterSound(b, at, keys[0], beam);
        }
    } else {
      assert b.elements[..|b.elements|] == b.elements && b.interactions[..|b.interactions|] == b.interactions;
    }
  }

  lemma BeamInteractionStepHolds(net: Net, t: Templates, b: Build, edge: NodePair)
    requires IsVertex(net, edge.0) && IsVertex(net, edge.1) && Registered(b) && Sound(b)
    ensures var r := BeamInteractionStep(net, t, b, edge);
      r.Ok? ==> Registered(r.value) && Sound(r.value) && CuttersAdded(b, r.value)
  {
    if edge in b.beamOf {
      var beam := b.beamOf[edge];
      BeamEndHolds(net, t, b, beam, edge.0, edge.1);
      if BeamEnd(net, t, b, beam, edge.0, edge.1).Ok? {
        var b1 := BeamEnd(net, t, b, beam, edge.0, edge.1).value;
        KeptAt(b, b1, beam);
        BeamEndHolds(net, t, b1, beam, edge.1, edge.0);
        if BeamEnd(net, t, b1, beam, edge.1, edge.0).Ok? {
          CuttersAddedTransitive(b, b1, BeamEnd(net, t, b1, beam, edge.1, edge.0).value);
        }
      }
    }
  }

  lemma {:induction false} BeamInteractionsFoldHolds(net: Net, t: Templates, b: Build, beams: seq<NodePair>)
    requires EdgesOf(net, beams) && Registered(b) && Sound(b)
    ensures var r := BeamInteractionsFold(net, t, b, beams);
      r.Ok? ==> Registered(r.value) && Sound(r.value) && CuttersAdded(b, r.value)
    decreases |beams|
  {
    if beams == [] {
      assert b.elements[..|b.elements|] == b.elements && b.interactions[..|b.interactions|] == b.interactions;
    } else {
      BeamInteractionStepHolds(net, t, b, beams[0]);
      if BeamInteractionStep(net, t, b, beams[0]).Ok? {
        var b1 := BeamInteractionStep(net, t, b, beams[0]).value;
        BeamInteractionsFoldHolds(net, t, b1, beams[1..]);
        if BeamInteractionsFold(net, t, b, beams).Ok? {
          CuttersAddedTransitive(b, b1, BeamInteractionsFold(net, t, b, beams).value);
        }
      }
    }
  }

  /** Every listed plate is a plate element of b. */
  ghost predicate PlatesIn(b: Build, refs: seq<PlateRef>)
  {
    forall i :: 0 <= i < |refs| ==> refs[i].plate < |b.elements| && b.elements[refs[i].plate].PlateOn?
  }

  lemma {:induction false} CornersFoldHolds(net: Net, t: Templates, b: Build, vertex: int, refs: seq<PlateRef>)
    requires Registered(b) && Sound(b) && vertex in b.headOf && PlatesIn(b, refs)
    ensures var r := CornersFold(net, t, b, b.headOf[vertex], vertex, refs);
      r.Ok? ==> Registered(r.value) && Sound(r.value) && CuttersAdded(b, r.value)
    decreases |refs|
  {
    if refs == [] {
      CuttersAddedSelf(b);
    } else {
      var hr := b.headOf[vertex];
      var step := CornerStep(net, t, b, hr, vertex, refs[0]);
      if step.Ok? {
        var b1 := step.value;
        assert Registered(b1) && Sound(b1) && CuttersAdded(b, b1) && vertex in b1.headOf && b1.headOf[vertex] == hr
          && PlatesIn(b1, refs[1..]) by {
          CornerStepHolds(net, t, b, vertex, refs[0]);
          forall i | 0 <= i < |refs[1..]|
            ensures refs[1..][i].plate < |b1.elements| && b1.elements[refs[1..][i].plate].PlateOn?
          {
            KeptAt(b, b1, refs[i + 1].plate);
          }
        }
        CornersFoldHolds(net, t, b1, vertex, refs[1..]);
        assert CornersFold(net, t, b, hr, vertex, refs) == CornersFold(net, t, b1, hr, vertex, refs[1..]);
        var r := CornersFold(net, t, b, hr, vertex, refs);
        if r.Ok? {
          CuttersAddedTransitive(b, b1, r.value);
        }
      }
    }
  }

  /** One corner: a cutter on the head face that looks towards the plate, aimed at the plate. */
  lemma CornerStepHolds(net: Net, t: Templates, b: Build, vertex: int, ref: PlateRef)
    requires Registered(b) && Sound(b) && vertex in b.headOf
    requires ref.plate < |b.elements| && b.elements[ref.plate].PlateOn?
    ensures var r := CornerStep(net, t, b, b.headOf[vertex], vertex, ref);
      r.Ok? ==> Registered(r.value) && Sound(r.value) && CuttersAdded(b, r.value)
  {
    var hr := b.headOf[vertex];
    match CornerDirection(net, ref.face, vertex)
    case Err(_) =>
    case Ok(d) =>
      var keys := FacesWhere(hr.head.shape.faces, d);
      if keys != [] {
        AddCutterSound(b, vertex, keys[0], ref.plate);
      }
  }

  /** The corners at one vertex keep the build registered and sound. */
  lemma FloorInteractionStepHolds(net: Net, t: Templates, b: Build, v: int)
    requires Registered(b) && Sound(b)
    ensures var r := FloorInteractionStep(net, t, b, v, if v in b.platesAt then b.platesAt[v] else []);
      r.Ok? ==> Registered(r.value) && Sound(r.value) && CuttersAdded(b, r.value)
  {
    var refs := if v in b.platesAt then b.platesAt[v] else [];
    if v in b.headOf {
      forall i | 0 <= i < |refs|
        ensures refs[i].plate < |b.elements| && b.elements[refs[i].plate].PlateOn?
      {
        var r := refs[i];
        assert r in b.platesAt[v];
      }
      CornersFoldHolds(net, t, b, v, refs);
    } else {
      CuttersAddedSelf(b);
    }
  }

  lemma {:induction false} FloorInteractionsFoldHolds(net: Net, t: Templates, b: Build, order: seq<int>)
    requires Registered(b) && Sound(b)
    ensures var r := FloorInteractionsFold(net, t, b.platesAt, b, order);
      r.Ok? ==> Registered(r.value) && Sound(r.value) && CuttersAdded(b, r.value)
    decreases |order|
  {
    if order == [] {
      CuttersAddedSelf(b);
    } else {
      var v := order[0];
      var refs := if v in b.platesAt then b.platesAt[v] else [];
      var step := FloorInteractionStep(net, t, b, v, refs);
      if step.Ok? {
        var b1 := step.value;
        assert Registered(b1) && Sound(b1) && CuttersAdded(b, b1) by {
          FloorInteractionStepHolds(net, t, b, v);
        }
        assert b1.platesAt == b.platesAt;
        var r := FloorInteractionsFold(net, t, b.platesAt, b, order);
        assert r == FloorInteractionsFold(net, t, b1.platesAt, b1, order[1..]);
        FloorInteractionsFoldHolds(net, t, b1, order[1..]);
        if r.Ok? {
          CuttersAddedTransitive(b, b1, r.value);
        }
      }
    }
  }


  // ---------------------------------------------------------------------
  // The element loops
  // ---------------------------------------------------------------------

  /** The head of a column can be built: its junction reads and its rules are consistent. */
  ghost predicate HeadBuildable(heads: int --> Result<ColumnHeadCross>, net: Net, edge: NodePair)
    requires Builds(heads, net) && IsVertex(net, edge.0) && IsVertex(net, edge.1)
  {
    heads(CreaModel.HeadVertex(net.xyz, edge)).Ok?
  }

  lemma PrefixTransitive<T>(a: seq<T>, a1: seq<T>, a2: seq<T>)
    requires |a| <= |a1| && a1[..|a|] == a && |a1| <= |a2| && a2[..|a1|] == a1
    ensures a2[..|a|] == a
  {
    assert a2[..|a|] == a2[..|a1|][..|a|];
  }

  lemma PrefixAt<T>(a: seq<T>, a2: seq<T>, i: int)
    requires |a| <= |a2| && a2[..|a|] == a && 0 <= i < |a|
    ensures a2[i] == a[i]
  {
    assert a2[..|a|][i] == a2[i];
  }

  lemma EdgesOfTail(net: Net, es: seq<NodePair>)
    requires es != [] && EdgesOf(net, es)
    ensures EdgesOf(net, es[1..])
  {
    forall i | 0 <= i < |es[1..]| ensures IsVertex(net, es[1..][i].0) && IsVertex(net, es[1..][i].1) {
      assert es[1..][i] == es[i + 1];
    }
  }

  /** The head loop fails exactly when the head of some column cannot be built. */
  lemma {:induction false} HeadsFoldOk(heads: int --> Result<ColumnHeadCross>, net: Net, b: Build, cols: seq<NodePair>)
    requires Builds(heads, net) && EdgesOf(net, cols)
    ensures HeadsFold(heads, net, b, cols).Ok?
            <==> forall k :: 0 <= k < |cols| ==> HeadBuildable(heads, net, cols[k])
    decreases |cols|
  {
    if cols != [] {
      EdgesOfTail(net, cols);
      assert forall k :: 0 <= k < |cols[1..]| ==> cols[1..][k] == cols[k + 1];
      if HeadStep(heads, net, b, cols[0]).Ok? {
        HeadsFoldOk(heads, net, HeadStep(heads, net, b, cols[0]).value, cols[1..]);
      }
    }
  }

  /** The head loop only appends elements and extends headOf. */
  lemma {:induction false} HeadsFoldShape(heads: int --> Result<ColumnHeadCross>, net: Net, b: Build, cols: seq<NodePair>)
    requires Builds(heads, net) && EdgesOf(net, cols)
    ensures var r := HeadsFold(heads, net, b, cols);
      r.Ok? ==>
        |r.value.elements| == |b.elements| + |cols| && r.value.elements[..|b.elements|] == b.elements
        && r.value.interactions == b.interactions && r.value.columnOf == b.columnOf && r.value.beamOf == b.beamOf
        && r.value.platesAt == b.platesAt && r.value.plateOrder == b.plateOrder
    decreases |cols|
  {
    if cols == [] {
      assert b.elements[..|b.elements|] == b.elements;
    } else if HeadStep(heads, net, b, cols[0]).Ok? {
      EdgesOfTail(net, cols);
      var b1 := HeadStep(heads, net, b, cols[0]).value;
      assert b1.elements[..|b.elements|] == b.elements;
      HeadsFoldShape(heads, net, b1, cols[1..]);
      if HeadsFold(heads, net, b, cols).Ok? {
        PrefixTransitive(b.elements, b1.elements, HeadsFold(heads, net, b, cols).value.elements);
      }
    }
  }

  /** Element i is a column head at vertex v. */
  predicate HeadAt(els: seq<GridElement>, i: int, v: int)
  {
    0 <= i < |els| && els[i].ColumnHeadAt? && els[i].vertex == v
  }

  /** The head of column k sits at position |b.elements| + k, at the column's upper end, and is registered there. */
  lemma {:induction false} HeadsFoldElementAt(heads: int --> Result<ColumnHeadCross>, net: Net, b: Build, cols: seq<NodePair>, k: nat)
    requires Builds(heads, net) && EdgesOf(net, cols) && k < |cols|
    ensures var r := HeadsFold(heads, net, b, cols);
      var top := CreaModel.HeadVertex(net.xyz, cols[k]);
      r.Ok? ==> HeadAt(r.value.elements, |b.elements| + k, top) && top in r.value.headOf
    decreases |cols|
  {
    if HeadStep(heads, net, b, cols[0]).Ok? {
      EdgesOfTail(net, cols);
      var b1 := HeadStep(heads, net, b, cols[0]).value;
      var r := HeadsFold(heads, net, b, cols);
      assert r == HeadsFold(heads, net, b1, cols[1..]);
      if k == 0 {
        var top := CreaModel.HeadVertex(net.xyz, cols[0]);
        assert HeadAt(b1.elements, |b.elements|, top) && top in b1.headOf;
        HeadsFoldShape(heads, net, b1, cols[1..]);
        HeadsKept(heads, net, b1, cols[1..], top);
        if r.Ok? {
          assert r.value.elements[..|b1.elements|][|b.elements|] == b1.elements[|b.elements|];
        }
      } else {
        HeadsFoldElementAt(heads, net, b1, cols[1..], k - 1);
        assert cols[1..][k - 1] == cols[k];
      }
    }
  }

  /** The head loop appends one head per column, at the column's upper end, and registers it under that vertex. */
  lemma HeadsFoldElements(heads: int --> Result<ColumnHeadCross>, net: Net, b: Build, cols: seq<NodePair>)
    requires Builds(heads, net) && EdgesOf(net, cols)
    ensures var r := HeadsFold(heads, net, b, cols);
      r.Ok? ==>
        forall k :: 0 <= k < |cols| ==>
          var top := CreaModel.HeadVertex(net.xyz, cols[k]);
          HeadAt(r.value.elements, |b.elements| + k, top) && top in r.value.headOf
  {
    forall k | 0 <= k < |cols|
      ensures var r := HeadsFold(heads, net, b, cols);
        var top := CreaModel.HeadVertex(net.xyz, cols[k]);
        r.Ok? ==> HeadAt(r.value.elements, |b.elements| + k, top) && top in r.value.headOf
    {
      HeadsFoldElementAt(heads, net, b, cols, k);
    }
  }

  /** The head loop registers heads under the upper ends of the columns and nowhere else. */
  lemma {:induction false} HeadsFoldKeys(heads: int --> Result<ColumnHeadCross>, net: Net, b: Build, cols: seq<NodePair>)
    requires Builds(heads, net) && EdgesOf(net, cols)
    ensures var r := HeadsFold(heads, net, b, cols);
      r.Ok? ==>
        forall v :: v in r.value.headOf ==>
          v in b.headOf || exists k :: 0 <= k < |cols| && v == CreaModel.HeadVertex(net.xyz, cols[k])
    decreases |cols|
  {
    if cols != [] && HeadStep(heads, net, b, cols[0]).Ok? {
      EdgesOfTail(net, cols);
      var b1 := HeadStep(heads, net, b, cols[0]).value;
      HeadsFoldKeys(heads, net, b1, cols[1..]);
      var r := HeadsFold(heads, net, b, cols);
      if r.Ok? {
        forall v | v in r.value.headOf
          ensures v in b.headOf || exists k :: 0 <= k < |cols| && v == CreaModel.HeadVertex(net.xyz, cols[k])
        {
          if v !in b1.headOf {
            var k :| 0 <= k < |cols[1..]| && v == CreaModel.HeadVertex(net.xyz, cols[1..][k]);
            assert cols[1..][k] == cols[k + 1];
          } else if v !in b.headOf {
            assert v == CreaModel.HeadVertex(net.xyz, cols[0]);
          }
        }
      }
    }
  }

  /** A vertex with a head keeps one through the rest of the head loop. */
  lemma {:induction false} HeadsKept(heads: int --> Result<ColumnHeadCross>, net: Net, b: Build, cols: seq<NodePair>, v: int)
    requires Builds(heads, net) && EdgesOf(net, cols) && v in b.headOf
    ensures var r := HeadsFold(heads, net, b, cols);
      r.Ok? ==> v in r.value.headOf
    decreases |cols|
  {
    if cols != [] && HeadStep(heads, net, b, cols[0]).Ok? {
      EdgesOfTail(net, cols);
      HeadsKept(heads, net, HeadStep(heads, net, b, cols[0]).value, cols[1..], v);
    }
  }

  lemma HeadStepRegistered(heads: int --> Result<ColumnHeadCross>, net: Net, b: Build, edge: NodePair)
    requires Builds(heads, net) && IsVertex(net, edge.0) && IsVertex(net, edge.1) && Registered(b)
    ensures var r := HeadStep(heads, net, b, edge);
      r.Ok? ==> Registered(r.value)
  {
    var r := HeadStep(heads, net, b, edge);
    if r.Ok? {
      var top := CreaModel.HeadVertex(net.xyz, edge);
      var b1 := r.value;
      assert forall k :: 0 <= k < |b.elements| ==> b1.elements[k] == b.elements[k];
      forall v | v in b1.headOf
        ensures b1.headOf[v].id < |b1.elements| && b1.elements[b1.headOf[v].id] == ColumnHeadAt(v, b1.headOf[v].head)
      {
        if v != top {
          assert b1.headOf[v] == b.headOf[v];
        }
      }
    }
  }

  lemma {:induction false} HeadsFoldRegistered(heads: int --> Result<ColumnHeadCross>, net: Net, b: Build, cols: seq<NodePair>)
    requires Builds(heads, net) && EdgesOf(net, cols) && Registered(b)
    ensures var r := HeadsFold(heads, net, b, cols);
      r.Ok? ==> Registered(r.value)
    decreases |cols|
  {
    if cols != [] {
      EdgesOfTail(net, cols);
      HeadStepRegistered(heads, net, b, cols[0]);
      if HeadStep(heads, net, b, cols[0]).Ok? {
        HeadsFoldRegistered(heads, net, HeadStep(heads, net, b, cols[0]).value, cols[1..]);
      }
    }
  }

  lemma ColumnStepRegistered(b: Build, edge: NodePair)
    requires Registered(b)
    ensures Registered(ColumnStep(b, edge))
  {
    var b1 := ColumnStep(b, edge);
    assert forall k :: 0 <= k < |b.elements| ==> b1.elements[k] == b.elements[k];
  }

  /** The column loop appends one column per column edge and registers it under its edge. */
  lemma {:induction false} ColumnsFoldLayout(b: Build, cols: seq<NodePair>)
    ensures var r := ColumnsFold(b, cols);
      |r.elements| == |b.elements| + |cols| && r.elements[..|b.elements|] == b.elements
      && (forall k :: 0 <= k < |cols| ==> r.elements[|b.elements| + k] == ColumnOn(cols[k]))
      && (forall e :: e in r.columnOf <==> e in b.columnOf || e in cols)
      && r.interactions == b.interactions && r.headOf == b.headOf && r.beamOf == b.beamOf
      && r.platesAt == b.platesAt && r.plateOrder == b.plateOrder
    decreases |cols|
  {
    if cols == [] {
      assert b.elements[..|b.elements|] == b.elements;
    } else {
      var b1 := ColumnStep(b, cols[0]);
      assert b1.elements[..|b.elements|] == b.elements;
      ColumnsFoldLayout(b1, cols[1..]);
      var r := ColumnsFold(b, cols);
      PrefixTransitive(b.elements, b1.elements, r.elements);
      assert r.elements[|b.elements|] == ColumnOn(cols[0]) by {
        assert r.elements[..|b1.elements|][|b.elements|] == b1.elements[|b.elements|];
      }
      forall k | 1 <= k < |cols| ensures r.elements[|b.elements| + k] == ColumnOn(cols[k]) {
        assert cols[1..][k - 1] == cols[k];
      }
      assert forall e :: e in cols <==> e == cols[0] || e in cols[1..];
    }
  }

  lemma {:induction false} ColumnsFoldRegistered(b: Build, cols: seq<NodePair>)
    requires Registered(b)
    ensures Registered(ColumnsFold(b, cols))
    decreases |cols|
  {
    if cols != [] {
      ColumnStepRegistered(b, cols[0]);
      ColumnsFoldRegistered(ColumnStep(b, cols[0]), cols[1..]);
    }
  }

  lemma BeamStepRegistered(b: Build, edge: NodePair)
    requires Registered(b)
    ensures Registered(BeamStep(b, edge))
  {
    var b1 := BeamStep(b, edge);
    assert forall k :: 0 <= k < |b.elements| ==> b1.elements[k] == b.elements[k];
  }

  /** The beam loop appends one beam per beam edge and registers it under its edge. */
  lemma {:induction false} BeamsFoldLayout(b: Build, beams: seq<NodePair>)
    ensures var r := BeamsFold(b, beams);
      |r.elements| == |b.elements| + |beams| && r.elements[..|b.elements|] == b.elements
      && (forall k :: 0 <= k < |beams| ==> r.elements[|b.elements| + k] == BeamOn(beams[k]))
      && (forall e :: e in r.beamOf <==> e in b.beamOf || e in beams)
      && r.interactions == b.interactions && r.headOf == b.headOf && r.columnOf == b.columnOf
      && r.platesAt == b.platesAt && r.plateOrder == b.plateOrder
    decreases |beams|
  {
    if beams == [] {
      assert b.elements[..|b.elements|] == b.elements;
    } else {
      var b1 := BeamStep(b, beams[0]);
      assert b1.elements[..|b.elements|] == b.elements;
      BeamsFoldLayout(b1, beams[1..]);
      var r := BeamsFold(b, beams);
      PrefixTransitive(b.elements, b1.elements, r.elements);
      assert r.elements[|b.elements|] == BeamOn(beams[0]) by {
        assert r.elements[..|b1.elements|][|b.elements|] == b1.elements[|b.elements|];
      }
      forall k | 1 <= k < |beams| ensures r.elements[|b.elements| + k] == BeamOn(beams[k]) {
        assert beams[1..][k - 1] == beams[k];
      }
      assert forall e :: e in beams <==> e == beams[0] || e in beams[1..];
    }
  }

  lemma {:induction false} BeamsFoldRegistered(b: Build, beams: seq<NodePair>)
    requires Registered(b)
    ensures Registered(BeamsFold(b, beams))
    decreases |beams|
  {
    if beams != [] {
      BeamStepRegistered(b, beams[0]);
      BeamsFoldRegistered(BeamStep(b, beams[0]), beams[1..]);
    }
  }

  /** add_floor lists the new plate, with its face, under every vertex of the face and nowhere else. */
  lemma FloorStepHolds(net: Net, b: Build, face: nat)
    requires face < |net.faces| && Registered(b)
    ensures var r := FloorStep(net, b, face);
      var ref := PlateRef(|b.elements|, net.faces[face]);
      r.elements == b.elements + [PlateOn(face)]
      && r.interactions == b.interactions && r.headOf == b.headOf && r.columnOf == b.columnOf && r.beamOf == b.beamOf
      && (forall v :: v in net.faces[face] ==> v in r.platesAt && ref in r.platesAt[v])
      && (forall v :: v in b.platesAt ==>
            v in r.platesAt && |b.platesAt[v]| <= |r.platesAt[v]| && r.platesAt[v][..|b.platesAt[v]|] == b.platesAt[v])
      && Registered(r)
  {
    var ref := PlateRef(|b.elements|, net.faces[face]);
    RegisterHolds(b.platesAt, b.plateOrder, ref, net.faces[face]);
    var r := FloorStep(net, b, face);
    assert forall k :: 0 <= k < |b.elements| ==> r.elements[k] == b.elements[k];
  }

  lemma FacesOfTail(net: Net, floors: seq<nat>)
    requires floors != [] && FacesOf(net, floors)
    ensures FacesOf(net, floors[1..])
  {
    forall i | 0 <= i < |floors[1..]| ensures floors[1..][i] < |net.faces| {
      assert floors[1..][i] == floors[i + 1];
    }
  }

  /** The floor loop only appends to the lists it finds. */
  lemma {:induction false} FloorsPlatesKept(net: Net, b: Build, floors: seq<nat>, v: int)
    requires FacesOf(net, floors) && Registered(b) && v in b.platesAt
    ensures var r := FloorsFold(net, b, floors);
      v in r.platesAt && |b.platesAt[v]| <= |r.platesAt[v]| && r.platesAt[v][..|b.platesAt[v]|] == b.platesAt[v]
    decreases |floors|
  {
    if floors == [] {
      assert b.platesAt[v][..|b.platesAt[v]|] == b.platesAt[v];
    } else {
      FacesOfTail(net, floors);
      FloorStepHolds(net, b, floors[0]);
      var b1 := FloorStep(net, b, floors[0]);
      FloorsPlatesKept(net, b1, floors[1..], v);
      PrefixTransitive(b.platesAt[v], b1.platesAt[v], FloorsFold(net, b, floors).platesAt[v]);
    }
  }

  lemma {:induction false} FloorsFoldRegistered(net: Net, b: Build, floors: seq<nat>)
    requires FacesOf(net, floors) && Registered(b)
    ensures Registered(FloorsFold(net, b, floors))
    decreases |floors|
  {
    if floors != [] {
      FacesOfTail(net, floors);
      FloorStepHolds(net, b, floors[0]);
      FloorsFoldRegistered(net, FloorStep(net, b, floors[0]), floors[1..]);
    }
  }

  /** The floor loop appends one plate per floor face and touches no other element or dictionary. */
  lemma {:induction false} FloorsFoldLayout(net: Net, b: Build, floors: seq<nat>)
    requires FacesOf(net, floors)
    ensures var r := FloorsFold(net, b, floors);
      |r.elements| == |b.elements| + |floors| && r.elements[..|b.elements|] == b.elements
      && (forall k :: 0 <= k < |floors| ==> r.elements[|b.elements| + k] == PlateOn(floors[k]))
      && r.interactions == b.interactions && r.headOf == b.headOf && r.columnOf == b.columnOf && r.beamOf == b.beamOf
    decreases |floors|
  {
    if floors == [] {
      assert b.elements[..|b.elements|] == b.elements;
    } else {
      FacesOfTail(net, floors);
      var b1 := FloorStep(net, b, floors[0]);
      assert b1.elements[..|b.elements|] == b.elements;
      FloorsFoldLayout(net, b1, floors[1..]);
      var r := FloorsFold(net, b, floors);
      PrefixTransitive(b.elements, b1.elements, r.elements);
      assert r.elements[|b.elements|] == PlateOn(floors[0]) by {
        assert r.elements[..|b1.elements|][|b.elements|] == b1.elements[|b.elements|];
      }
      forall k | 1 <= k < |floors| ensures r.elements[|b.elements| + k] == PlateOn(floors[k]) {
        assert floors[1..][k - 1] == floors[k];
      }
    }
  }

  /** Each plate is listed, with its face, under every vertex of that face. */
  lemma {:induction false} FloorsFoldListed(net: Net, b: Build, floors: seq<nat>)
    requires FacesOf(net, floors) && Registered(b)
    ensures var r := FloorsFold(net, b, floors);
      forall k :: 0 <= k < |floors| ==>
        forall v :: v in net.faces[floors[k]] ==>
          v in r.platesAt && PlateRef(|b.elements| + k, net.faces[floors[k]]) in r.platesAt[v]
    decreases |floors|
  {
    if floors != [] {
      FacesOfTail(net, floors);
      FloorStepHolds(net, b, floors[0]);
      var b1 := FloorStep(net, b, floors[0]);
      FloorsFoldListed(net, b1, floors[1..]);
      var r := FloorsFold(net, b, floors);
      forall k, v | 0 <= k < |floors| && v in net.faces[floors[k]]
        ensures v in r.platesAt && PlateRef(|b.elements| + k, net.faces[floors[k]]) in r.platesAt[v]
      {
        if k == 0 {
          var ref := PlateRef(|b.elements|, net.faces[floors[0]]);
          assert v in b1.platesAt && ref in b1.platesAt[v];
          FloorsPlatesKept(net, b1, floors[1..], v);
          assert r == FloorsFold(net, b1, floors[1..]);
          assert ref in r.platesAt[v][..|b1.platesAt[v]|];
        } else {
          assert floors[1..][k - 1] == floors[k];
          assert |b1.elements| + (k - 1) == |b.elements| + k;
          assert v in net.faces[floors[1..][k - 1]];
          assert r == FloorsFold(net, b1, floors[1..]);
          assert PlateRef(|b1.elements| + (k - 1), net.faces[floors[1..][k - 1]]) in r.platesAt[v];
        }
      }
    }
  }

  // ---------------------------------------------------------------------
  // The whole builder
  // ---------------------------------------------------------------------

  lemma EmptyRegistered()
    ensures Registered(Empty) && Sound(Empty)
  {
  }

  /** The interaction loops only add cutters, and every interaction they add is sound. */
  lemma InteractionPhaseHolds(net: Net, t: Templates, b: Build, cols: seq<NodePair>, beams: seq<NodePair>)
    requires EdgesOf(net, cols) && EdgesOf(net, beams) && Registered(b) && Sound(b)
    ensures var r := InteractionPhase(net, t, b, cols, beams);
      r.Ok? ==> Registered(r.value) && Sound(r.value) && CuttersAdded(b, r.value)
  {
    ColumnInteractionsFoldHolds(net, t, b, cols);
    if ColumnInteractionsFold(net, t, b, cols).Ok? {
      var b1 := ColumnInteractionsFold(net, t, b, cols).value;
      BeamInteractionsFoldHolds(net, t, b1, beams);
      if BeamInteractionsFold(net, t, b1, beams).Ok? {
        var b2 := BeamInteractionsFold(net, t, b1, beams).value;
        CuttersAddedTransitive(b, b1, b2);
        FloorInteractionsFoldHolds(net, t, b2, b.plateOrder);
        if FloorInteractionsFold(net, t, b.platesAt, b2, b.plateOrder).Ok? {
          CuttersAddedTransitive(b, b2, FloorInteractionsFold(net, t, b.platesAt, b2, b.plateOrder).value);
        }
      }
    }
  }

  /** The elements the element loops create, in order: heads, columns, beams, plates. */
  ghost predicate ElementsLaidOut(net: Net, els: seq<GridElement>, cols: seq<NodePair>, beams: seq<NodePair>, floors: seq<nat>)
    requires EdgesOf(net, cols)
  {
    |els| == 2 * |cols| + |beams| + |floors|
    && (forall k :: 0 <= k < |cols| ==> HeadAt(els, k, CreaModel.HeadVertex(net.xyz, cols[k])))
    && (forall k :: 0 <= k < |cols| ==> els[|cols| + k] == ColumnOn(cols[k]))
    && (forall k :: 0 <= k < |beams| ==> els[2 * |cols| + k] == BeamOn(beams[k]))
    && (forall k :: 0 <= k < |floors| ==> els[2 * |cols| + |beams| + k] == PlateOn(floors[k]))
  }

  /** The element loops register every element they create and add no interaction. */
  lemma ElementLoopsRegistered(heads: int --> Result<ColumnHeadCross>, net: Net,
                               cols: seq<NodePair>, beams: seq<NodePair>, floors: seq<nat>)
    requires Builds(heads, net) && EdgesOf(net, cols) && EdgesOf(net, beams) && FacesOf(net, floors)
    ensures var r := ElementLoops(heads, net, cols, beams, floors);
      (r.Ok? <==> forall k :: 0 <= k < |cols| ==> HeadBuildable(heads, net, cols[k]))
      && (r.Ok? ==> r.value.interactions == [] && Registered(r.value) && Sound(r.value))
  {
    HeadsFoldOk(heads, net, Empty, cols);
    if HeadsFold(heads, net, Empty, cols).Ok? {
      EmptyRegistered();
      HeadsFoldShape(heads, net, Empty, cols);
      HeadsFoldRegistered(heads, net, Empty, cols);
      var b1 := HeadsFold(heads, net, Empty, cols).value;
      ColumnsFoldLayout(b1, cols);
      ColumnsFoldRegistered(b1, cols);
      var b2 := ColumnsFold(b1, cols);
      BeamsFoldLayout(b2, beams);
      BeamsFoldRegistered(b2, beams);
      var b3 := BeamsFold(b2, beams);
      FloorsFoldLayout(net, b3, floors);
      FloorsFoldRegistered(net, b3, floors);
    }
  }

  /** The element loops create the heads, then the columns, the beams and the plates, each in input order. */
  lemma ElementLoopsLayout(heads: int --> Result<ColumnHeadCross>, net: Net,
                           cols: seq<NodePair>, beams: seq<NodePair>, floors: seq<nat>)
    requires Builds(heads, net) && EdgesOf(net, cols) && EdgesOf(net, beams) && FacesOf(net, floors)
    ensures var r := ElementLoops(heads, net, cols, beams, floors);
      r.Ok? ==> ElementsLaidOut(net, r.value.elements, cols, beams, floors)
  {
    if HeadsFold(heads, net, Empty, cols).Ok? {
      var b1 := HeadsFold(heads, net, Empty, cols).value;
      assert |b1.elements| == |cols| && forall k :: 0 <= k < |cols| ==> HeadAt(b1.elements, k, CreaModel.HeadVertex(net.xyz, cols[k])) by {
        HeadsFoldShape(heads, net, Empty, cols);
        HeadsFoldElements(heads, net, Empty, cols);
      }
      AfterHeadsLayout(net, b1, cols, beams, floors);
    }
  }

  /** The column, beam and floor loops' layouts after the heads, put together. */
  lemma AfterHeadsLayout(net: Net, b1: Build, cols: seq<NodePair>, beams: seq<NodePair>, floors: seq<nat>)
    requires EdgesOf(net, cols) && FacesOf(net, floors)
    requires |b1.elements| == |cols| && forall k :: 0 <= k < |cols| ==> HeadAt(b1.elements, k, CreaModel.HeadVertex(net.xyz, cols[k]))
    ensures ElementsLaidOut(net, FloorsFold(net, BeamsFold(ColumnsFold(b1, cols), beams), floors).elements, cols, beams, floors)
  {
    var b2 := ColumnsFold(b1, cols);
    assert |b2.elements| == |b1.elements| + |cols| && b2.elements[..|b1.elements|] == b1.elements
      && forall k :: 0 <= k < |cols| ==> b2.elements[|b1.elements| + k] == ColumnOn(cols[k]) by {
      ColumnsFoldLayout(b1, cols);
    }
    var b3 := BeamsFold(b2, beams);
    assert |b3.elements| == |b2.elements| + |beams| && b3.elements[..|b2.elements|] == b2.elements
      && forall k :: 0 <= k < |beams| ==> b3.elements[|b2.elements| + k] == BeamOn(beams[k]) by {
      BeamsFoldLayout(b2, beams);
    }
    var b4 := FloorsFold(net, b3, floors);
    assert |b4.elements| == |b3.elements| + |floors| && b4.elements[..|b3.elements|] == b3.elements
      && forall k :: 0 <= k < |floors| ==> b4.elements[|b3.elements| + k] == PlateOn(floors[k]) by {
      FloorsFoldLayout(net, b3, floors);
    }
    LaidOut(net, b1.elements, b2.elements, b3.elements, b4.elements, cols, beams, floors);
  }

  /** The four element loops' layouts, put together. */
  lemma LaidOut(net: Net, e1: seq<GridElement>, e2: seq<GridElement>, e3: seq<GridElement>, e4: seq<GridElement>,
                cols: seq<NodePair>, beams: seq<NodePair>, floors: seq<nat>)
    requires EdgesOf(net, cols)
    requires |e1| == |cols| && forall k :: 0 <= k < |cols| ==> HeadAt(e1, k, CreaModel.HeadVertex(net.xyz, cols[k]))
    requires |e2| == |e1| + |cols| && e2[..|e1|] == e1 && forall k :: 0 <= k < |cols| ==> e2[|e1| + k] == ColumnOn(cols[k])
    requires |e3| == |e2| + |beams| && e3[..|e2|] == e2 && forall k :: 0 <= k < |beams| ==> e3[|e2| + k] == BeamOn(beams[k])
    requires |e4| == |e3| + |floors| && e4[..|e3|] == e3 && forall k :: 0 <= k < |floors| ==> e4[|e3| + k] == PlateOn(floors[k])
    ensures ElementsLaidOut(net, e4, cols, beams, floors)
  {
    PrefixTransitive(e2, e3, e4);
    PrefixTransitive(e1, e2, e3);
    PrefixTransitive(e1, e3, e4);
    forall k | 0 <= k < |cols|
      ensures HeadAt(e4, k, CreaModel.HeadVertex(net.xyz, cols[k]))
    {
      PrefixAt(e1, e4, k);
    }
    forall k | 0 <= k < |cols|
      ensures e4[|cols| + k] == ColumnOn(cols[k])
    {
      PrefixAt(e2, e4, |e1| + k);
    }
    forall k | 0 <= k < |beams|
      ensures e4[2 * |cols| + k] == BeamOn(beams[k])
    {
      PrefixAt(e3, e4, |e2| + k);
    }
  }

  /**
   * The element loops finish exactly when every template they use is there
   * and a head can be built at every column's upper end; they then create
   * the heads, columns, beams and plates in order, register each and add
   * no interaction.
   */
  lemma ElementPhaseLayout(net: Net, t: Templates, dims: Dimensions,
                           cols: seq<NodePair>, beams: seq<NodePair>, floors: seq<nat>)
    requires NetOK(net) && EdgesOf(net, cols) && EdgesOf(net, beams) && FacesOf(net, floors)
    ensures var r := ElementPhase(net, t, dims, cols, beams, floors);
      (r.Ok? <==> ElementTemplates(t, cols, beams, floors)
                  && forall k :: 0 <= k < |cols| ==>
                       HeadAtVertex(net, t.columnHead.value, dims, CreaModel.HeadVertex(net.xyz, cols[k])).Ok?)
      && (r.Ok? ==>
            r.value.interactions == [] && Registered(r.value) && Sound(r.value)
            && ElementsLaidOut(net, r.value.elements, cols, beams, floors))
  {
    var heads := TemplateHeads(net, t.columnHead, dims);
    ElementLoopsRegistered(heads, net, cols, beams, floors);
    ElementLoopsLayout(heads, net, cols, beams, floors);
    if cols != [] && t.columnHead.None? {
      HeadsFoldOk(heads, net, Empty, cols);
      assert !HeadBuildable(heads, net, cols[0]);
    }
  }

  /**
   * from_lines_and_surfaces, when it returns: the elements of the element
   * loops come first and in their order, every later element is a cutter,
   * every dictionary entry names an element of its kind, and every
   * interaction runs from a cutter or a head to an element that is not a
   * cutter.
   */
  lemma GridLayout(net: Net, t: Templates, dims: Dimensions,
                   cols: seq<NodePair>, beams: seq<NodePair>, floors: seq<nat>)
    requires NetOK(net) && EdgesOf(net, cols) && EdgesOf(net, beams) && FacesOf(net, floors)
    ensures var r := GridBuild(net, t, dims, cols, beams, floors);
      var n := 2 * |cols| + |beams| + |floors|;
      r.Ok? ==>
        n <= |r.value.elements| && ElementsLaidOut(net, r.value.elements[..n], cols, beams, floors)
        && (forall k :: n <= k < |r.value.elements| ==> IsCutter(r.value.elements[k]))
        && Registered(r.value) && Sound(r.value)
        && (forall i :: 0 <= i < |r.value.interactions| ==> r.value.interactions[i].target < n)
  {
    var r := GridBuild(net, t, dims, cols, beams, floors);
    if r.Ok? {
      var b := ElementPhase(net, t, dims, cols, beams, floors).value;
      var n := 2 * |cols| + |beams| + |floors|;
      assert ElementsLaidOut(net, b.elements, cols, beams, floors) && Registered(b) && Sound(b) by {
        ElementPhaseLayout(net, t, dims, cols, beams, floors);
      }
      InteractionPhaseHolds(net, t, b, cols, beams);
      assert r.value.elements[..n] == b.elements;
      forall i | 0 <= i < |r.value.interactions|
        ensures r.value.interactions[i].target < n
      {
        assert SoundEdge(r.value.elements, r.value.interactions[i]);
      }
    }
  }

  /**
   * from_lines_and_surfaces given only the lines and the surfaces, every
   * template left None: the first column raises, with AttributeError at
   * `column_head.rebuild` unless gathering its head's junction raises
   * first, and only a network with no column, beam or floor gives a model,
   * the empty one.
   */
  lemma LinesAndSurfacesOnly(net: Net, dims: Dimensions, cols: seq<NodePair>, beams: seq<NodePair>, floors: seq<nat>)
    requires NetOK(net) && EdgesOf(net, cols) && EdgesOf(net, beams) && FacesOf(net, floors)
    ensures var r := GridBuild(net, Templates(None, false, false, false, false, None), dims, cols, beams, floors);
      (r.Ok? <==> cols == [] && beams == [] && floors == [])
      && (r.Ok? ==> r.value == Empty)
      && (cols != [] && JunctionAt(net, CreaModel.HeadVertex(net.xyz, cols[0])).Ok? ==> r == Err(AttributeError))
  {
    var t := Templates(None, false, false, false, false, None);
    if cols != [] {
      var heads := TemplateHeads(net, None, dims);
      assert HeadsFold(heads, net, Empty, cols) == Err(heads(CreaModel.HeadVertex(net.xyz, cols[0])).error);
    }
  }

  /**
   * Without a cutter model (the call in docs/examples/json_to_grid.py
   * passes none), from_lines_and_surfaces raises for every network with a
   * column: the head under the first column is in place when the column
   * interactions start, and `cutter_model.copy()` fails there.
   */
  lemma NoCutterModelRaises(net: Net, t: Templates, dims: Dimensions,
                            cols: seq<NodePair>, beams: seq<NodePair>, floors: seq<nat>)
    requires NetOK(net) && EdgesOf(net, cols) && EdgesOf(net, beams) && FacesOf(net, floors)
    requires t.cutterModel.None? && cols != []
    ensures GridBuild(net, t, dims, cols, beams, floors).Err?
  {
    var e := ElementPhase(net, t, dims, cols, beams, floors);
    if e.Ok? {
      var heads := TemplateHeads(net, t.columnHead, dims);
      var top := CreaModel.HeadVertex(net.xyz, cols[0]);
      var b1 := HeadsFold(heads, net, Empty, cols).value;
      HeadsFoldElementAt(heads, net, Empty, cols, 0);
      ColumnsFoldLayout(b1, cols);
      var b2 := ColumnsFold(b1, cols);
      BeamsFoldLayout(b2, beams);
      FloorsFoldLayout(net, BeamsFold(b2, beams), floors);
      assert top in e.value.headOf;
      assert ColumnInteractionStep(net, t, e.value, cols[0]).Err?;
    }
  }

  /**
   * The rules of a head vertex's junction flag the direction of each of its
   * neighbours, which lies at a point other than the head's own.
   */
  lemma JunctionSeesNeighbour(net: Net, at: int, other: int, j: Junction)
    requires NetOK(net) && IsVertex(net, at) && IsVertex(net, other)
    requires JunctionAt(net, at) == Ok(j) && GenerateRules(j.v, j.e, j.f).Ok?
    requires NeighborList(net, at).Ok? && other in NeighborList(net, at).value
    ensures Sub(net.xyz[other], net.xyz[at]) != Origin
    ensures GenerateRules(j.v, j.e, j.f).value[Closest(Sub(net.xyz[other], net.xyz[at]))]
  {
    var ns := NeighborList(net, at).value;
    var i :| 0 <= i < |ns| && ns[i] == other;
    assert j.e[i] == (at, other) && j.v[at] == net.xyz[at] && j.v[other] == net.xyz[other];
    JunctionEdgeFlagged(j, i);
    SubZero(net.xyz[other], net.xyz[at]);
  }

  /** Every edge of a junction whose rules exist sets the flag of its own direction. */
  lemma JunctionEdgeFlagged(j: Junction, i: nat)
    requires GenerateRules(j.v, j.e, j.f).Ok? && i < |j.e|
    ensures EdgeOK(j.v, j.e[i]) && GenerateRules(j.v, j.e, j.f).value[EdgeDirection(j.v, j.e[i])]
  {
    RulesCharacterised(j.v, j.e, j.f);
  }

  /**
   * At a beam end whose head was built for that vertex, the beam's far end
   * is one of the head's neighbours, so the head has exactly one face
   * tagged with the beam's direction: the `[0]` lookup succeeds, and the
   * cutter goes on that face if there is a cutter template (AttributeError
   * if not).
   */
  lemma BeamEndFindsFace(net: Net, t: Templates, template: ColumnHeadCross, dims: Dimensions, b: Build, beam: nat, at: int, other: int)
    requires NetOK(net) && IsVertex(net, at) && IsVertex(net, other) && at in b.headOf
    requires HeadAtVertex(net, template, dims, at) == Ok(b.headOf[at].head)
    requires NeighborList(net, at).Ok? && other in NeighborList(net, at).value
    ensures var d := Closest(Sub(net.xyz[other], net.xyz[at]));
      var faces := b.headOf[at].head.shape.faces;
      var keys := FacesWhere(faces, d);
      |keys| == 1 && faces[keys[0]] == HeadFace(DirFace(d, 1), Some(d))
      && BeamEnd(net, t, b, beam, at, other) == if t.cutter then Ok(AddCutter(b, b.headOf[at], keys[0], beam)) else Err(AttributeError)
  {
    var j := JunctionAt(net, at).value;
    JunctionSeesNeighbour(net, at, other, j);
    TaggedFace(GenerateRules(j.v, j.e, j.f).value, Closest(Sub(net.xyz[other], net.xyz[at])));
  }
}
