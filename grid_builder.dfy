/**
 * GridModel.from_lines_and_surfaces as it runs: a Model object that the
 * nested add_* helpers add elements and interactions to, and the four
 * dictionaries they share (column_head_to_vertex, column_to_edge,
 * beam_to_edge and vertex_to_plates_and_faces, whose key order is kept
 * beside it). Each helper and each driver loop is a method proved to leave
 * the state the matching function of GridModelBuild gives; an exception
 * is the `raised` out-parameter, after which the caller stops, as the
 * exception would stop the driver.
 */
module GridModelLoops {
  import opened Base
  import opened Directions
  import opened ColumnHeadRules
  import opened ColumnHeadMesh
  import opened ColumnHeadShape
  import opened ColumnHeadElement
  import opened CellNetworkModel
  import opened ModelGraph
  import opened GridModelBuild
  import CreaModel

  /** A helper's outcome: it raised what the function's Err holds, or it left the state the function's Ok holds. */
  predicate Follows(raised: Option<Error>, r: Result<Build>, s: Build)
  {
    match r
    case Ok(b) => raised == None && s == b
    case Err(x) => raised == Some(x)
  }

  /**
   * The v, e and f add_column_head collects for the head at `vertex`: the
   * neighbour loop fills v and e, the face loop keeps the faces that hold
   * the vertex and carry is_floor, in ascending key order.
   */
  method JunctionOf(net: Net, vertex: int) returns (r: Result<Junction>)
    requires NetOK(net) && IsVertex(net, vertex)
    ensures r == JunctionAt(net, vertex)
  {
    var neighbors := NeighborList(net, vertex);
    if neighbors.Err? {
      return Err(neighbors.error);
    }
    var ns := neighbors.value;
    var v, e, failed := NeighbourPoints(net, vertex, ns);
    if failed {
      JunctionFails(net, vertex, ns, KeyError);
      return Err(KeyError);
    }
    var f := FloorFaces(net, vertex);
    JunctionIs(net, vertex, ns, v, e, f);
    r := Ok(Junction(v, e, f));
  }

  /** The neighbour loop of add_column_head: v gains each neighbour's point, e the edge to it; an unknown neighbour fails. */
  method NeighbourPoints(net: Net, vertex: int, ns: seq<int>) returns (v: map<int, Point>, e: seq<Edge>, failed: bool)
    requires NetOK(net) && IsVertex(net, vertex)
    ensures failed <==> PointsFrom(net, map[vertex := net.xyz[vertex]], ns).Err?
    ensures failed ==> PointsFrom(net, map[vertex := net.xyz[vertex]], ns) == Err(KeyError)
    ensures !failed ==> PointsFrom(net, map[vertex := net.xyz[vertex]], ns) == PointsFrom(net, v, []) && e == HeadEdges(vertex, ns)
  {
    v := map[vertex := net.xyz[vertex]];
    e := [];
    var i := 0;
    while i < |ns|
      invariant 0 <= i <= |ns|
      invariant e == HeadEdges(vertex, ns[..i])
      invariant PointsFrom(net, map[vertex := net.xyz[vertex]], ns) == PointsFrom(net, v, ns[i..])
    {
      var n := ns[i];
      assert ns[i..][1..] == ns[i + 1..];
      HeadEdgesStep(vertex, ns, i);
      e := e + [(vertex, n)];
      if !IsVertex(net, n) {
        return v, e, true;
      }
      v := v[n := net.xyz[n]];
      i := i + 1;
    }
    assert ns[..i] == ns;
    failed := false;
  }

  /** The face loop of add_column_head: the faces that hold the vertex and carry is_floor, in key order. */
  method FloorFaces(net: Net, vertex: int) returns (f: seq<seq<int>>)
    requires NetOK(net)
    ensures f == FacesAt(net, FloorKeys(net, vertex, |net.faces|))
  {
    f := [];
    var k := 0;
    while k < |net.faces|
      invariant 0 <= k <= |net.faces|
      invariant f == FacesAt(net, FloorKeys(net, vertex, k))
    {
      FloorFacesStep(net, vertex, k);
      if Incident(net, vertex, k) {
        f := f + [net.faces[k]];
      }
      k := k + 1;
    }
  }

  lemma HeadEdgesStep(vertex: int, ns: seq<int>, i: nat)
    requires i < |ns|
    ensures HeadEdges(vertex, ns[..i + 1]) == HeadEdges(vertex, ns[..i]) + [(vertex, ns[i])]
  { }

  lemma FloorFacesStep(net: Net, vertex: int, k: nat)
    requires NetOK(net) && k < |net.faces|
    ensures FacesAt(net, FloorKeys(net, vertex, k + 1))
         == FacesAt(net, FloorKeys(net, vertex, k)) + if Incident(net, vertex, k) then [net.faces[k]] else []
  { }

  lemma JunctionFails(net: Net, vertex: int, ns: seq<int>, x: Error)
    requires NetOK(net) && IsVertex(net, vertex) && NeighborList(net, vertex) == Ok(ns)
    requires PointsFrom(net, map[vertex := net.xyz[vertex]], ns) == Err(x)
    ensures JunctionAt(net, vertex) == Err(x)
  { }

  lemma JunctionIs(net: Net, vertex: int, ns: seq<int>, v: map<int, Point>, e: seq<Edge>, f: seq<seq<int>>)
    requires NetOK(net) && IsVertex(net, vertex) && NeighborList(net, vertex) == Ok(ns)
    requires PointsFrom(net, map[vertex := net.xyz[vertex]], ns) == PointsFrom(net, v, [])
    requires e == HeadEdges(vertex, ns) && f == FacesAt(net, FloorKeys(net, vertex, |net.faces|))
    ensures JunctionAt(net, vertex) == Ok(Junction(v, e, f))
  { }

  /** One step of the heads loop on values. */
  lemma HeadsFoldNext(heads: int --> Result<ColumnHeadCross>, net: Net, cols: seq<NodePair>, i: nat,
                      before: Build, raised: Option<Error>, after: Build)
    requires Builds(heads, net) && EdgesOf(net, cols) && i < |cols|
    requires Follows(raised, HeadStep(heads, net, before, cols[i]), after)
    ensures EdgesOf(net, cols[i + 1..])
    ensures raised == None ==> HeadsFold(heads, net, before, cols[i..]) == HeadsFold(heads, net, after, cols[i + 1..])
    ensures raised.Some? ==> HeadsFold(heads, net, before, cols[i..]) == Err(raised.value)
  {
    assert cols[i..][1..] == cols[i + 1..];
  }

  /** The first half of add_column_head: collect v, e and f at top and rebuild the template on them. */
  method BuildHead(cls: ColumnHeadCrossShapeClass, template: ColumnHeadCross, ghost dims: Dimensions,
                   net: Net, top: int) returns (r: Result<ColumnHeadCross>)
    requires NetOK(net) && IsVertex(net, top) && Ready(cls, dims)
    modifies cls, cls.instance
    ensures cls.instance == old(cls.instance) && Ready(cls, dims)
    ensures r == HeadAtVertex(net, template, dims, top)
  {
    var j := JunctionOf(net, top);
    if j.Err? {
      return Err(j.error);
    }
    r := Rebuild(cls, template, j.value.v, j.value.e, j.value.f);
    assert r == HeadFor(template, dims, j.value);
  }

  /** add_column_head on values: the head built at the column's upper end, or what building it raised. */
  lemma HeadStepIs(net: Net, template: ColumnHeadCross, dims: Dimensions, b: Build, edge: NodePair)
    requires NetOK(net) && IsVertex(net, edge.0) && IsVertex(net, edge.1)
    ensures var top := CreaModel.HeadVertex(net.xyz, edge);
      IsVertex(net, top) &&
      HeadStep(HeadBuilder(net, template, dims), net, b, edge) ==
        match HeadAtVertex(net, template, dims, top)
        case Err(x) => Err(x)
        case Ok(h) => Ok(b.(elements := b.elements + [ColumnHeadAt(top, h)], headOf := b.headOf[top := HeadRef(|b.elements|, h)]))
  { }

  /** Every dictionary entry names an element the model holds. */
  ghost predicate Indexed(b: Build)
  {
    (forall v :: v in b.headOf ==> b.headOf[v].id < |b.elements|)
    && (forall e :: e in b.columnOf ==> b.columnOf[e] < |b.elements|)
    && (forall e :: e in b.beamOf ==> b.beamOf[e] < |b.elements|)
    && (forall v, r :: v in b.platesAt && r in b.platesAt[v] ==> r.plate < |b.elements|)
  }

  /** The shared column-head shape exists and has held `dims` since the template head was built. */
  ghost predicate Ready(cls: ColumnHeadCrossShapeClass, dims: Dimensions)
    reads cls, cls.instance
  {
    cls.instance != null && cls.instance.Valid() && cls.instance.initialized && cls.instance.dims == dims
  }

  class GridBuilder {
    var model: Model<GridElement>
    var headOf: map<int, HeadRef>
    var columnOf: map<NodePair, nat>
    var beamOf: map<NodePair, nat>
    var platesAt: map<int, seq<PlateRef>>
    /** The keys of platesAt in insertion order, the order items() follows. */
    var plateOrder: seq<int>

    function State(): Build
      reads this, model
    {
      Build(model.elements, model.interactions, headOf, columnOf, beamOf, platesAt, plateOrder)
    }

    ghost predicate Valid()
      reads this, model
    {
      model.Valid()
    }

    /** cls(): an empty model and empty dictionaries. */
    constructor ()
      ensures Valid() && State() == Empty && fresh(model)
    {
      model := new Model();
      headOf, columnOf, beamOf, platesAt, plateOrder := map[], map[], map[], map[], [];
    }

    /** add_column_head(edge) */
    method AddColumnHead(cls: ColumnHeadCrossShapeClass, template: ColumnHeadCross, ghost dims: Dimensions,
                         net: Net, edge: NodePair) returns (raised: Option<Error>)
      requires Valid() && NetOK(net) && IsVertex(net, edge.0) && IsVertex(net, edge.1) && Ready(cls, dims)
      modifies this, model, cls, cls.instance
      ensures Valid() && model == old(model) && cls.instance == old(cls.instance) && Ready(cls, dims)
      ensures Follows(raised, HeadStep(HeadBuilder(net, template, dims), net, old(State()), edge), State())
    {
      ghost var s0 := State();
      var top := CreaModel.HeadVertex(net.xyz, edge);
      HeadStepIs(net, template, dims, s0, edge);
      var h := BuildHead(cls, template, dims, net, top);
      if h.Err? {
        return Some(h.error);
      }
      var id := model.AddElement(ColumnHeadAt(top, h.value), None);
      headOf := headOf[top := HeadRef(id, h.value)];
      raised := None;
    }

    /** for edge in cell_network_columns: add_column_head(edge) */
    method AddColumnHeads(cls: ColumnHeadCrossShapeClass, template: ColumnHeadCross, ghost dims: Dimensions,
                          net: Net, cols: seq<NodePair>) returns (raised: Option<Error>)
      requires Valid() && NetOK(net) && EdgesOf(net, cols) && Ready(cls, dims)
      modifies this, model, cls, cls.instance
      ensures Valid() && model == old(model) && cls.instance == old(cls.instance) && Ready(cls, dims)
      ensures Follows(raised, HeadsFold(HeadBuilder(net, template, dims), net, old(State()), cols), State())
    {
      ghost var heads := HeadBuilder(net, template, dims);
      raised := None;
      var i := 0;
      while i < |cols|
        invariant 0 <= i <= |cols|
        invariant Valid() && model == old(model) && cls.instance == old(cls.instance) && Ready(cls, dims)
        invariant EdgesOf(net, cols[i..]) && raised == None
        invariant HeadsFold(heads, net, old(State()), cols) == HeadsFold(heads, net, State(), cols[i..])
      {
        ghost var before := State();
        raised := AddColumnHead(cls, template, dims, net, cols[i]);
        if raised.Some? {
          HeadsFoldNext(heads, net, cols, i, before, raised, State());
          return;
        }
        HeadsFoldNext(heads, net, cols, i, before, raised, State());
        i := i + 1;
      }
    }

    /**
     * The head loop with the head template from_lines_and_surfaces was
     * given. Without one, the first column's add_column_head gathers the
     * junction and then raises AttributeError at `column_head.rebuild`.
     */
    method AddTemplateHeads(cls: ColumnHeadCrossShapeClass, t: Templates, ghost dims: Dimensions,
                            net: Net, cols: seq<NodePair>) returns (raised: Option<Error>)
      requires Valid() && NetOK(net) && EdgesOf(net, cols) && Ready(cls, dims)
      modifies this, model, cls, cls.instance
      ensures Valid() && model == old(model) && Ready(cls, dims)
      ensures Follows(raised, HeadsFold(TemplateHeads(net, t.columnHead, dims), net, old(State()), cols), State())
    {
      if t.columnHead.Some? {
        raised := AddColumnHeads(cls, t.columnHead.value, dims, net, cols);
      } else if cols != [] {
        var j := JunctionOf(net, CreaModel.HeadVertex(net.xyz, cols[0]));
        raised := if j.Err? then Some(j.error) else Some(AttributeError);
      } else {
        raised := None;
      }
    }

    /** The column, beam and floor loops, each stopped by a missing template. */
    method AddAfterHeads(net: Net, t: Templates, cols: seq<NodePair>, beams: seq<NodePair>, floors: seq<nat>)
      returns (raised: Option<Error>)
      requires Valid() && FacesOf(net, floors)
      modifies this, model
      ensures Valid() && model == old(model)
      ensures Follows(raised, AfterHeads(net, t, old(State()), cols, beams, floors), State())
    {
      if cols != [] && !t.column {
        return Some(AttributeError);
      }
      AddColumns(cols);
      if beams != [] && !t.beam {
        return Some(AttributeError);
      }
      AddBeams(beams);
      if floors != [] && !t.plate {
        return Some(AttributeError);
      }
      AddFloors(net, floors);
      raised := None;
    }

    /** add_column(edge) */
    method AddColumn(edge: NodePair)
      requires Valid()
      modifies this, model
      ensures Valid() && model == old(model)
      ensures State() == ColumnStep(old(State()), edge)
    {
      var id := model.AddElement(ColumnOn(edge), None);
      columnOf := columnOf[edge := id];
    }

    /** for edge in cell_network_columns: add_column(edge) */
    method AddColumns(cols: seq<NodePair>)
      requires Valid()
      modifies this, model
      ensures Valid() && model == old(model)
      ensures State() == ColumnsFold(old(State()), cols)
    {
      var i := 0;
      while i < |cols|
        invariant 0 <= i <= |cols|
        invariant Valid() && model == old(model)
        invariant ColumnsFold(old(State()), cols) == ColumnsFold(State(), cols[i..])
      {
        assert cols[i..][1..] == cols[i + 1..];
        AddColumn(cols[i]);
        i := i + 1;
      }
    }

    /** add_beam(edge) */
    method AddBeam(edge: NodePair)
      requires Valid()
      modifies this, model
      ensures Valid() && model == old(model)
      ensures State() == BeamStep(old(State()), edge)
    {
      var id := model.AddElement(BeamOn(edge), None);
      beamOf := beamOf[edge := id];
    }

    /** for edge in cell_network_beams: add_beam(edge) */
    method AddBeams(beams: seq<NodePair>)
      requires Valid()
      modifies this, model
      ensures Valid() && model == old(model)
      ensures State() == BeamsFold(old(State()), beams)
    {
      var i := 0;
      while i < |beams|
        invariant 0 <= i <= |beams|
        invariant Valid() && model == old(model)
        invariant BeamsFold(old(State()), beams) == BeamsFold(State(), beams[i..])
      {
        assert beams[i..][1..] == beams[i + 1..];
        AddBeam(beams[i]);
        i := i + 1;
      }
    }

    /** add_floor(face): the plate, then the face's vertices list it. */
    method AddFloor(net: Net, face: nat)
      requires Valid() && face < |net.faces|
      modifies this, model
      ensures Valid() && model == old(model)
      ensures State() == FloorStep(net, old(State()), face)
    {
      var plate := model.AddElement(PlateOn(face), None);
      var ref := PlateRef(plate, net.faces[face]);
      var vs := net.faces[face];
      ghost var registered := Register(platesAt, plateOrder, ref, vs);
      var i := 0;
      while i < |vs|
        invariant 0 <= i <= |vs|
        invariant Register(platesAt, plateOrder, ref, vs[i..]) == registered
        invariant Valid() && model == old(model) && model.elements == old(model.elements) + [PlateOn(face)]
        invariant headOf == old(headOf) && columnOf == old(columnOf) && beamOf == old(beamOf)
        modifies this
      {
        assert vs[i..][1..] == vs[i + 1..];
        var vertex := vs[i];
        if vertex in platesAt {
          platesAt := platesAt[vertex := platesAt[vertex] + [ref]];
        } else {
          platesAt := platesAt[vertex := [ref]];
          plateOrder := plateOrder + [vertex];
        }
        i := i + 1;
      }
    }

    /** for face in cell_network_floors: add_floor(face) */
    method AddFloors(net: Net, floors: seq<nat>)
      requires Valid() && FacesOf(net, floors)
      modifies this, model
      ensures Valid() && model == old(model)
      ensures State() == FloorsFold(net, old(State()), floors)
    {
      var i := 0;
      while i < |floors|
        invariant 0 <= i <= |floors|
        invariant Valid() && model == old(model) && FacesOf(net, floors[i..])
        invariant FloorsFold(net, old(State()), floors) == FloorsFold(net, State(), floors[i..])
      {
        assert floors[i..][1..] == floors[i + 1..];
        AddFloor(net, floors[i]);
        i := i + 1;
      }
    }

    /**
     * The block every head-to-element interaction repeats: a copy of the
     * cutter on face `face` of the head, cutting the target, and a plain
     * head -> target interaction.
     */
    method AddCutterOn(hr: HeadRef, face: int, target: nat)
      requires Valid() && hr.id < |model.elements| && target < |model.elements|
      modifies model
      ensures Valid()
      ensures State() == AddCutter(old(State()), hr, face, target)
    {
      var c := model.AddElement(CutterOn(hr.id, face), None);
      model.AddInteraction(c, target, InterfaceCutter);
      model.AddInteraction(hr.id, target, Plain);
    }

    /**
     * The upper-end block of add_interaction_column_and_column_head: the
     * cutter model's first element cuts the column, its second is
     * subtracted from the head h and from the column, and a plain head ->
     * column interaction. The copies of the cutter model's elements are
     * indexed [0] and [1], and the column is looked up after the first.
     * cutterModel is the number of the cutter model's elements, None when
     * there is no cutter model (`cutter_model.copy()` raises
     * AttributeError).
     */
    method AddCutterModel(cutterModel: Option<nat>, h: nat, edge: NodePair) returns (raised: Option<Error>)
      requires Valid() && Indexed(State()) && h < |model.elements|
      modifies model
      ensures Valid() && Indexed(State()) && |old(model.elements)| <= |model.elements|
      ensures raised == None <==> cutterModel.Some? && cutterModel.value >= 2 && edge in columnOf
      ensures raised != None ==> raised == Some(
        if cutterModel.None? then AttributeError
        else if cutterModel.value == 0 || (cutterModel.value == 1 && edge in columnOf) then IndexError
        else KeyError)
      ensures raised == None ==> State() == AddCutterParts(old(State()), h, columnOf[edge])
    {
      if cutterModel.None? {
        return Some(AttributeError);
      }
      var parts := cutterModel.value;
      if parts == 0 {
        return Some(IndexError);
      }
      var c := model.AddElement(CutterPart(0, h, 0), None);
      if edge !in columnOf {
        return Some(KeyError);
      }
      var column := columnOf[edge];
      model.AddInteraction(c, column, InterfaceCutter);
      if parts == 1 {
        return Some(IndexError);
      }
      var c1 := model.AddElement(CutterPart(1, h, 0), None);
      model.AddInteraction(c1, h, BooleanDifference);
      model.AddInteraction(c1, column, BooleanDifference);
      model.AddInteraction(h, column, Plain);
      raised := None;
    }

    /** add_interaction_column_and_column_head(edge) */
    method AddColumnInteraction(net: Net, t: Templates, edge: NodePair) returns (raised: Option<Error>)
      requires Valid() && Indexed(State()) && IsVertex(net, edge.0) && IsVertex(net, edge.1)
      modifies model
      ensures Valid() && Indexed(State()) && |old(model.elements)| <= |model.elements|
      ensures Follows(raised, ColumnInteractionStep(net, t, old(State()), edge), State())
    {
      var top := CreaModel.HeadVertex(net.xyz, edge);
      var base := CreaModel.BaseVertex(net.xyz, edge);
      if top in headOf {
        if !t.cutter {
          return Some(AttributeError);
        }
        raised := AddCutterModel(t.cutterModel, headOf[top].id, edge);
        if raised.Some? {
          return;
        }
      }
      if base in headOf {
        if !t.cutter {
          return Some(AttributeError);
        }
        if edge !in columnOf {
          return Some(KeyError);
        }
        AddCutterOn(headOf[base], 1, columnOf[edge]);
      }
      raised := None;
    }

    /** for edge in cell_network_columns: add_interaction_column_and_column_head(edge) */
    method AddColumnInteractions(net: Net, t: Templates, cols: seq<NodePair>) returns (raised: Option<Error>)
      requires Valid() && Indexed(State()) && EdgesOf(net, cols)
      modifies model
      ensures Valid() && Indexed(State())
      ensures Follows(raised, ColumnInteractionsFold(net, t, old(State()), cols), State())
    {
      raised := None;
      var i := 0;
      while i < |cols|
        invariant 0 <= i <= |cols|
        invariant Valid() && Indexed(State()) && EdgesOf(net, cols[i..]) && raised == None
        invariant ColumnInteractionsFold(net, t, old(State()), cols) == ColumnInteractionsFold(net, t, State(), cols[i..])
      {
        assert cols[i..][1..] == cols[i + 1..];
        raised := AddColumnInteraction(net, t, cols[i]);
        if raised.Some? {
          return;
        }
        i := i + 1;
      }
    }

    /** One `if edge[k] in column_head_to_vertex` block of add_interaction_beam_and_column_head. */
    method AddBeamEnd(net: Net, t: Templates, beam: nat, at: int, other: int) returns (raised: Option<Error>)
      requires Valid() && Indexed(State()) && IsVertex(net, at) && IsVertex(net, other) && beam < |model.elements|
      modifies model
      ensures Valid() && Indexed(State()) && |old(model.elements)| <= |model.elements|
      ensures Follows(raised, BeamEnd(net, t, old(State()), beam, at, other), State())
    {
      if at in headOf {
        var hr := headOf[at];
        var direction := DirectionOf(Sub(net.xyz[other], net.xyz[at]));
        if direction.Err? {
          return Some(direction.error);
        }
        var keys := FacesWhere(hr.head.shape.faces, direction.value);
        if keys == [] {
          return Some(IndexError);
        }
        if !t.cutter {
          return Some(AttributeError);
        }
        AddCutterOn(hr, keys[0], beam);
      }
      raised := None;
    }

    /** add_interaction_beam_and_column_head(edge) */
    method AddBeamInteraction(net: Net, t: Templates, edge: NodePair) returns (raised: Option<Error>)
      requires Valid() && Indexed(State()) && IsVertex(net, edge.0) && IsVertex(net, edge.1)
      modifies model
      ensures Valid() && Indexed(State()) && |old(model.elements)| <= |model.elements|
      ensures Follows(raised, BeamInteractionStep(net, t, old(State()), edge), State())
    {
      if edge !in beamOf {
        return Some(KeyError);
      }
      var beam := beamOf[edge];
      raised := AddBeamEnd(net, t, beam, edge.0, edge.1);
      if raised.Some? {
        return;
      }
      raised := AddBeamEnd(net, t, beam, edge.1, edge.0);
    }

    /** for edge in cell_network_beams: add_interaction_beam_and_column_head(edge) */
    method AddBeamInteractions(net: Net, t: Templates, beams: seq<NodePair>) returns (raised: Option<Error>)
      requires Valid() && Indexed(State()) && EdgesOf(net, beams)
      modifies model
      ensures Valid() && Indexed(State())
      ensures Follows(raised, BeamInteractionsFold(net, t, old(State()), beams), State())
    {
      raised := None;
      var i := 0;
      while i < |beams|
        invariant 0 <= i <= |beams|
        invariant Valid() && Indexed(State()) && EdgesOf(net, beams[i..]) && raised == None
        invariant BeamInteractionsFold(net, t, old(State()), beams) == BeamInteractionsFold(net, t, State(), beams[i..])
      {
        assert beams[i..][1..] == beams[i + 1..];
        raised := AddBeamInteraction(net, t, beams[i]);
        if raised.Some? {
          return;
        }
        i := i + 1;
      }
    }

    /**
     * The plate loop of add_interaction_floor_and_column_head for a vertex
     * with a head: one cutter per plate, on the head face of the corner's
     * diagonal.
     */
    method AddCorners(net: Net, t: Templates, vertex: int, refs: seq<PlateRef>) returns (raised: Option<Error>)
      requires Valid() && Indexed(State()) && vertex in headOf
      requires forall i :: 0 <= i < |refs| ==> refs[i].plate < |model.elements|
      modifies model
      ensures Valid() && Indexed(State()) && |old(model.elements)| <= |model.elements|
      ensures Follows(raised, CornersFold(net, t, old(State()), headOf[vertex], vertex, refs), State())
    {
      var hr := headOf[vertex];
      raised := None;
      var i := 0;
      while i < |refs|
        invariant 0 <= i <= |refs|
        invariant Valid() && Indexed(State()) && |old(model.elements)| <= |model.elements| && raised == None
        invariant CornersFold(net, t, old(State()), hr, vertex, refs) == CornersFold(net, t, State(), hr, vertex, refs[i..])
      {
        assert refs[i..][1..] == refs[i + 1..];
        var ref := refs[i];
        var direction := CornerDirection(net, ref.face, vertex);
        if direction.Err? {
          return Some(direction.error);
        }
        var keys := FacesWhere(hr.head.shape.faces, direction.value);
        if keys == [] {
          return Some(IndexError);
        }
        if !t.cutter {
          return Some(AttributeError);
        }
        AddCutterOn(hr, keys[0], ref.plate);
        i := i + 1;
      }
    }

    /** add_interaction_floor_and_column_head(vertex, plates_and_faces) */
    method AddFloorInteraction(net: Net, t: Templates, vertex: int, refs: seq<PlateRef>) returns (raised: Option<Error>)
      requires Valid() && Indexed(State())
      requires forall i :: 0 <= i < |refs| ==> refs[i].plate < |model.elements|
      modifies model
      ensures Valid() && Indexed(State()) && |old(model.elements)| <= |model.elements|
      ensures Follows(raised, FloorInteractionStep(net, t, old(State()), vertex, refs), State())
    {
      if vertex !in headOf {
        return None;
      }
      raised := AddCorners(net, t, vertex, refs);
    }

    /** for vertex, plates_and_faces in vertex_to_plates_and_faces.items(): ... */
    method AddFloorInteractions(net: Net, t: Templates) returns (raised: Option<Error>)
      requires Valid() && Indexed(State()) && OrderMatches(platesAt, plateOrder)
      modifies model
      ensures Valid() && Indexed(State())
      ensures Follows(raised, FloorInteractionsFold(net, t, platesAt, old(State()), plateOrder), State())
    {
      raised := None;
      var i := 0;
      while i < |plateOrder|
        invariant 0 <= i <= |plateOrder|
        invariant Valid() && Indexed(State()) && raised == None
        invariant FloorInteractionsFold(net, t, platesAt, old(State()), plateOrder)
                  == FloorInteractionsFold(net, t, platesAt, State(), plateOrder[i..])
      {
        assert plateOrder[i..][1..] == plateOrder[i + 1..];
        var vertex := plateOrder[i];
        assert vertex in platesAt;
        var refs := platesAt[vertex];
        forall k | 0 <= k < |refs|
          ensures refs[k].plate < |model.elements|
        {
          var r := refs[k];
          assert r in platesAt[vertex];
        }
        raised := AddFloorInteraction(net, t, vertex, refs);
        if raised.Some? {
          return;
        }
        i := i + 1;
      }
    }

    /**
     * The body of from_lines_and_surfaces once the network has been
     * queried: the four element loops, then the three interaction loops,
     * on a fresh model. t holds the templates it was given, dims the
     * dimensions the shared column-head shape holds. A missing template
     * raises AttributeError where its loop first uses it.
     */
    method Run(cls: ColumnHeadCrossShapeClass, t: Templates, ghost dims: Dimensions, net: Net,
               cols: seq<NodePair>, beams: seq<NodePair>, floors: seq<nat>) returns (raised: Option<Error>)
      requires Valid() && State() == Empty && Ready(cls, dims)
      requires NetOK(net) && EdgesOf(net, cols) && EdgesOf(net, beams) && FacesOf(net, floors)
      modifies this, model, cls, cls.instance
      ensures Valid() && model == old(model)
      ensures Follows(raised, GridBuild(net, t, dims, cols, beams, floors), State())
    {
      raised := AddTemplateHeads(cls, t, dims, net, cols);
      if raised.Some? {
        return;
      }
      raised := AddAfterHeads(net, t, cols, beams, floors);
      if raised.Some? {
        return;
      }
      ElementLoopsRegistered(TemplateHeads(net, t.columnHead, dims), net, cols, beams, floors);
      assert ElementPhase(net, t, dims, cols, beams, floors) == Ok(State());
      raised := AddColumnInteractions(net, t, cols);
      if raised.Some? {
        return;
      }
      raised := AddBeamInteractions(net, t, beams);
      if raised.Some? {
        return;
      }
      raised := AddFloorInteractions(net, t);
    }
  }

  /**
   * GridModel.from_lines_and_surfaces from the network's column edges,
   * beam edges and floor faces: the model a new builder is left with, or
   * the exception it raises.
   */
  method FromNetwork(cls: ColumnHeadCrossShapeClass, t: Templates, ghost dims: Dimensions, net: Net,
                     cols: seq<NodePair>, beams: seq<NodePair>, floors: seq<nat>) returns (g: GridBuilder, raised: Option<Error>)
    requires Ready(cls, dims)
    requires NetOK(net) && EdgesOf(net, cols) && EdgesOf(net, beams) && FacesOf(net, floors)
    modifies cls, cls.instance
    ensures Follows(raised, GridBuild(net, t, dims, cols, beams, floors), g.State())
  {
    g := new GridBuilder();
    raised := g.Run(cls, t, dims, net, cols, beams, floors);
  }
}
