/**
 * ColumnHeadCrossShape: the object that turns a column's neighbourhood into
 * rules and the rules into a cached mesh. Python makes it a singleton
 * (__new__ hands back the one instance), and __init__ runs on every call:
 * it sets the dimensions only the first time, generates the rules, builds or
 * reuses the mesh for them and remembers it as the last mesh.
 */
module ColumnHeadShape {
  import opened Base
  import opened Directions
  import opened ColumnHeadRules
  import opened MeshTopology
  import opened ColumnHeadMesh

  /** Once the edge loop raised, later edges change nothing. */
  lemma {:induction false} ScanEdgesErrorStays(v: map<int, Point>, e: seq<Edge>, i: nat, n: nat)
    requires i <= n <= |e| && ScanEdges(v, e, i).Err?
    ensures ScanEdges(v, e, n) == ScanEdges(v, e, i)
  {
    if i < n {
      ScanEdgesErrorStays(v, e, i, n - 1);
    }
  }

  /** One more edge: the loop's state so far, scanned with that edge. */
  lemma ScanEdgesNext(v: map<int, Point>, e: seq<Edge>, i: nat, acc: EdgeScan)
    requires i < |e| && ScanEdges(v, e, i) == Ok(acc)
    ensures ScanEdges(v, e, i + 1) == ScanEdge(v, e[i], acc)
  {
  }

  /** Once the face loop raised, later faces change nothing. */
  lemma {:induction false} ScanFacesErrorStays(directions: map<Edge, Direction>, f: seq<seq<int>>, j: nat, n: nat, start: Rules)
    requires j <= n <= |f| && ScanFaces(directions, f, j, start).Err?
    ensures ScanFaces(directions, f, n, start) == ScanFaces(directions, f, j, start)
  {
    if j < n {
      ScanFacesErrorStays(directions, f, j, n - 1, start);
    }
  }

  /** The shape's dimensions, as __init__ records them the first time. */
  datatype Dimensions = Dimensions(width: real, depth: real, height: real, offset: real)

  function MeshOf(r: Rules, dims: Dimensions): Result<HeadMesh>
  {
    MeshFor(r, dims.width, dims.depth, dims.height, dims.offset)
  }

  /** The cache invariant of ColumnHeadCrossShape, on the values of its fields. */
  ghost predicate CacheSound(initialized: bool, dims: Dimensions, cache: map<Rules, HeadMesh>, last: Option<HeadMesh>)
  {
    (cache != map[] ==> initialized)
    && (forall k :: k in cache ==> Consistent(k) && MeshOf(k, dims) == Ok(cache[k]))
    && (last.Some? <==> cache != map[])
    && (last.Some? ==> exists k :: k in cache && cache[k] == last.value)
  }

  /** Caching the mesh the dimensions give for consistent rules, and making it the last one, keeps the cache sound. */
  lemma CacheStep(initialized: bool, dims: Dimensions, cache: map<Rules, HeadMesh>, last: Option<HeadMesh>, r: Rules, m: HeadMesh)
    requires CacheSound(initialized, dims, cache, last) && Consistent(r) && MeshOf(r, dims) == Ok(m)
    ensures CacheSound(true, dims, cache[r := m], Some(m))
  {
    assert r in cache[r := m] && cache[r := m][r] == m;
  }

  class ColumnHeadCrossShape {
    /** Whether an __init__ call has run to its end (Python: hasattr(self, "_initialized")). */
    var initialized: bool
    var dims: Dimensions
    /** _generated_meshes: the mesh built for each rule vector so far. */
    var generatedMeshes: map<Rules, HeadMesh>
    /** _last_mesh: the mesh of the latest successful __init__, the mesh property. */
    var lastMesh: Option<HeadMesh>

    /**
     * The cache is sound: a mesh is cached only once the dimensions are
     * fixed, and every cached mesh is the one the current dimensions give
     * for its (consistent) key; the last mesh is one of them.
     */
    ghost predicate Valid()
      reads this
    {
      CacheSound(initialized, dims, generatedMeshes, lastMesh)
    }

    /** __new__ on first use: no attributes but the empty class-level cache and last mesh. */
    constructor ()
      ensures Valid() && !initialized && generatedMeshes == map[] && lastMesh == None
    {
      initialized := false;
      dims := Dimensions(0.0, 0.0, 0.0, 0.0);
      generatedMeshes := map[];
      lastMesh := None;
    }

    /** The mesh property. */
    function Mesh(): (m: Option<HeadMesh>)
      reads this
      requires Valid()
      ensures m.Some? <==> generatedMeshes != map[]
      ensures m.Some? ==> exists k :: k in generatedMeshes && MeshOf(k, dims) == Ok(m.value)
    {
      lastMesh
    }

    /**
     * _generate_rules: flags every edge's direction and every floor face's
     * diagonal, raising on an unknown vertex, a zero-length edge, a face
     * without exactly two known edges or a pair of edges with no diagonal.
     */
    method GenerateRulesOf(v: map<int, Point>, e: seq<Edge>, f: seq<seq<int>>) returns (result: Result<Rules>)
      ensures result == GenerateRules(v, e, f)
      ensures result.Ok? ==> Consistent(result.value)
    {
      var scan := ScanEdgesLoop(v, e);
      if scan.Err? {
        return Err(scan.error);
      }
      result := ScanFacesLoop(scan.value.directions, f, scan.value.rules);
      if result.Ok? {
        GeneratedRulesAreConsistent(v, e, f);
      }
    }

    /**
     * _generate_mesh: the cached mesh when the rules were seen before;
     * otherwise the fix-up loop (which raises TypeError on the rule tuple when
     * a diagonal lacks one of its cardinals), then the faces in the order
     * they are added, then the unused vertices removed.
     */
    method GenerateMesh(rules: Rules) returns (result: Result<HeadMesh>)
      ensures rules in generatedMeshes ==> result == Ok(generatedMeshes[rules])
      ensures rules !in generatedMeshes ==> result == MeshOf(rules, dims)
    {
      if rules in generatedMeshes {
        return Ok(generatedMeshes[rules]);
      }
      var vertices := HeadVertices(dims.width, dims.depth, dims.height, dims.offset);
      var i := 0;
      while i < 4
        invariant 0 <= i <= 4
        invariant forall d: Direction :: !IsCardinal(d) && d < 2 * i && rules[d] ==> rules[Prev(d)] && rules[Next(d)]
      {
        if rules[i * 2 + 1] && (!rules[i * 2] || !rules[(i * 2 + 2) % 8]) {
          assert !Consistent(rules) by {
            var d: Direction := 2 * i + 1;
            assert !IsCardinal(d) && rules[d] && !(rules[Prev(d)] && rules[Next(d)]);
          }
          return Err(TypeError);
        }
        i := i + 1;
      }
      var faces := BuildFaces(rules);
      var mesh := HeadMesh(RemoveUnused(Keyed(vertices), faces), faces);
      return Ok(mesh);
    }

    /**
     * __init__: records the dimensions unless an earlier call ran to its end,
     * generates the rules, caches the mesh for them and makes it the last
     * mesh. An exception leaves the cache, the last mesh and the initialized
     * mark as they were (but dimensions written before it stay written).
     */
    method Init(v: map<int, Point>, e: seq<Edge>, f: seq<seq<int>>,
                width: real := 150.0, depth: real := 150.0, height: real := 300.0, offset: real := 210.0)
      returns (result: Result<()>)
      requires Valid()
      modifies this
      ensures Valid()
      ensures dims == if old(initialized) then old(dims) else Dimensions(width, depth, height, offset)
      ensures result.Ok? <==> GenerateRules(v, e, f).Ok?
      ensures result.Err? ==> result.error == GenerateRules(v, e, f).error
      ensures result.Err? ==>
        initialized == old(initialized) && generatedMeshes == old(generatedMeshes) && lastMesh == old(lastMesh)
      ensures result.Ok? ==>
        var rules := GenerateRules(v, e, f).value;
        initialized && MeshOf(rules, dims).Ok?
        && generatedMeshes == old(generatedMeshes)[rules := MeshOf(rules, dims).value]
        && lastMesh == Some(MeshOf(rules, dims).value)
    {
      if !initialized {
        dims := Dimensions(width, depth, height, offset);
      }
      assert Valid();
      var rules := GenerateRulesOf(v, e, f);
      if rules.Err? {
        return Err(rules.error);
      }
      ghost var (initialized0, cache0, last0) := (initialized, generatedMeshes, lastMesh);
      var mesh := GenerateMesh(rules.value);
      assert mesh == MeshOf(rules.value, dims);
      CacheStep(initialized0, dims, cache0, last0, rules.value, mesh.value);
      generatedMeshes := generatedMeshes[rules.value := mesh.value];
      lastMesh := Some(generatedMeshes[rules.value]);
      initialized := true;
      assert CacheSound(initialized, dims, generatedMeshes, lastMesh);
      return Ok(());
    }
  }

  /** The edge loop of _generate_rules. */
  method ScanEdgesLoop(v: map<int, Point>, e: seq<Edge>) returns (result: Result<EdgeScan>)
    ensures result == ScanEdges(v, e, |e|)
  {
    var rules: Rules := NoRules;
    var edgeDirections: map<Edge, Direction> := map[];
    var i := 0;
    while i < |e|
      invariant 0 <= i <= |e|
      invariant ScanEdges(v, e, i) == Ok(EdgeScan(rules, edgeDirections))
    {
      var edge := e[i];
      ScanEdgesNext(v, e, i, EdgeScan(rules, edgeDirections));
      if edge.0 !in v || edge.1 !in v {
        ScanEdgesErrorStays(v, e, i + 1, |e|);
        return Err(ValueError);
      }
      var vector := Sub(v[edge.1], v[edge.0]);
      var direction := DirectionOf(vector);
      if direction.Err? {
        ScanEdgesErrorStays(v, e, i + 1, |e|);
        return Err(direction.error);
      }
      rules := rules[direction.value := true];
      edgeDirections := edgeDirections[(edge.0, edge.1) := direction.value];
      edgeDirections := edgeDirections[(edge.1, edge.0) := direction.value];
      i := i + 1;
    }
    return Ok(EdgeScan(rules, edgeDirections));
  }





  /** The inner loop over one face: the recorded directions of its known edges, in order. */
  method FaceEdgeDirectionsLoop(edgeDirections: map<Edge, Direction>, face: seq<int>) returns (found: seq<Direction>)
    ensures found == FaceEdgeDirections(edgeDirections, face, |face|)
  {
    found := [];
    var k := 0;
    while k < |face|
      invariant 0 <= k <= |face|
      invariant found == FaceEdgeDirections(edgeDirections, face, k)
    {
      var pair := (face[k], face[(k + 1) % |face|]);
      if pair in edgeDirections {
        found := found + [edgeDirections[pair]];
      }
      k := k + 1;
    }
  }

  /** The face loop of _generate_rules, starting from the flags the edges set. */
  method ScanFacesLoop(edgeDirections: map<Edge, Direction>, f: seq<seq<int>>, start: Rules) returns (result: Result<Rules>)
    ensures result == ScanFaces(edgeDirections, f, |f|, start)
  {
    var rules := start;
    var j := 0;
    while j < |f|
      invariant 0 <= j <= |f|
      invariant ScanFaces(edgeDirections, f, j, start) == Ok(rules)
    {
      var found := FaceEdgeDirectionsLoop(edgeDirections, f[j]);
      if |found| != 2 {
        ScanFacesErrorStays(edgeDirections, f, j + 1, |f|, start);
        return Err(ValueError);
      }
      var combined := Combine(found[0], found[1]);
      if combined.None? {
        ScanFacesErrorStays(edgeDirections, f, j + 1, |f|, start);
        return Err(KeyError);
      }
      var next: Rules := rules[combined.value := true];
      rules := next;
      j := j + 1;
    }
    return Ok(rules);
  }

  /**
   * The faces _generate_mesh adds for consistent rules, in order: the two
   * quads, the eight direction blocks, the closing triangles of the loop over
   * the outer vertices, the walls of the loop over the quad sides.
   */
  method BuildFaces(rules: Rules) returns (faces: seq<HeadFace>)
    requires Consistent(rules)
    ensures faces == HeadFaces(rules)
  {
    faces := [HeadFace([8, 9, 10, 11], None), HeadFace([12, 13, 14, 15], None)];
    assert faces == SlotFaces(rules, 2);
    faces := AddDirectionFaces(rules, faces);
    faces := AddClosingFaces(rules, faces);
    faces := AddWallFaces(rules, faces);
  }

  /**
   * The two faces of each active direction, the bottom face and then the top
   * face tagged with the direction, written out direction by direction.
   */
  method AddDirectionFaces(rules: Rules, before: seq<HeadFace>) returns (faces: seq<HeadFace>)
    requires before == SlotFaces(rules, 2)
    ensures faces == SlotFaces(rules, 18)
  {
    faces := before;
    faces := AddDirection(rules, North, [0, 1, 9, 8], [0, 1, 13, 12], faces);
    faces := AddDirection(rules, NorthWest, [1, 2, 9], [1, 2, 13], faces);
    faces := AddDirection(rules, West, [2, 3, 10, 9], [2, 3, 14, 13], faces);
    faces := AddDirection(rules, SouthWest, [3, 4, 10], [3, 4, 14], faces);
    faces := AddDirection(rules, South, [4, 5, 11, 10], [4, 5, 15, 14], faces);
    faces := AddDirection(rules, SouthEast, [5, 6, 11], [5, 6, 15], faces);
    faces := AddDirection(rules, East, [6, 7, 8, 11], [6, 7, 12, 15], faces);
    faces := AddDirection(rules, NorthEast, [7, 0, 8], [7, 0, 12], faces);
  }

  /** One `if rule[d]` block: the bottom face, then the top face tagged d. */
  method AddDirection(rules: Rules, d: Direction, bottom: Face, top: Face, before: seq<HeadFace>)
    returns (faces: seq<HeadFace>)
    requires bottom == DirFace(d, 0) && top == DirFace(d, 1)
    requires before == SlotFaces(rules, 2 + 2 * d)
    ensures faces == SlotFaces(rules, 4 + 2 * d)
  {
    faces := before;
    if rules[d] {
      faces := faces + [HeadFace(bottom, None), HeadFace(top, Some(d))];
    }
    DirectionBlock(rules, d);
    DirectionSlots(d);
  }

  /** The closing triangles beside the active directions, one outer vertex at a time. */
  method AddClosingFaces(rules: Rules, before: seq<HeadFace>) returns (faces: seq<HeadFace>)
    requires before == SlotFaces(rules, 18)
    ensures faces == SlotFaces(rules, 34)
  {
    faces := before;
    for i := 0 to 8
      invariant faces == SlotFaces(rules, 18 + 2 * i)
    {
      faces := AddClosing(rules, i, faces);
    }
  }

  /**
   * Outer vertex i of an inactive direction: the triangle up to the inner
   * vertex of i when the direction before is active, and the one of i + 1
   * when the direction after is.
   */
  method AddClosing(rules: Rules, i: Direction, before: seq<HeadFace>) returns (faces: seq<HeadFace>)
    requires before == SlotFaces(rules, 18 + 2 * i)
    ensures faces == SlotFaces(rules, 20 + 2 * i)
  {
    ClosingBlock(rules, i);
    ClosingCode(i);
    ghost var first: seq<HeadFace> := if !rules[i] && rules[Prev(i)] then [HeadFace(ClosingFace(i), None)] else [];
    ghost var second: seq<HeadFace> := if !rules[i] && rules[Next(i)] then [HeadFace(ClosingFace(Next(i)), None)] else [];
    faces := before;
    if rules[i] {
      assert faces == before + first + second;
      return;
    }
    if rules[(i - 1) % 8] {
      var v0 := i % 8;
      var innerV := InnerVertex((i + 0) % 8);
      faces := faces + [HeadFace([v0, innerV, innerV + 4], None)];
      assert first == [HeadFace(ClosingFace(i), None)];
    } else {
      assert first == [];
    }
    ghost var afterFirst := faces;
    if rules[(i + 1) % 8] {
      var v0 := (i + 1) % 8;
      var innerV := InnerVertex((i + 1) % 8);
      faces := faces + [HeadFace([v0, innerV, innerV + 4], None)];
      assert second == [HeadFace(ClosingFace(Next(i)), None)];
    } else {
      assert second == [];
    }
    assert faces == afterFirst + second;
  }

  /** The indices AddClosing computes are the neighbours and closing triangles of direction i. */
  lemma ClosingCode(i: Direction)
    ensures (i - 1) % 8 == Prev(i) && (i + 1) % 8 == Next(i)
    ensures [i % 8, InnerVertex((i + 0) % 8), InnerVertex((i + 0) % 8) + 4] == ClosingFace(i)
    ensures [(i + 1) % 8, InnerVertex((i + 1) % 8), InnerVertex((i + 1) % 8) + 4] == ClosingFace(Next(i))
  {
    assert (i - 1) % 8 == Prev(i) by {
      if i == 0 { assert (i - 1) % 8 == 7; } else { assert (i - 1) % 8 == i - 1; }
    }
    assert i % 8 == i && (i + 0) % 8 == i;
    InnerVertexIsSpoke(i);
    var n := (i + 1) % 8;
    assert n == Next(i);
    InnerVertexIsSpoke(n);
  }

  /** The walls under the inactive cardinal directions. */
  method AddWallFaces(rules: Rules, before: seq<HeadFace>) returns (faces: seq<HeadFace>)
    requires before == SlotFaces(rules, 34)
    ensures faces == SlotFaces(rules, 38)
  {
    faces := before;
    var k := 0;
    while k < 4
      invariant 0 <= k <= 4
      invariant faces == SlotFaces(rules, 34 + k)
    {
      WallBlock(rules, k);
      if !rules[k * 2] {
        var v0 := k + 8;
        var v1 := (k + 1) % 4 + 8;
        assert [v0, v1, v1 + 4, v0 + 4] == WallFace(k);
        faces := faces + [HeadFace([v0, v1, v1 + 4, v0 + 4], None)];
      }
      k := k + 1;
    }
  }

  /** The class object: __new__ hands out one instance for the whole program. */
  class ColumnHeadCrossShapeClass {
    var instance: ColumnHeadCrossShape?

    constructor ()
      ensures instance == null
    {
      instance := null;
    }

    /**
     * ColumnHeadCrossShape(v, e, f, ...): __new__ then __init__ on the one
     * instance, creating it on the first call only.
     */
    method Call(v: map<int, Point>, e: seq<Edge>, f: seq<seq<int>>,
                width: real := 150.0, depth: real := 150.0, height: real := 300.0, offset: real := 210.0)
      returns (shape: ColumnHeadCrossShape, result: Result<()>)
      requires instance != null ==> instance.Valid()
      modifies this, instance
      ensures instance == shape && shape.Valid()
      ensures old(instance) != null ==> shape == old(instance)
      ensures old(instance) == null ==> fresh(shape)
      ensures shape.dims == if old(instance) != null && old(instance.initialized) then old(instance.dims)
                            else Dimensions(width, depth, height, offset)
      ensures old(instance) != null && old(instance.initialized) ==> shape.initialized
      ensures result.Ok? <==> GenerateRules(v, e, f).Ok?
      ensures result.Err? ==> result.error == GenerateRules(v, e, f).error
      ensures result.Ok? ==>
        var rules := GenerateRules(v, e, f).value;
        shape.initialized && MeshOf(rules, shape.dims).Ok? && shape.lastMesh == Some(MeshOf(rules, shape.dims).value)
    {
      if instance == null {
        instance := new ColumnHeadCrossShape();
      }
      shape := instance;
      result := shape.Init(v, e, f, width, depth, height, offset);
    }
  }
}
