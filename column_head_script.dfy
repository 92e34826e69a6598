/**
 * The working script the column-head shape grew out of: the same rule
 * generation on a list, a fix-up loop that really clears the diagonal flags
 * it cannot honour, the same faces without direction tags, and the worked
 * example it runs at module level.
 */
module ColumnHeadScript {
  import opened Base
  import opened Directions
  import opened ColumnHeadRules
  import opened MeshTopology
  import opened ColumnHeadMesh
  import opened ColumnHeadShape

  /** generate_rules: the loops of the class version, returning a fresh mutable list. */
  method GenerateRulesList(v: map<int, Point>, e: seq<Edge>, f: seq<seq<int>>) returns (result: Result<array<bool>>)
    ensures result.Ok? <==> GenerateRules(v, e, f).Ok?
    ensures result.Err? ==> result.error == GenerateRules(v, e, f).error
    ensures result.Ok? ==> fresh(result.value) && result.value[..] == GenerateRules(v, e, f).value
  {
    var scan := ScanEdgesLoop(v, e);
    if scan.Err? {
      return Err(scan.error);
    }
    var rules := ScanFacesLoop(scan.value.directions, f, scan.value.rules);
    if rules.Err? {
      return Err(rules.error);
    }
    var list := new bool[8](i requires 0 <= i < 8 => rules.value[i]);
    return Ok(list);
  }

  /**
   * The script's fix-up loop: a floor-plate flag whose two beam flags are
   * not both set is cleared in the list itself.
   */
  method FixUp(rules: array<bool>)
    requires rules.Length == 8
    modifies rules
    ensures rules[..] == FixedUp(old(rules[..]))
  {
    ghost var r: Rules := rules[..];
    ghost var target := FixedUp(r);
    for i := 0 to 4
      invariant forall d :: 0 <= d < i * 2 ==> rules[d] == target[d]
      invariant forall d :: i * 2 <= d < 8 ==> rules[d] == r[d]
    {
      FixedUpPair(r, i);
      if rules[i * 2 + 1] {
        if !rules[i * 2] || !rules[(i * 2 + 2) % 8] {
          rules[i * 2 + 1] := false;
        }
      }
    }
    assert rules[..] == target;
  }

  /**
   * Step i of the fix-up settles cardinal 2i, which it keeps, and diagonal
   * 2i + 1; the cardinal after it is the next one, or cardinal 0 at i = 3.
   */
  lemma FixedUpPair(r: Rules, i: int)
    requires 0 <= i < 4
    ensures FixedUp(r)[i * 2] == r[i * 2]
    ensures FixedUp(r)[i * 2 + 1] == (r[i * 2 + 1] && r[i * 2] && r[(i * 2 + 2) % 8])
    ensures (i * 2 + 2) % 8 == i * 2 + 2 || ((i * 2 + 2) % 8 == 0 && i == 3)
  {
    var d: Direction := i * 2 + 1;
    assert Prev(d) == i * 2 && Next(d) == (i * 2 + 2) % 8;
  }

  /** The clearing the fix-up does: diagonals missing a cardinal go, cardinals stay, consistent lists stay as they are. */
  lemma FixUpClears(r: Rules)
    ensures Consistent(FixedUp(r))
    ensures forall d: Direction :: IsCardinal(d) ==> FixedUp(r)[d] == r[d]
    ensures forall d: Direction :: !IsCardinal(d) && r[d] && !(r[Prev(d)] && r[Next(d)]) ==> !FixedUp(r)[d]
    ensures Consistent(r) ==> FixedUp(r) == r
  {
    FixedUpIsIdentityOnConsistent(r);
  }

  /** The script's mesh: vertex keys with their points, and untagged faces. */
  datatype ScriptMesh = ScriptMesh(vertices: map<int, Point>, faces: seq<Face>)

  /**
   * The module-level script for the local graph (v, e, f): generate the
   * rules, fix them up in the list, add the faces, build the mesh with the
   * 150/150/300/210 dimensions and drop the unused vertices.
   */
  method RunScript(v: map<int, Point>, e: seq<Edge>, f: seq<seq<int>>) returns (result: Result<ScriptMesh>)
    ensures result.Ok? <==> GenerateRules(v, e, f).Ok?
    ensures result.Err? ==> result.error == GenerateRules(v, e, f).error
    ensures result.Ok? ==>
      var head := MeshOf(GenerateRules(v, e, f).value, Dimensions(150.0, 150.0, 300.0, 210.0));
      head.Ok? && result.value == ScriptMesh(head.value.vertices, Shapes(head.value.faces))
  {
    var listed := GenerateRulesList(v, e, f);
    if listed.Err? {
      return Err(listed.error);
    }
    var rules := listed.value;
    GeneratedRulesAreConsistent(v, e, f);
    FixUp(rules);
    FixUpClears(GenerateRules(v, e, f).value);
    var vertices := HeadVertices(150.0, 150.0, 300.0, 210.0);
    var faces := BuildFaces(rules[..]);
    return Ok(ScriptMesh(RemoveUnused(Keyed(vertices), faces), Shapes(faces)));
  }

  /** The worked example of the script: a junction with a south and an east beam and the floor between them. */
  const ExampleV: map<int, Point> := map[
    7 := Vector(0.0, 0.0, 0.0),
    5 := Vector(-1.0, 0.0, 0.0),
    6 := Vector(0.0, 1.0, 0.0),
    8 := Vector(0.0, -1.0, 0.0),
    2 := Vector(1.0, 0.0, 0.0)
  ]

  const ExampleE: seq<Edge> := [(7, 8), (7, 2)]

  const ExampleF: seq<seq<int>> := [[2, 7, 8, 10]]

  /** The directions the example's edges record: the first points south, the second east. */
  const ExampleDirections: map<Edge, Direction> := map[(7, 8) := South, (8, 7) := South, (7, 2) := East, (2, 7) := East]

  lemma ExampleEdgeDirections()
    ensures DirectionOf(Sub(ExampleV[8], ExampleV[7])) == Ok(South)
    ensures DirectionOf(Sub(ExampleV[2], ExampleV[7])) == Ok(East)
  {
    var south := Vector(0.0, -1.0, 0.0);
    var east := Vector(1.0, 0.0, 0.0);
    assert Sub(ExampleV[8], ExampleV[7]) == south;
    assert Sub(ExampleV[2], ExampleV[7]) == east;
    ClosestRegions(south);
    ClosestRegions(east);
  }

  /** The edge loop on the example sets south and east and records both edges both ways. */
  lemma ExampleEdgeScan()
    ensures ScanEdges(ExampleV, ExampleE, 2) == Ok(EdgeScan(NoRules[South := true][East := true], ExampleDirections))
  {
    var s1 := ExampleFirstEdge();
    ExampleEdgeDirections();
    ExampleEdgeStep(ExampleV, (7, 2), s1, East);
    assert ExampleE[1] == (7, 2);
  }

  /** The first edge points south. */
  lemma ExampleFirstEdge() returns (s1: EdgeScan)
    ensures s1 == EdgeScan(NoRules[South := true], map[(7, 8) := South][(8, 7) := South])
    ensures ScanEdges(ExampleV, ExampleE, 1) == Ok(s1)
  {
    s1 := EdgeScan(NoRules[South := true], map[(7, 8) := South][(8, 7) := South]);
    ExampleEdgeDirections();
    ExampleEdgeStep(ExampleV, (7, 8), EdgeScan(NoRules, map[]), South);
    assert ExampleE[0] == (7, 8);
  }

  /** One step of the edge loop over an edge whose direction is known. */
  lemma ExampleEdgeStep(v: map<int, Point>, edge: Edge, acc: EdgeScan, d: Direction)
    requires edge.0 in v && edge.1 in v
    requires DirectionOf(Sub(v[edge.1], v[edge.0])) == Ok(d)
    ensures ScanEdge(v, edge, acc) == Ok(EdgeScan(acc.rules[d := true], acc.directions[(edge.0, edge.1) := d][(edge.1, edge.0) := d]))
  {
  }

  /** The example's floor face meets the east edge, then the south edge: south-east. */
  lemma ExampleFaceDirection()
    ensures FaceDirection(ExampleDirections, [2, 7, 8, 10]) == Ok(SouthEast)
  {
    var m := ExampleDirections;
    var face := [2, 7, 8, 10];
    assert FaceEdgeDirections(m, face, 1) == [East];
    assert FaceEdgeDirections(m, face, 2) == [East, South];
    assert (8, 10) !in m && (10, 2) !in m;
    assert FaceEdgeDirections(m, face, 3) == [East, South];
    assert FaceEdgeDirections(m, face, 4) == [East, South];
  }

  /** The example sets exactly south, south-east and east. */
  lemma ExampleRules()
    ensures GenerateRules(ExampleV, ExampleE, ExampleF) == Ok([false, false, false, false, true, true, true, false])
  {
    var set3 := ExampleGenerated();
    ExampleFlagsSet(set3);
  }

  /** GenerateRules on the example, as updates of the empty rules. */
  lemma ExampleGenerated() returns (set3: Rules)
    ensures set3 == NoRules[South := true][East := true][SouthEast := true]
    ensures GenerateRules(ExampleV, ExampleE, ExampleF) == Ok(set3)
  {
    ExampleEdgeScan();
    var start := ExampleFaceScan();
    set3 := start[SouthEast := true];
    assert |ExampleE| == 2 && |ExampleF| == 1;
  }

  lemma ExampleFlagsSet(set3: Rules)
    requires set3 == NoRules[South := true][East := true][SouthEast := true]
    ensures set3 == [false, false, false, false, true, true, true, false]
  {
  }

  /** The face loop on the example adds south-east to what the edge loop set. */
  lemma ExampleFaceScan() returns (start: Rules)
    ensures start == NoRules[South := true][East := true]
    ensures ScanFaces(ExampleDirections, ExampleF, 1, start) == Ok(start[SouthEast := true])
  {
    start := NoRules[South := true][East := true];
    ExampleFaceDirection();
    assert ScanFaces(ExampleDirections, ExampleF, 0, start) == Ok(start);
    assert ExampleF[0] == [2, 7, 8, 10];
  }

  /** The rules of the example, as the script's fix-up leaves them. */
  const ExampleFlags: Rules := [false, false, false, false, true, true, true, false]

  /**
   * The faces of the example: the two quads, south and south-east and east
   * twice each, the closing triangles at outer vertices 4 and 7, and the
   * walls under north and west.
   */
  lemma ExampleFaces(r: Rules)
    requires r == ExampleFlags
    ensures Shapes(HeadFaces(r)) == [
      [8, 9, 10, 11], [12, 13, 14, 15],
      [4, 5, 11, 10], [4, 5, 15, 14], [5, 6, 11], [5, 6, 15], [6, 7, 8, 11], [6, 7, 12, 15],
      [4, 10, 14], [7, 8, 12],
      [8, 9, 13, 12], [9, 10, 14, 13]
    ]
  {
    assert !r[0] && !r[1] && !r[2] && !r[3] && r[4] && r[5] && r[6] && !r[7];
    var faces := ExampleHeadFaces(r);
    ExampleShapes(faces);
  }

  lemma ExampleShapes(faces: seq<HeadFace>)
    requires faces == [
      HeadFace([8, 9, 10, 11], None), HeadFace([12, 13, 14, 15], None),
      HeadFace([4, 5, 11, 10], None), HeadFace([4, 5, 15, 14], Some(South)),
      HeadFace([5, 6, 11], None), HeadFace([5, 6, 15], Some(SouthEast)),
      HeadFace([6, 7, 8, 11], None), HeadFace([6, 7, 12, 15], Some(East)),
      HeadFace([4, 10, 14], None), HeadFace([7, 8, 12], None),
      HeadFace([8, 9, 13, 12], None), HeadFace([9, 10, 14, 13], None)]
    ensures Shapes(faces) == [
      [8, 9, 10, 11], [12, 13, 14, 15],
      [4, 5, 11, 10], [4, 5, 15, 14], [5, 6, 11], [5, 6, 15], [6, 7, 8, 11], [6, 7, 12, 15],
      [4, 10, 14], [7, 8, 12],
      [8, 9, 13, 12], [9, 10, 14, 13]
    ]
  {
  }

  /** The example's faces with their tags: the top faces of south, south-east and east. */
  lemma ExampleHeadFaces(r: Rules) returns (faces: seq<HeadFace>)
    requires !r[0] && !r[1] && !r[2] && !r[3] && r[4] && r[5] && r[6] && !r[7]
    ensures faces == [
      HeadFace([8, 9, 10, 11], None), HeadFace([12, 13, 14, 15], None),
      HeadFace([4, 5, 11, 10], None), HeadFace([4, 5, 15, 14], Some(South)),
      HeadFace([5, 6, 11], None), HeadFace([5, 6, 15], Some(SouthEast)),
      HeadFace([6, 7, 8, 11], None), HeadFace([6, 7, 12, 15], Some(East)),
      HeadFace([4, 10, 14], None), HeadFace([7, 8, 12], None),
      HeadFace([8, 9, 13, 12], None), HeadFace([9, 10, 14, 13], None)]
    ensures HeadFaces(r) == faces
  {
    var quads := [HeadFace([8, 9, 10, 11], None), HeadFace([12, 13, 14, 15], None)];
    assert SlotFaces(r, 2) == quads by {
      SlotFacesStep(r, 0);
      SlotFacesStep(r, 1);
    }
    var dirs := [
      HeadFace([4, 5, 11, 10], None), HeadFace([4, 5, 15, 14], Some(South)),
      HeadFace([5, 6, 11], None), HeadFace([5, 6, 15], Some(SouthEast)),
      HeadFace([6, 7, 8, 11], None), HeadFace([6, 7, 12, 15], Some(East))];
    ExampleDirectionBlocks(r);
    var closing := [HeadFace([4, 10, 14], None), HeadFace([7, 8, 12], None)];
    ExampleClosingBlocks(r);
    var walls := [HeadFace([8, 9, 13, 12], None), HeadFace([9, 10, 14, 13], None)];
    ExampleWallBlocks(r);
    faces := quads + dirs + closing + walls;
  }

  lemma ExampleWallBlocks(r: Rules)
    requires !r[0] && !r[2] && r[4] && r[6]
    ensures HeadFaces(r) == SlotFaces(r, 34) + [HeadFace([8, 9, 13, 12], None), HeadFace([9, 10, 14, 13], None)]
  {
    WallBlock(r, 0);
    WallBlock(r, 1);
    WallBlock(r, 2);
    WallBlock(r, 3);
  }

  lemma ExampleDirectionBlocks(r: Rules)
    requires !r[0] && !r[1] && !r[2] && !r[3] && r[4] && r[5] && r[6] && !r[7]
    ensures SlotFaces(r, 18) == SlotFaces(r, 2) + [
      HeadFace([4, 5, 11, 10], None), HeadFace([4, 5, 15, 14], Some(South)),
      HeadFace([5, 6, 11], None), HeadFace([5, 6, 15], Some(SouthEast)),
      HeadFace([6, 7, 8, 11], None), HeadFace([6, 7, 12, 15], Some(East))]
  {
    ExampleUnsetDirections(r);
    var south := ExampleSetDirection(r, 4);
    var southEast := ExampleSetDirection(r, 5);
    var east := ExampleSetDirection(r, 6);
    DirectionBlock(r, 7);
    assert south == [HeadFace([4, 5, 11, 10], None), HeadFace([4, 5, 15, 14], Some(South))];
    assert southEast == [HeadFace([5, 6, 11], None), HeadFace([5, 6, 15], Some(SouthEast))];
    assert east == [HeadFace([6, 7, 8, 11], None), HeadFace([6, 7, 12, 15], Some(East))];
  }

  /** North, north-west, west and south-west add no face. */
  lemma ExampleUnsetDirections(r: Rules)
    requires !r[0] && !r[1] && !r[2] && !r[3]
    ensures SlotFaces(r, 10) == SlotFaces(r, 2)
  {
    DirectionBlock(r, 0);
    DirectionBlock(r, 1);
    DirectionBlock(r, 2);
    DirectionBlock(r, 3);
  }

  /** A set direction adds its bottom face and its tagged top face. */
  lemma ExampleSetDirection(r: Rules, d: Direction) returns (added: seq<HeadFace>)
    requires r[d]
    ensures added == [HeadFace(DirFace(d, 0), None), HeadFace(DirFace(d, 1), Some(d))]
    ensures SlotFaces(r, 4 + 2 * d) == SlotFaces(r, 2 + 2 * d) + added
  {
    DirectionBlock(r, d);
    DirectionSlots(d);
    added := [HeadFace(DirFace(d, 0), None), HeadFace(DirFace(d, 1), Some(d))];
  }

  lemma ExampleClosingBlocks(r: Rules)
    requires !r[0] && !r[1] && !r[2] && !r[3] && r[4] && r[5] && r[6] && !r[7]
    ensures SlotFaces(r, 34) == SlotFaces(r, 18) + [HeadFace([4, 10, 14], None), HeadFace([7, 8, 12], None)]
  {
    var c3 := HeadFace([4, 10, 14], None);
    var c7 := HeadFace([7, 8, 12], None);
    ExampleNoClosingBefore(r);
    ExampleClosingAtThree(r);
    ExampleNoClosingAfter(r);
    ExampleClosingAtSeven(r);
    assert SlotFaces(r, 18) + [c3] + [c7] == SlotFaces(r, 18) + [c3, c7];
  }

  /** Steps 0 to 2 see unset directions on both sides: no triangle. */
  lemma ExampleNoClosingBefore(r: Rules)
    requires !r[7] && !r[0] && !r[1] && !r[2] && !r[3]
    ensures SlotFaces(r, 24) == SlotFaces(r, 18)
  {
    ClosingBlock(r, 0);
    ClosingBlock(r, 1);
    ClosingBlock(r, 2);
  }

  /** Step 3: south-west is unset and south is set, so the triangle at outer vertex 4. */
  lemma ExampleClosingAtThree(r: Rules)
    requires !r[2] && !r[3] && r[4]
    ensures SlotFaces(r, 26) == SlotFaces(r, 24) + [HeadFace([4, 10, 14], None)]
  {
    ClosingBlock(r, 3);
    assert ClosingFace(Next(3)) == [4, 10, 14];
  }

  /** Steps 4 to 6 are set directions: no triangle. */
  lemma ExampleNoClosingAfter(r: Rules)
    requires r[4] && r[5] && r[6]
    ensures SlotFaces(r, 32) == SlotFaces(r, 26)
  {
    ClosingBlock(r, 4);
    ClosingBlock(r, 5);
    ClosingBlock(r, 6);
  }

  /** Step 7: north-east is unset and east is set, so the triangle at outer vertex 7. */
  lemma ExampleClosingAtSeven(r: Rules)
    requires r[6] && !r[7] && !r[0]
    ensures SlotFaces(r, 34) == SlotFaces(r, 32) + [HeadFace([7, 8, 12], None)]
  {
    ClosingBlock(r, 7);
    assert ClosingFace(7) == [7, 8, 12];
  }
}
