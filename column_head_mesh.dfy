/**
 * The column-head mesh that ColumnHeadCrossShape._generate_mesh builds from a
 * rule vector: sixteen vertices (an outer ring of eight at the bottom, an
 * inner quad at the bottom and the same quad on top), the bottom and top quad,
 * two faces per active direction (the top one tagged with the direction), a
 * vertical triangle beside every active direction whose neighbour is
 * inactive, and a vertical wall under every inactive cardinal direction.
 *
 * The faces are listed as _generate_mesh adds them. To reason about them the
 * model numbers the 38 faces it could ever add ("slots") in that same order;
 * a rule vector switches each slot on or off.
 */
module ColumnHeadMesh {
  import opened Base
  import opened Directions
  import opened ColumnHeadRules
  import opened MeshTopology

  /** A mesh face and its "direction" attribute (only top faces of a direction carry one). */
  datatype HeadFace = HeadFace(vertices: Face, direction: Option<Direction>)

  /**
   * A compas Mesh as the column head uses it: vertex keys to points, and the
   * faces in the order they were added (face key k is position k).
   */
  datatype HeadMesh = HeadMesh(vertices: map<int, Point>, faces: seq<HeadFace>)

  /** Python's ceil on a real. */
  function Ceil(x: real): (c: int)
    ensures x <= c as real < x + 1.0
  {
    if x == x.Floor as real then x.Floor else x.Floor + 1
  }

  /** int(ceil(j * 0.5)) % 4 + 8: the inner-quad vertex that outer vertex j stands in front of. */
  function InnerVertex(j: int): (v: int)
    ensures 8 <= v < 12
  {
    Ceil(j as real * 0.5) % 4 + 8
  }

  /** The same inner-quad vertex with integer arithmetic only. */
  function Spoke(j: int): (v: int)
    ensures 8 <= v < 12
  {
    (j + 1) / 2 % 4 + 8
  }

  lemma InnerVertexIsSpoke(j: int)
    requires 0 <= j
    ensures InnerVertex(j) == Spoke(j)
  {
    var c := Ceil(j as real * 0.5);
    if j % 2 == 0 {
      assert j as real * 0.5 == (j / 2) as real;
      assert c == j / 2;
    } else {
      assert j as real * 0.5 == (j / 2) as real + 0.5;
      assert c == j / 2 + 1;
    }
  }

  /** The sixteen points of _generate_mesh, from the shape's width, depth, height and offset. */
  function HeadVertices(width: real, depth: real, height: real, offset: real): (vs: seq<Point>)
    ensures |vs| == 16
  {
    [
      Vector(width, depth + offset, -height),
      Vector(-width, depth + offset, -height),
      Vector(-width - offset, depth, -height),
      Vector(-width - offset, -depth, -height),
      Vector(-width, -depth - offset, -height),
      Vector(width, -depth - offset, -height),
      Vector(width + offset, -depth, -height),
      Vector(width + offset, depth, -height),
      Vector(width, depth, -height),
      Vector(-width, depth, -height),
      Vector(-width, -depth, -height),
      Vector(width, -depth, -height),
      Vector(width, depth, 0.0),
      Vector(-width, depth, 0.0),
      Vector(-width, -depth, 0.0),
      Vector(width, -depth, 0.0)
    ]
  }

  /** The unit vector of a cardinal direction. */
  function UnitOf(d: Direction): Vector
    requires IsCardinal(d)
  {
    if d == North then Vector(0.0, 1.0, 0.0)
    else if d == West then Vector(-1.0, 0.0, 0.0)
    else if d == South then Vector(0.0, -1.0, 0.0)
    else Vector(1.0, 0.0, 0.0)
  }

  /** The top quad is the inner quad lifted by the height; everything else lies at -height. */
  lemma TopQuadIsLifted(width: real, depth: real, height: real, offset: real)
    ensures var vs := HeadVertices(width, depth, height, offset);
      (forall k :: 8 <= k < 12 ==> vs[k + 4] == Add(vs[k], Vector(0.0, 0.0, height))) &&
      (forall k :: 0 <= k < 12 ==> vs[k].z == -height) &&
      (forall k :: 12 <= k < 16 ==> vs[k].z == 0.0)
  {
  }

  /**
   * Each outer vertex j is its inner vertex Spoke(j) pushed out by the offset
   * towards the cardinal direction of the arm j belongs to (0 and 1 north,
   * 2 and 3 west, 4 and 5 south, 6 and 7 east).
   */
  lemma OuterRingLayout(width: real, depth: real, height: real, offset: real, j: Direction)
    ensures var vs := HeadVertices(width, depth, height, offset);
      vs[j] == Add(vs[Spoke(j)], Scale(UnitOf(2 * (j / 2)), offset))
  {
    SpokeValues(j);
  }

  /**
   * The bottom (level 0) or top (level 1) face of direction d: a quad for a
   * cardinal, a triangle for a diagonal; the top face is the bottom face with
   * its inner vertices lifted to the top quad.
   */
  function DirFace(d: Direction, level: int): (f: Face)
    ensures |f| == (if IsCardinal(d) then 4 else 3)
    ensures f[0] == d && f[1] == Next(d)
  {
    if IsCardinal(d) then [d, d + 1, Spoke(d + 1) + 4 * level, Spoke(d) + 4 * level]
    else [d, Next(d), Spoke(d) + 4 * level]
  }

  /** The vertical triangle from outer vertex j up its inner column edge. */
  function ClosingFace(j: int): Face
  {
    [j, Spoke(j), Spoke(j) + 4]
  }

  /** The vertical wall under side k of the inner quad. */
  function WallFace(k: int): Face
  {
    [k + 8, (k + 1) % 4 + 8, (k + 1) % 4 + 12, k + 12]
  }

  const SlotCount: nat := 38

  /**
   * The slot-th face _generate_mesh may add: 0 and 1 the bottom and top quad,
   * 2 + 2d and 3 + 2d the bottom and top face of direction d, 18 + 2i and
   * 19 + 2i the two closing triangles the loop over i may add, 34 + k the wall
   * under side k.
   */
  function Slot(slot: int): (face: HeadFace)
    requires 0 <= slot < SlotCount
    ensures 3 <= |face.vertices| <= 4
  {
    if slot == 0 then HeadFace([8, 9, 10, 11], None)
    else if slot == 1 then HeadFace([12, 13, 14, 15], None)
    else if slot < 18 then
      var d: Direction := (slot - 2) / 2;
      if slot % 2 == 0 then HeadFace(DirFace(d, 0), None) else HeadFace(DirFace(d, 1), Some(d))
    else if slot < 34 then
      var i := (slot - 18) / 2;
      if slot % 2 == 0 then HeadFace(ClosingFace(i), None) else HeadFace(ClosingFace((i + 1) % 8), None)
    else HeadFace(WallFace(slot - 34), None)
  }

  /** Whether _generate_mesh adds the slot-th face for rule vector r. */
  predicate Present(r: Rules, slot: int)
    requires 0 <= slot < SlotCount
  {
    if slot < 2 then true
    else if slot < 18 then r[(slot - 2) / 2]
    else if slot < 34 then
      var i := (slot - 18) / 2;
      if slot % 2 == 0 then !r[i] && r[(i + 7) % 8] else !r[i] && r[(i + 1) % 8]
    else !r[2 * (slot - 34)]
  }

  /** The faces of the first n slots that r switches on, in slot order. */
  function SlotFaces(r: Rules, n: nat): (faces: seq<HeadFace>)
    requires n <= SlotCount
    ensures |faces| <= n
  {
    if n == 0 then []
    else SlotFaces(r, n - 1) + (if Present(r, n - 1) then [Slot(n - 1)] else [])
  }

  /** The faces of the column-head mesh for rule vector r, in the order they are added. */
  function HeadFaces(r: Rules): seq<HeadFace>
  {
    SlotFaces(r, SlotCount)
  }

  lemma SlotFacesStep(r: Rules, n: nat)
    requires n < SlotCount
    ensures SlotFaces(r, n + 1) == SlotFaces(r, n) + (if Present(r, n) then [Slot(n)] else [])
  {
  }

  lemma PresentDir(r: Rules, d: Direction)
    ensures Present(r, 2 + 2 * d) == r[d] && Present(r, 3 + 2 * d) == r[d]
  {
  }

  /** The block of direction d: its two faces follow the slots before it when d is active. */
  lemma DirectionBlock(r: Rules, d: Direction)
    ensures SlotFaces(r, 4 + 2 * d) == SlotFaces(r, 2 + 2 * d) + (if r[d] then [Slot(2 + 2 * d), Slot(3 + 2 * d)] else [])
  {
    var n := 2 + 2 * d;
    PresentDir(r, d);
    SlotFacesStep(r, n);
    SlotFacesStep(r, n + 1);
    var a := SlotFaces(r, n);
    if r[d] {
      assert a + [Slot(n)] + [Slot(n + 1)] == a + [Slot(n), Slot(n + 1)];
    }
  }

  /** The two slots of direction d hold its bottom face and its tagged top face. */
  lemma DirectionSlots(d: Direction)
    ensures Slot(2 + 2 * d) == HeadFace(DirFace(d, 0), None)
    ensures Slot(3 + 2 * d) == HeadFace(DirFace(d, 1), Some(d))
  {
    assert (2 + 2 * d - 2) / 2 == d;
    assert (3 + 2 * d - 2) / 2 == d;
  }

  /** Step i of the closing-triangle loop: the triangle at i, then the one at Next(i). */
  lemma ClosingBlock(r: Rules, i: Direction)
    ensures SlotFaces(r, 20 + 2 * i) ==
      SlotFaces(r, 18 + 2 * i)
      + (if !r[i] && r[Prev(i)] then [HeadFace(ClosingFace(i), None)] else [])
      + (if !r[i] && r[Next(i)] then [HeadFace(ClosingFace(Next(i)), None)] else [])
  {
    var n := 18 + 2 * i;
    SlotFacesStep(r, n);
    SlotFacesStep(r, n + 1);
  }

  /** Step k of the wall loop. */
  lemma WallBlock(r: Rules, k: int)
    requires 0 <= k < 4
    ensures SlotFaces(r, 35 + k) == SlotFaces(r, 34 + k) + (if !r[2 * k] then [HeadFace(WallFace(k), None)] else [])
  {
    SlotFacesStep(r, 34 + k);
  }

  /** The faces as plain index lists. */
  function Shapes(faces: seq<HeadFace>): (fs: seq<Face>)
    ensures |fs| == |faces|
    ensures forall k :: 0 <= k < |faces| ==> fs[k] == faces[k].vertices
  {
    seq(|faces|, k requires 0 <= k < |faces| => faces[k].vertices)
  }

  /** Mesh.remove_unused_vertices: drops every vertex no face uses; the others keep their keys. */
  function RemoveUnused(vertices: map<int, Point>, faces: seq<HeadFace>): (kept: map<int, Point>)
    ensures forall k :: k in kept <==> k in vertices && exists f :: f in faces && k in f.vertices
    ensures forall k :: k in kept ==> kept[k] == vertices[k]
  {
    map k | k in vertices && (exists f :: f in faces && k in f.vertices) :: vertices[k]
  }

  /** Vertex list as a compas mesh numbers it: position i has key i. */
  function Keyed(vs: seq<Point>): (m: map<int, Point>)
    ensures forall k :: k in m <==> 0 <= k < |vs|
    ensures forall k :: 0 <= k < |vs| ==> m[k] == vs[k]
  {
    map k | 0 <= k < |vs| :: vs[k]
  }

  /**
   * _generate_mesh for rules that are not cached yet. Its fix-up loop writes
   * into the rules, which are a tuple: when a diagonal has to be cleared the
   * assignment raises TypeError; otherwise the loop writes nothing.
   */
  function MeshFor(r: Rules, width: real, depth: real, height: real, offset: real): (m: Result<HeadMesh>)
    ensures m.Err? <==> !Consistent(r)
    ensures m.Err? ==> m.error == TypeError
    ensures m.Ok? ==> m.value.faces == HeadFaces(r)
  {
    if !Consistent(r) then Err(TypeError)
    else
      var faces := HeadFaces(r);
      Ok(HeadMesh(RemoveUnused(Keyed(HeadVertices(width, depth, height, offset)), faces), faces))
  }

  // ---------------------------------------------------------------------------
  // Which slots hold an edge, counted slot by slot.
  // ---------------------------------------------------------------------------

  /** Edge test on a face of three or four vertices, without a quantifier. */
  predicate Has34(f: Face, a: int, b: int)
    requires 3 <= |f| <= 4
  {
    Joins(f, 0, a, b) || Joins(f, 1, a, b) || Joins(f, 2, a, b) || (|f| == 4 && Joins(f, 3, a, b))
  }

  predicate SlotHasEdge(slot: int, a: int, b: int)
    requires 0 <= slot < SlotCount
  {
    Has34(Slot(slot).vertices, a, b)
  }

  lemma SlotHasEdgeIsHasEdge(slot: int, a: int, b: int)
    requires 0 <= slot < SlotCount
    ensures SlotHasEdge(slot, a, b) <==> HasEdge(Slot(slot).vertices, a, b)
  {
    var f := Slot(slot).vertices;
    if HasEdge(f, a, b) {
      var i :| 0 <= i < |f| && Joins(f, i, a, b);
      assert i == 0 || i == 1 || i == 2 || i == 3;
    }
  }

  /** How many of the first n slots that r switches on hold edge {a, b}. */
  function SlotUses(r: Rules, n: nat, a: int, b: int): nat
    requires n <= SlotCount
  {
    if n == 0 then 0
    else SlotUses(r, n - 1, a, b) + (if Present(r, n - 1) && SlotHasEdge(n - 1, a, b) then 1 else 0)
  }

  lemma {:induction false} SlotUsesCountsFaces(r: Rules, n: nat, a: int, b: int)
    requires n <= SlotCount
    ensures EdgeUses(Shapes(SlotFaces(r, n)), a, b) == SlotUses(r, n, a, b)
  {
    if n > 0 {
      SlotUsesCountsFaces(r, n - 1, a, b);
      var added := if Present(r, n - 1) then [Slot(n - 1).vertices] else [];
      ShapesStep(r, n);
      SlotUsesStep(r, n, a, b);
      EdgeUsesAppend(Shapes(SlotFaces(r, n - 1)), added, a, b);
      if Present(r, n - 1) {
        EdgeUsesSingle(Slot(n - 1).vertices, a, b);
      }
    }
  }

  lemma ShapesStep(r: Rules, n: nat)
    requires 0 < n <= SlotCount
    ensures Shapes(SlotFaces(r, n)) == Shapes(SlotFaces(r, n - 1)) + (if Present(r, n - 1) then [Slot(n - 1).vertices] else [])
  {
    var added := if Present(r, n - 1) then [Slot(n - 1)] else [];
    assert SlotFaces(r, n) == SlotFaces(r, n - 1) + added;
    ShapesAppend(SlotFaces(r, n - 1), added);
    assert Shapes(added) == if Present(r, n - 1) then [Slot(n - 1).vertices] else [];
  }

  lemma SlotUsesStep(r: Rules, n: nat, a: int, b: int)
    requires 0 < n <= SlotCount
    ensures SlotUses(r, n, a, b) == SlotUses(r, n - 1, a, b) + (if Present(r, n - 1) && HasEdge(Slot(n - 1).vertices, a, b) then 1 else 0)
  {
    SlotHasEdgeIsHasEdge(n - 1, a, b);
  }

  lemma ShapesAppend(faces: seq<HeadFace>, more: seq<HeadFace>)
    ensures Shapes(faces + more) == Shapes(faces) + Shapes(more)
  {
    var all := faces + more;
    forall k | 0 <= k < |all|
      ensures Shapes(all)[k] == (Shapes(faces) + Shapes(more))[k]
    {
      if k < |faces| {
        assert all[k] == faces[k];
      } else {
        assert all[k] == more[k - |faces|];
      }
    }
  }

  lemma EdgeUsesSingle(f: Face, a: int, b: int)
    ensures EdgeUses([f], a, b) == if HasEdge(f, a, b) then 1 else 0
  {
    assert [f][..0] == [];
  }

  lemma {:induction false} SlotUsesPositive(r: Rules, n: nat, slot: int, a: int, b: int)
    requires n <= SlotCount && 0 <= slot < n
    requires Present(r, slot) && SlotHasEdge(slot, a, b)
    ensures SlotUses(r, n, a, b) >= 1
  {
    if slot < n - 1 {
      SlotUsesPositive(r, n - 1, slot, a, b);
    }
  }

  lemma {:induction false} SlotUsesSymmetric(r: Rules, n: nat, a: int, b: int)
    requires n <= SlotCount
    ensures SlotUses(r, n, a, b) == SlotUses(r, n, b, a)
  {
    if n > 0 {
      SlotUsesSymmetric(r, n - 1, a, b);
    }
  }

  /** Slot numbers, each in range and none twice. */
  predicate DistinctSlots(c: seq<int>)
  {
    (forall i :: 0 <= i < |c| ==> 0 <= c[i] < SlotCount) &&
    (forall i, k :: 0 <= i < k < |c| ==> c[i] != c[k])
  }

  /** How many of the slots listed in c lie below n and are switched on by r. */
  function PresentBelow(r: Rules, c: seq<int>, n: int): nat
    requires forall i :: 0 <= i < |c| ==> 0 <= c[i] < SlotCount
  {
    if c == [] then 0
    else (if c[0] < n && Present(r, c[0]) then 1 else 0) + PresentBelow(r, c[1..], n)
  }

  lemma {:induction false} PresentBelowStep(r: Rules, c: seq<int>, n: int)
    requires DistinctSlots(c)
    ensures PresentBelow(r, c, n + 1) == PresentBelow(r, c, n) + (if n in c && Present(r, n) then 1 else 0)
  {
    if c != [] {
      assert DistinctSlots(c[1..]);
      PresentBelowStep(r, c[1..], n);
      assert n in c <==> n == c[0] || n in c[1..];
      if n == c[0] {
        assert n !in c[1..];
      }
    }
  }

  lemma {:induction false} PresentBelowNone(r: Rules, c: seq<int>)
    requires forall i :: 0 <= i < |c| ==> 0 <= c[i] < SlotCount
    ensures PresentBelow(r, c, 0) == 0
  {
    if c != [] {
      PresentBelowNone(r, c[1..]);
    }
  }

  /**
   * When c lists exactly the slots whose face has edge {a, b}, counting the
   * edge over the switched-on slots is counting the switched-on slots of c.
   */
  lemma {:induction false} SlotUsesByCandidates(r: Rules, n: nat, a: int, b: int, c: seq<int>)
    requires n <= SlotCount && DistinctSlots(c)
    requires forall t :: 0 <= t < SlotCount ==> (SlotHasEdge(t, a, b) <==> t in c)
    ensures SlotUses(r, n, a, b) == PresentBelow(r, c, n)
  {
    if n == 0 {
      PresentBelowNone(r, c);
    } else {
      SlotUsesByCandidates(r, n - 1, a, b, c);
      PresentBelowStep(r, c, n - 1);
    }
  }

  /** Counting over an explicit list of slots, entry by entry. */
  lemma PresentBelowCons(r: Rules, x: int, c: seq<int>, n: int)
    requires 0 <= x < SlotCount
    requires forall i :: 0 <= i < |c| ==> 0 <= c[i] < SlotCount
    ensures PresentBelow(r, [x] + c, n) == (if x < n && Present(r, x) then 1 else 0) + PresentBelow(r, c, n)
  {
    assert ([x] + c)[1..] == c;
  }

  /** {a, b} and {x, y} are the same edge. */
  predicate Pair(a: int, b: int, x: int, y: int)
  {
    (a == x && b == y) || (a == y && b == x)
  }

  /** Spoke(j) for each outer vertex, as a table. */
  lemma SpokeValues(j: Direction)
    ensures Spoke(j) == [8, 9, 9, 10, 10, 11, 11, 8][j]
    ensures Spoke(Next(j)) == (if IsCardinal(j) then Spoke(j + 1) else Spoke(j))
  {
    if j < 4 {
      if j < 2 {
        assert j == 0 || j == 1;
      } else {
        assert j == 2 || j == 3;
      }
    } else if j < 6 {
      assert j == 4 || j == 5;
    } else {
      assert j == 6 || j == 7;
    }
  }

  /** The edges of the faces a direction adds: the outer edge and the two spokes, and for a cardinal the inner side. */
  lemma DirFaceEdges(d: Direction, level: int, a: int, b: int)
    requires 0 <= level <= 1
    ensures Has34(DirFace(d, level), a, b) <==>
        Pair(a, b, d, Next(d)) ||
        Pair(a, b, Next(d), Spoke(Next(d)) + 4 * level) ||
        Pair(a, b, Spoke(d) + 4 * level, d) ||
        (IsCardinal(d) && Pair(a, b, Spoke(d + 1) + 4 * level, Spoke(d) + 4 * level))
  {
    SpokeValues(d);
    var f := DirFace(d, level);
    if IsCardinal(d) {
      assert f == [d, d + 1, Spoke(d + 1) + 4 * level, Spoke(d) + 4 * level];
    } else {
      assert f == [d, Next(d), Spoke(d) + 4 * level];
    }
  }

  /** The slot of the bottom (level 0) or top (level 1) face of direction d. */
  lemma DirSlot(t: int) returns (d: Direction, level: int)
    requires 2 <= t < 18
    ensures t == 2 + 2 * d + level && 0 <= level <= 1
    ensures Slot(t).vertices == DirFace(d, level)
  {
    d, level := (t - 2) / 2, (t - 2) % 2;
  }

  lemma OuterEdgeSlotsDir(j: Direction, t: int)
    requires 2 <= t < 18
    ensures SlotHasEdge(t, j, Next(j)) <==> t == 2 + 2 * j || t == 3 + 2 * j
  {
    var d, level := DirSlot(t);
    DirFaceEdges(d, level, j, Next(j));
  }

  lemma OuterEdgeSlotsOther(j: Direction, t: int)
    requires 0 <= t < SlotCount && !(2 <= t < 18)
    ensures !SlotHasEdge(t, j, Next(j))
  {
    var f := Slot(t).vertices;
    assert forall i :: 1 <= i < |f| ==> f[i] >= 8;
  }

  lemma OuterEdgeSlots(j: Direction, t: int)
    requires 0 <= t < SlotCount
    ensures SlotHasEdge(t, j, Next(j)) <==> t == 2 + 2 * j || t == 3 + 2 * j
  {
    if 2 <= t < 18 {
      OuterEdgeSlotsDir(j, t);
    } else {
      OuterEdgeSlotsOther(j, t);
    }
  }

  lemma OuterEdgeUses(r: Rules, j: Direction)
    ensures SlotUses(r, SlotCount, j, Next(j)) == (if r[j] then 2 else 0)
  {
    var c := [2 + 2 * j, 3 + 2 * j];
    forall t | 0 <= t < SlotCount
      ensures SlotHasEdge(t, j, Next(j)) <==> t in c
    {
      OuterEdgeSlots(j, t);
    }
    SlotUsesByCandidates(r, SlotCount, j, Next(j), c);
    PresentBelowTwo(r, c);
  }
  /** The second slot holding ClosingFace(j): the right-hand triangle of the loop step before j. */
  function RightClosingSlot(j: Direction): int
  {
    if j == 0 then 33 else 17 + 2 * j
  }

  lemma SpokeSlotsDir(j: Direction, level: int, t: int)
    requires 0 <= level <= 1 && 2 <= t < 18
    ensures SlotHasEdge(t, j, Spoke(j) + 4 * level) <==> t == 2 + 2 * j + level || t == 2 + 2 * Prev(j) + level
  {
    var d, level' := DirSlot(t);
    var b := Spoke(j) + 4 * level;
    DirFaceEdges(d, level', j, b);
    NextPrev(d, j);
    SpokeOfDirFace(d, level', j, level);
    SlotOfDirection(d, level', j, level);
    SlotOfDirection(d, level', Prev(j), level);
  }

  /** Spoke j at the given level is an edge of the face of d at level' exactly when j is d or Next(d) and the levels agree. */
  lemma SpokeOfDirFace(d: Direction, level': int, j: Direction, level: int)
    requires 0 <= level <= 1 && 0 <= level' <= 1
    ensures var b := Spoke(j) + 4 * level;
      (Pair(j, b, d, Next(d)) ||
       Pair(j, b, Next(d), Spoke(Next(d)) + 4 * level') ||
       Pair(j, b, Spoke(d) + 4 * level', d) ||
       (IsCardinal(d) && Pair(j, b, Spoke(d + 1) + 4 * level', Spoke(d) + 4 * level')))
      <==> (j == d || j == Next(d)) && level == level'
  {
  }

  /** Slot numbers 2 + 2d + level are distinct for distinct (d, level). */
  lemma SlotOfDirection(d: Direction, level: int, e: Direction, level': int)
    requires 0 <= level <= 1 && 0 <= level' <= 1
    ensures 2 + 2 * d + level == 2 + 2 * e + level' <==> d == e && level == level'
  {
  }

  lemma SpokeSlotsClosing(j: Direction, level: int, t: int)
    requires 0 <= level <= 1 && 18 <= t < 34
    ensures SlotHasEdge(t, j, Spoke(j) + 4 * level) <==> t == 18 + 2 * j || t == RightClosingSlot(j)
  {
    var k := ClosingSlot(t);
    ClosingFaceSpoke(k, j, level);
    ClosingSlotsOf(t, k, j);
  }

  /** Spoke j at either level is an edge of the closing triangle at k exactly when k is j. */
  lemma ClosingFaceSpoke(k: Direction, j: Direction, level: int)
    requires 0 <= level <= 1
    ensures Has34(ClosingFace(k), j, Spoke(j) + 4 * level) <==> k == j
  {
  }

  /** A closing slot t holding the triangle at k is one of the two slots of j exactly when k is j. */
  lemma ClosingSlotsOf(t: int, k: Direction, j: Direction)
    requires t == 18 + 2 * k || t == RightClosingSlot(k)
    ensures t == 18 + 2 * j || t == RightClosingSlot(j) <==> k == j
  {
  }

  lemma SpokeSlotsOther(j: Direction, level: int, t: int)
    requires 0 <= level <= 1 && 0 <= t < SlotCount && (t < 2 || 34 <= t)
    ensures !SlotHasEdge(t, j, Spoke(j) + 4 * level)
  {
    var f := Slot(t).vertices;
    assert forall i :: 0 <= i < |f| ==> f[i] >= 8;
  }
  /** Which slots r switches on, slot group by slot group. */
  lemma PresentSlots(r: Rules, d: Direction, level: int, k: int)
    requires 0 <= level <= 1 && 0 <= k < 4
    ensures Present(r, 2 + 2 * d + level) == r[d]
    ensures Present(r, 18 + 2 * d) == (!r[d] && r[Prev(d)])
    ensures Present(r, RightClosingSlot(d)) == (!r[Prev(d)] && r[d])
    ensures Present(r, 34 + k) == !r[2 * k]
  {
  }

  /** The slots holding a spoke: the faces of j and of Prev(j) at the spoke's level, and the two closing triangles at j. */
  function SpokeSlots(j: Direction, level: int): seq<int>
  {
    [2 + 2 * j + level, 2 + 2 * Prev(j) + level, 18 + 2 * j, RightClosingSlot(j)]
  }

  lemma SpokeEdgeSlots(j: Direction, level: int)
    requires 0 <= level <= 1
    ensures DistinctSlots(SpokeSlots(j, level))
    ensures forall t :: 0 <= t < SlotCount ==> (SlotHasEdge(t, j, Spoke(j) + 4 * level) <==> t in SpokeSlots(j, level))
  {
    forall t | 0 <= t < SlotCount
      ensures SlotHasEdge(t, j, Spoke(j) + 4 * level) <==> t in SpokeSlots(j, level)
    {
      if 2 <= t < 18 {
        SpokeSlotsDir(j, level, t);
      } else if 18 <= t < 34 {
        SpokeSlotsClosing(j, level, t);
      } else {
        SpokeSlotsOther(j, level, t);
      }
    }
  }

  /** The number of switched-on slots among four. */
  lemma PresentBelowFour(r: Rules, c: seq<int>)
    requires |c| == 4 && forall i :: 0 <= i < 4 ==> 0 <= c[i] < SlotCount
    ensures PresentBelow(r, c, SlotCount) ==
      (if Present(r, c[0]) then 1 else 0) + (if Present(r, c[1]) then 1 else 0) +
      (if Present(r, c[2]) then 1 else 0) + (if Present(r, c[3]) then 1 else 0)
  {
    assert c == [c[0]] + c[1..];
    PresentBelowCons(r, c[0], c[1..], SlotCount);
    PresentBelowThree(r, c[1..]);
  }

  lemma PresentBelowThree(r: Rules, c: seq<int>)
    requires |c| == 3 && forall i :: 0 <= i < 3 ==> 0 <= c[i] < SlotCount
    ensures PresentBelow(r, c, SlotCount) ==
      (if Present(r, c[0]) then 1 else 0) + (if Present(r, c[1]) then 1 else 0) + (if Present(r, c[2]) then 1 else 0)
  {
    assert c == [c[0]] + c[1..];
    PresentBelowCons(r, c[0], c[1..], SlotCount);
    PresentBelowTwo(r, c[1..]);
  }

  lemma PresentBelowTwo(r: Rules, c: seq<int>)
    requires |c| == 2 && forall i :: 0 <= i < 2 ==> 0 <= c[i] < SlotCount
    ensures PresentBelow(r, c, SlotCount) == (if Present(r, c[0]) then 1 else 0) + (if Present(r, c[1]) then 1 else 0)
  {
    assert c == [c[0]] + c[1..];
    PresentBelowCons(r, c[0], c[1..], SlotCount);
    assert c[1..] == [c[1]] + [];
    PresentBelowCons(r, c[1], [], SlotCount);
  }

  /**
   * A spoke is shared by two faces when j or the direction before it is
   * active: the two direction faces, or one of them and a closing triangle.
   */
  lemma SpokeEdgeUses(r: Rules, j: Direction, level: int)
    requires 0 <= level <= 1
    ensures SlotUses(r, SlotCount, j, Spoke(j) + 4 * level) == (if r[j] || r[Prev(j)] then 2 else 0)
  {
    var c := SpokeSlots(j, level);
    SpokeEdgeSlots(j, level);
    SlotUsesByCandidates(r, SlotCount, j, Spoke(j) + 4 * level, c);
    PresentBelowFour(r, c);
    PresentSlots(r, j, level, 0);
    PresentSlots(r, Prev(j), level, 0);
  }
  /** The slot of a closing triangle, and the outer vertex k whose triangle it holds. */
  lemma ClosingSlot(t: int) returns (k: Direction)
    requires 18 <= t < 34
    ensures Slot(t).vertices == ClosingFace(k)
    ensures t == 18 + 2 * k || t == RightClosingSlot(k)
  {
    k := if t % 2 == 0 then (t - 18) / 2 else ((t - 18) / 2 + 1) % 8;
  }

  /** The edges of the wall under side w: the two quad sides and the two vertical column edges. */
  lemma WallFaceEdges(w: int, a: int, b: int)
    requires 0 <= w < 4
    ensures Has34(WallFace(w), a, b) <==>
      Pair(a, b, w + 8, (w + 1) % 4 + 8) || Pair(a, b, (w + 1) % 4 + 8, (w + 1) % 4 + 12) ||
      Pair(a, b, (w + 1) % 4 + 12, w + 12) || Pair(a, b, w + 12, w + 8)
  {
    var f := WallFace(w);
    assert |f| == 4;
  }

  /** The slots holding side k of the bottom (level 0) or top (level 1) inner quad: the quad, the face of direction 2k, the wall under side k. */
  function RingSlots(k: int, level: int): seq<int>
  {
    [level, 2 + 4 * k + level, 34 + k]
  }

  lemma RingSlotsDir(k: int, level: int, t: int)
    requires 0 <= k < 4 && 0 <= level <= 1 && 2 <= t < 18
    ensures SlotHasEdge(t, 8 + 4 * level + k, 8 + 4 * level + (k + 1) % 4) <==> t == 2 + 4 * k + level
  {
    var d, level' := DirSlot(t);
    DirFaceEdges(d, level', 8 + 4 * level + k, 8 + 4 * level + (k + 1) % 4);
    RingOfDirFace(d, level', k, level);
    SlotOfDirection(d, level', 2 * k, level);
  }

  /** Side k of the inner quad at the given level is an edge of the face of d at level' exactly when d is the cardinal 2k and the levels agree. */
  lemma RingOfDirFace(d: Direction, level': int, k: int, level: int)
    requires 0 <= k < 4 && 0 <= level <= 1 && 0 <= level' <= 1
    ensures var a, b := 8 + 4 * level + k, 8 + 4 * level + (k + 1) % 4;
      (Pair(a, b, d, Next(d)) ||
       Pair(a, b, Next(d), Spoke(Next(d)) + 4 * level') ||
       Pair(a, b, Spoke(d) + 4 * level', d) ||
       (IsCardinal(d) && Pair(a, b, Spoke(d + 1) + 4 * level', Spoke(d) + 4 * level')))
      <==> d == 2 * k && level == level'
  {
    var a, b := 8 + 4 * level + k, 8 + 4 * level + (k + 1) % 4;
    assert 8 <= a && 8 <= b && Next(d) < 8;
    if IsCardinal(d) {
      var e := d / 2;
      var k1, e1 := (k + 1) % 4, (e + 1) % 4;
      CardinalSpokes(d);
      QuadSides(k, e);
      QuadCorner(k, level, e, level');
      QuadCorner(k, level, e1, level');
      QuadCorner(k1, level, e, level');
      QuadCorner(k1, level, e1, level');
      assert Pair(a, b, Spoke(d + 1) + 4 * level', Spoke(d) + 4 * level') <==> k == e && level == level';
    }
  }

  /** Corner x of the inner quad at one level is corner y at another only when both agree. */
  lemma QuadCorner(x: int, level: int, y: int, level': int)
    requires 0 <= x < 4 && 0 <= y < 4 && 0 <= level <= 1 && 0 <= level' <= 1
    ensures 8 + 4 * level + x == 8 + 4 * level' + y <==> x == y && level == level'
  {
  }

  /** The face of cardinal d = 2e stands on side e of the inner quad. */
  lemma CardinalSpokes(d: Direction)
    requires IsCardinal(d)
    ensures Spoke(d) == 8 + d / 2 && Spoke(d + 1) == 8 + (d / 2 + 1) % 4
  {
  }

  /** Two sides k and e of a four-cycle share both ends only when they are the same side, and never in reverse. */
  lemma QuadSides(k: int, e: int)
    requires 0 <= k < 4 && 0 <= e < 4
    ensures !(k == (e + 1) % 4 && (k + 1) % 4 == e)
    ensures k == e || (k != e && (k + 1) % 4 != (e + 1) % 4)
  {
  }

  lemma RingSlotsClosing(k: int, level: int, t: int)
    requires 0 <= k < 4 && 0 <= level <= 1 && 18 <= t < 34
    ensures !SlotHasEdge(t, 8 + 4 * level + k, 8 + 4 * level + (k + 1) % 4)
  {
    var k' := ClosingSlot(t);
  }

  lemma RingSlotsOther(k: int, level: int, t: int)
    requires 0 <= k < 4 && 0 <= level <= 1 && 0 <= t < SlotCount && (t < 2 || 34 <= t)
    ensures SlotHasEdge(t, 8 + 4 * level + k, 8 + 4 * level + (k + 1) % 4) <==> t == level || t == 34 + k
  {
    if 34 <= t {
      RingSlotsWall(k, level, t - 34);
    } else {
      RingSlotsQuad(k, level, t);
    }
  }

  lemma RingSlotsWall(k: int, level: int, w: int)
    requires 0 <= k < 4 && 0 <= level <= 1 && 0 <= w < 4
    ensures SlotHasEdge(34 + w, 8 + 4 * level + k, 8 + 4 * level + (k + 1) % 4) <==> w == k
  {
    var a, b := 8 + 4 * level + k, 8 + 4 * level + (k + 1) % 4;
    var w1, k1 := (w + 1) % 4, (k + 1) % 4;
    assert Slot(34 + w).vertices == WallFace(w);
    WallFaceEdges(w, a, b);
    QuadSides(k, w);
    QuadCorner(k, level, w, 0);
    QuadCorner(k, level, w1, 0);
    QuadCorner(k1, level, w, 0);
    QuadCorner(k1, level, w1, 0);
    QuadCorner(k, level, w, 1);
    QuadCorner(k, level, w1, 1);
    QuadCorner(k1, level, w, 1);
    QuadCorner(k1, level, w1, 1);
  }

  lemma RingSlotsQuad(k: int, level: int, t: int)
    requires 0 <= k < 4 && 0 <= level <= 1 && 0 <= t < 2
    ensures SlotHasEdge(t, 8 + 4 * level + k, 8 + 4 * level + (k + 1) % 4) <==> t == level
  {
    var f := Slot(t).vertices;
    var base := 8 + 4 * t;
    assert f == [base, base + 1, base + 2, base + 3];
    QuadFaceSides(base, 8 + 4 * level, k);
  }

  /** Side k of a quad numbered from `corner` is an edge of the quad numbered from `base` exactly when the two numberings agree. */
  lemma QuadFaceSides(base: int, corner: int, k: int)
    requires 0 <= k < 4 && (base == corner || base + 4 <= corner || corner + 4 <= base)
    ensures Has34([base, base + 1, base + 2, base + 3], corner + k, corner + (k + 1) % 4) <==> base == corner
  {
    var f := [base, base + 1, base + 2, base + 3];
    if base == corner {
      assert Joins(f, k, corner + k, corner + (k + 1) % 4);
    }
  }

  lemma RingEdgeSlots(k: int, level: int)
    requires 0 <= k < 4 && 0 <= level <= 1
    ensures DistinctSlots(RingSlots(k, level))
    ensures forall t :: 0 <= t < SlotCount ==>
      (SlotHasEdge(t, 8 + 4 * level + k, 8 + 4 * level + (k + 1) % 4) <==> t in RingSlots(k, level))
  {
    forall t | 0 <= t < SlotCount
      ensures SlotHasEdge(t, 8 + 4 * level + k, 8 + 4 * level + (k + 1) % 4) <==> t in RingSlots(k, level)
    {
      if 2 <= t < 18 {
        RingSlotsDir(k, level, t);
      } else if 18 <= t < 34 {
        RingSlotsClosing(k, level, t);
      } else {
        RingSlotsOther(k, level, t);
      }
    }
  }

  /** A side of the inner quad always lies in exactly two faces: the quad and either the direction face or the wall. */
  lemma RingEdgeUses(r: Rules, k: int, level: int)
    requires 0 <= k < 4 && 0 <= level <= 1
    ensures SlotUses(r, SlotCount, 8 + 4 * level + k, 8 + 4 * level + (k + 1) % 4) == 2
  {
    var c := RingSlots(k, level);
    RingEdgeSlots(k, level);
    SlotUsesByCandidates(r, SlotCount, 8 + 4 * level + k, 8 + 4 * level + (k + 1) % 4, c);
    PresentBelowThree(r, c);
    PresentSlots(r, 2 * k, level, k);
  }

  /**
   * The slots holding the vertical edge of the inner column at corner 8 + m:
   * the closing triangles of outer vertices 2m and Prev(2m), and the walls on
   * either side of the corner.
   */
  function VerticalSlots(m: int): seq<int>
    requires 0 <= m < 4
  {
    var p := Prev(2 * m);
    [18 + 4 * m, RightClosingSlot(2 * m), 18 + 2 * p, RightClosingSlot(p), 34 + m, 34 + (m + 3) % 4]
  }

  lemma VerticalSlotsDir(m: int, t: int)
    requires 0 <= m < 4 && 2 <= t < 18
    ensures !SlotHasEdge(t, 8 + m, 12 + m)
  {
    var d, level := DirSlot(t);
    DirFaceEdges(d, level, 8 + m, 12 + m);
  }

  lemma VerticalSlotsClosing(m: int, t: int)
    requires 0 <= m < 4 && 18 <= t < 34
    ensures SlotHasEdge(t, 8 + m, 12 + m) <==>
      t == 18 + 4 * m || t == RightClosingSlot(2 * m) || t == 18 + 2 * Prev(2 * m) || t == RightClosingSlot(Prev(2 * m))
  {
    var k := ClosingSlot(t);
    ClosingFaceVertical(k, m);
    ClosingSlotsOf(t, k, 2 * m);
    ClosingSlotsOf(t, k, Prev(2 * m));
  }

  /** The closing triangle at k climbs the inner column at corner 8 + m exactly when k is 2m or the diagonal before it. */
  lemma ClosingFaceVertical(k: Direction, m: int)
    requires 0 <= m < 4
    ensures Has34(ClosingFace(k), 8 + m, 12 + m) <==> k == 2 * m || k == Prev(2 * m)
  {
    SpokeValues(k);
    assert Has34(ClosingFace(k), 8 + m, 12 + m) <==> Spoke(k) == 8 + m;
  }

  lemma VerticalSlotsOther(m: int, t: int)
    requires 0 <= m < 4 && 0 <= t < SlotCount && (t < 2 || 34 <= t)
    ensures SlotHasEdge(t, 8 + m, 12 + m) <==> t == 34 + m || t == 34 + (m + 3) % 4
  {
    if t < 2 {
      var f := Slot(t).vertices;
      assert f == [8 + 4 * t, 9 + 4 * t, 10 + 4 * t, 11 + 4 * t];
      assert !Has34(f, 8 + m, 12 + m);
    } else {
      VerticalOfWall(m, t - 34);
    }
  }

  /** The wall under side w climbs the inner column at corner 8 + m exactly when the side starts or ends there. */
  lemma VerticalOfWall(m: int, w: int)
    requires 0 <= m < 4 && 0 <= w < 4
    ensures SlotHasEdge(34 + w, 8 + m, 12 + m) <==> w == m || w == (m + 3) % 4
  {
    assert Slot(34 + w).vertices == WallFace(w);
    WallFaceEdges(w, 8 + m, 12 + m);
  }

  lemma VerticalEdgeSlots(m: int)
    requires 0 <= m < 4
    ensures DistinctSlots(VerticalSlots(m))
    ensures forall t :: 0 <= t < SlotCount ==> (SlotHasEdge(t, 8 + m, 12 + m) <==> t in VerticalSlots(m))
  {
    forall t | 0 <= t < SlotCount
      ensures SlotHasEdge(t, 8 + m, 12 + m) <==> t in VerticalSlots(m)
    {
      if 2 <= t < 18 {
        VerticalSlotsDir(m, t);
      } else if 18 <= t < 34 {
        VerticalSlotsClosing(m, t);
      } else {
        VerticalSlotsOther(m, t);
      }
    }
  }

  lemma PresentBelowSix(r: Rules, c: seq<int>)
    requires |c| == 6 && forall i :: 0 <= i < 6 ==> 0 <= c[i] < SlotCount
    ensures PresentBelow(r, c, SlotCount) ==
      PresentBelow(r, c[..3], SlotCount) + PresentBelow(r, c[3..], SlotCount)
  {
    assert c == [c[0]] + c[1..];
    PresentBelowCons(r, c[0], c[1..], SlotCount);
    assert c[1..] == [c[1]] + c[2..];
    PresentBelowCons(r, c[1], c[2..], SlotCount);
    assert c[2..] == [c[2]] + c[3..];
    PresentBelowCons(r, c[2], c[3..], SlotCount);
    PresentBelowThree(r, c[..3]);
  }

  /**
   * With consistent rules a vertical edge is shared by two faces, unless the
   * diagonal beside it is active, in which case no face uses it.
   */
  lemma VerticalEdgeUses(r: Rules, m: int)
    requires 0 <= m < 4 && Consistent(r)
    ensures SlotUses(r, SlotCount, 8 + m, 12 + m) == (if r[Prev(2 * m)] then 0 else 2)
  {
    var c := VerticalSlots(m);
    VerticalEdgeSlots(m);
    SlotUsesByCandidates(r, SlotCount, 8 + m, 12 + m, c);
    VerticalPresent(r, m);
  }

  lemma VerticalPresent(r: Rules, m: int)
    requires 0 <= m < 4 && Consistent(r)
    ensures PresentBelow(r, VerticalSlots(m), SlotCount) == (if r[Prev(2 * m)] then 0 else 2)
  {
    var c := VerticalSlots(m);
    var p := Prev(2 * m);
    PresentBelowSix(r, c);
    PresentBelowThree(r, c[..3]);
    PresentBelowThree(r, c[3..]);
    VerticalPresentValues(r, m);
    DiagonalBeside(m);
    assert r[p] ==> r[Prev(p)] && r[Next(p)];
  }

  /** Which of the six slots of the vertical edge at corner 8 + m rule vector r switches on. */
  lemma VerticalPresentValues(r: Rules, m: int)
    requires 0 <= m < 4
    ensures var c, p := VerticalSlots(m), Prev(2 * m);
      Present(r, c[0]) == (!r[2 * m] && r[p]) &&
      Present(r, c[1]) == (!r[p] && r[2 * m]) &&
      Present(r, c[2]) == (!r[p] && r[Prev(p)]) &&
      Present(r, c[3]) == (!r[Prev(p)] && r[p]) &&
      Present(r, c[4]) == !r[2 * m] &&
      Present(r, c[5]) == !r[Prev(p)]
  {
    var p := Prev(2 * m);
    PresentSlots(r, 2 * m, 0, m);
    PresentSlots(r, p, 0, (m + 3) % 4);
    DiagonalBeside(m);
  }

  /** The diagonal before cardinal 2m sits between cardinals 2((m + 3) % 4) and 2m. */
  lemma DiagonalBeside(m: int)
    requires 0 <= m < 4
    ensures Prev(Prev(2 * m)) == 2 * ((m + 3) % 4) && Next(Prev(2 * m)) == 2 * m && !IsCardinal(Prev(2 * m))
  {
  }
  /** Whether an edge count is that of an edge no face uses or of one two faces share. */
  predicate Even(r: Rules, a: int, b: int)
  {
    SlotUses(r, SlotCount, a, b) in {0, 2}
  }

  lemma EvenSymmetric(r: Rules, a: int, b: int)
    requires Even(r, b, a)
    ensures Even(r, a, b)
  {
    SlotUsesSymmetric(r, SlotCount, a, b);
  }

  lemma DirEdgesEven(r: Rules, d: Direction, level: int, i: int)
    requires Consistent(r) && 0 <= level <= 1 && 0 <= i < |DirFace(d, level)|
    ensures Even(r, Start(DirFace(d, level), i), End(DirFace(d, level), i))
  {
    if i == 0 {
      OuterEdgeEven(r, d, level);
    } else if i == 1 {
      SecondEdgeEven(r, d, level);
    } else if IsCardinal(d) && i == 2 {
      ThirdEdgeEven(r, d, level);
    } else {
      LastEdgeEven(r, d, level, i);
    }
  }

  lemma OuterEdgeEven(r: Rules, d: Direction, level: int)
    requires 0 <= level <= 1
    ensures Even(r, Start(DirFace(d, level), 0), End(DirFace(d, level), 0))
  {
    OuterEdgeUses(r, d);
  }

  lemma SecondEdgeEven(r: Rules, d: Direction, level: int)
    requires 0 <= level <= 1
    ensures Even(r, Start(DirFace(d, level), 1), End(DirFace(d, level), 1))
  {
    DirFaceSecondEdge(d, level);
    SpokeEdgeUses(r, Next(d), level);
  }

  lemma ThirdEdgeEven(r: Rules, d: Direction, level: int)
    requires 0 <= level <= 1 && IsCardinal(d)
    ensures Even(r, Start(DirFace(d, level), 2), End(DirFace(d, level), 2))
  {
    var k := DirFaceThirdEdge(d, level);
    RingEdgeUses(r, k, level);
    EvenSymmetric(r, 8 + 4 * level + (k + 1) % 4, 8 + 4 * level + k);
  }

  lemma LastEdgeEven(r: Rules, d: Direction, level: int, i: int)
    requires 0 <= level <= 1 && 0 <= i < |DirFace(d, level)| && i >= 2 && !(IsCardinal(d) && i == 2)
    ensures Even(r, Start(DirFace(d, level), i), End(DirFace(d, level), i))
  {
    DirFaceLastEdge(d, level, i);
    SpokeEdgeUses(r, d, level);
    EvenSymmetric(r, Spoke(d) + 4 * level, d);
  }

  /** The second edge of a direction face runs from Next(d) up its spoke. */
  lemma DirFaceSecondEdge(d: Direction, level: int)
    requires 0 <= level <= 1
    ensures Start(DirFace(d, level), 1) == Next(d) && End(DirFace(d, level), 1) == Spoke(Next(d)) + 4 * level
  {
    SpokeValues(d);
  }

  /** The third edge of a cardinal face is side d / 2 of the inner quad, walked backwards. */
  lemma DirFaceThirdEdge(d: Direction, level: int) returns (k: int)
    requires 0 <= level <= 1 && IsCardinal(d)
    ensures 0 <= k < 4
    ensures Start(DirFace(d, level), 2) == 8 + 4 * level + (k + 1) % 4 && End(DirFace(d, level), 2) == 8 + 4 * level + k
  {
    k := d / 2;
    CardinalSpokes(d);
  }

  /** The last edge of a direction face runs down its own spoke to d. */
  lemma DirFaceLastEdge(d: Direction, level: int, i: int)
    requires 0 <= level <= 1 && 0 <= i < |DirFace(d, level)| && i >= 2 && !(IsCardinal(d) && i == 2)
    ensures Start(DirFace(d, level), i) == Spoke(d) + 4 * level && End(DirFace(d, level), i) == d
  {
  }

  lemma ClosingEdgesEven(r: Rules, k: Direction, i: int)
    requires Consistent(r) && 0 <= i < 3
    ensures Even(r, Start(ClosingFace(k), i), End(ClosingFace(k), i))
  {
    var f := ClosingFace(k);
    var a, b := Start(f, i), End(f, i);
    if i == 0 {
      SpokeEdgeUses(r, k, 0);
    } else if i == 1 {
      VerticalEdgeUses(r, Spoke(k) - 8);
    } else {
      SpokeEdgeUses(r, k, 1);
      EvenSymmetric(r, a, b);
    }
  }

  lemma WallEdgesEven(r: Rules, w: int, i: int)
    requires Consistent(r) && 0 <= w < 4 && 0 <= i < 4
    ensures Even(r, Start(WallFace(w), i), End(WallFace(w), i))
  {
    if i == 0 || i == 2 {
      WallSideEven(r, w, i / 2);
    } else {
      WallColumnEven(r, w, i);
    }
  }

  /** Edge 0 of a wall is side w of the bottom quad, edge 2 the same side of the top quad walked backwards. */
  lemma WallSideEven(r: Rules, w: int, level: int)
    requires 0 <= w < 4 && 0 <= level <= 1
    ensures Even(r, Start(WallFace(w), 2 * level), End(WallFace(w), 2 * level))
  {
    var a, b := 8 + 4 * level + w, 8 + 4 * level + (w + 1) % 4;
    RingEdgeUses(r, w, level);
    if level == 0 {
      assert Start(WallFace(w), 0) == a && End(WallFace(w), 0) == b;
    } else {
      assert Start(WallFace(w), 2) == b && End(WallFace(w), 2) == a;
      EvenSymmetric(r, b, a);
    }
  }

  /** Edges 1 and 3 of a wall climb the inner column at its two corners. */
  lemma WallColumnEven(r: Rules, w: int, i: int)
    requires Consistent(r) && 0 <= w < 4 && (i == 1 || i == 3)
    ensures Even(r, Start(WallFace(w), i), End(WallFace(w), i))
  {
    if i == 1 {
      var m := (w + 1) % 4;
      assert Start(WallFace(w), 1) == 8 + m && End(WallFace(w), 1) == 12 + m;
      VerticalEdgeUses(r, m);
    } else {
      assert Start(WallFace(w), 3) == 12 + w && End(WallFace(w), 3) == 8 + w;
      VerticalEdgeUses(r, w);
      EvenSymmetric(r, 12 + w, 8 + w);
    }
  }

  /** Every edge of every slot belongs to one of the classes counted above, so it is used by no face or by two. */
  lemma SlotEdgeUsesEven(r: Rules, t: int, i: int)
    requires Consistent(r) && 0 <= t < SlotCount && 0 <= i < |Slot(t).vertices|
    ensures Even(r, Start(Slot(t).vertices, i), End(Slot(t).vertices, i))
  {
    if t < 2 {
      var f := Slot(t).vertices;
      assert f == [8 + 4 * t, 9 + 4 * t, 10 + 4 * t, 11 + 4 * t];
      assert Start(f, i) == 8 + 4 * t + i && End(f, i) == 8 + 4 * t + (i + 1) % 4;
      RingEdgeUses(r, i, t);
    } else if t < 18 {
      var d, level := DirSlot(t);
      DirEdgesEven(r, d, level, i);
    } else if t < 34 {
      var k := ClosingSlot(t);
      ClosingEdgesEven(r, k, i);
    } else {
      assert Slot(t).vertices == WallFace(t - 34);
      WallEdgesEven(r, t - 34, i);
    }
  }

  /** Each face of SlotFaces(r, n) is the face of a switched-on slot below n. */
  lemma {:induction false} SlotOfFace(r: Rules, n: nat, k: int) returns (t: int)
    requires n <= SlotCount && 0 <= k < |SlotFaces(r, n)|
    ensures 0 <= t < n && Present(r, t) && SlotFaces(r, n)[k] == Slot(t)
  {
    var before := SlotFaces(r, n - 1);
    if k < |before| {
      t := SlotOfFace(r, n - 1, k);
    } else {
      t := n - 1;
    }
  }

  /**
   * With consistent rules the column head is a closed surface: every edge of
   * every face is shared by exactly two faces.
   */
  lemma HeadFacesClosed(r: Rules)
    requires Consistent(r)
    ensures Closed(Shapes(HeadFaces(r)))
  {
    var faces := Shapes(HeadFaces(r));
    forall f | f in faces
      ensures EdgesShared(faces, f)
    {
      var k :| 0 <= k < |faces| && faces[k] == f;
      var t := SlotOfFace(r, SlotCount, k);
      forall i | 0 <= i < |f|
        ensures EdgeUses(faces, Start(f, i), End(f, i)) == 2
      {
        var a, b := Start(f, i), End(f, i);
        SlotUsesCountsFaces(r, SlotCount, a, b);
        assert Joins(f, i, a, b);
        assert SlotHasEdge(t, a, b);
        SlotUsesPositive(r, SlotCount, t, a, b);
        SlotEdgeUsesEven(r, t, i);
      }
    }
  }
  // ---------------------------------------------------------------------------
  // Tagged faces, vertex indices and the vertices the mesh keeps.
  // ---------------------------------------------------------------------------

  /** Mesh.faces_where({"direction": d}): the keys of the faces tagged d, in key order. */
  function FacesWhere(faces: seq<HeadFace>, d: Direction): (keys: seq<int>)
    ensures forall x :: x in keys <==> 0 <= x < |faces| && faces[x].direction == Some(d)
    ensures forall i :: 0 <= i < |keys| ==> 0 <= keys[i] < |faces|
    ensures forall i, j :: 0 <= i < j < |keys| ==> keys[i] < keys[j]
  {
    if faces == [] then []
    else
      var n := |faces| - 1;
      FacesWhere(faces[..n], d) + (if faces[n].direction == Some(d) then [n] else [])
  }

  /** Only the top face of direction d carries the tag d. */
  lemma SlotTag(t: int, d: Direction)
    requires 0 <= t < SlotCount
    ensures Slot(t).direction == Some(d) <==> t == 3 + 2 * d
  {
  }

  lemma FacesWhereAppend(faces: seq<HeadFace>, face: HeadFace, d: Direction)
    ensures |FacesWhere(faces + [face], d)| == |FacesWhere(faces, d)| + (if face.direction == Some(d) then 1 else 0)
  {
    assert (faces + [face])[..|faces|] == faces;
  }

  lemma {:induction false} TaggedSlotCount(r: Rules, n: nat, d: Direction)
    requires n <= SlotCount
    ensures |FacesWhere(SlotFaces(r, n), d)| == (if 3 + 2 * d < n && r[d] then 1 else 0)
  {
    if n > 0 {
      TaggedSlotCount(r, n - 1, d);
      TaggedStep(r, n, d);
    }
  }

  /** Slot n - 1 adds a tagged face exactly when it is the top face of an active d. */
  lemma TaggedStep(r: Rules, n: nat, d: Direction)
    requires 0 < n <= SlotCount
    ensures |FacesWhere(SlotFaces(r, n), d)| == |FacesWhere(SlotFaces(r, n - 1), d)| + (if n - 1 == 3 + 2 * d && r[d] then 1 else 0)
  {
    SlotTag(n - 1, d);
    if Present(r, n - 1) {
      assert SlotFaces(r, n) == SlotFaces(r, n - 1) + [Slot(n - 1)];
      FacesWhereAppend(SlotFaces(r, n - 1), Slot(n - 1), d);
      PresentDir(r, d);
    } else {
      assert SlotFaces(r, n) == SlotFaces(r, n - 1);
      PresentDir(r, d);
    }
  }

  /**
   * The mesh holds a face tagged d exactly when direction d is active, and
   * then only one: the top face of direction d.
   */
  lemma TaggedFace(r: Rules, d: Direction)
    ensures |FacesWhere(HeadFaces(r), d)| == (if r[d] then 1 else 0)
    ensures forall x :: x in FacesWhere(HeadFaces(r), d) ==> HeadFaces(r)[x] == HeadFace(DirFace(d, 1), Some(d))
  {
    TaggedSlotCount(r, SlotCount, d);
    forall x | x in FacesWhere(HeadFaces(r), d)
      ensures HeadFaces(r)[x] == HeadFace(DirFace(d, 1), Some(d))
    {
      var t := SlotOfFace(r, SlotCount, x);
      SlotTag(t, d);
    }
  }

  /** Every face index names one of the sixteen vertices. */
  lemma HeadFaceIndices(r: Rules)
    ensures IndicesBelow(Shapes(HeadFaces(r)), 16)
  {
    var faces := Shapes(HeadFaces(r));
    forall k, i | 0 <= k < |faces| && 0 <= i < |faces[k]|
      ensures 0 <= faces[k][i] < 16
    {
      var t := SlotOfFace(r, SlotCount, k);
      if 2 <= t < 18 {
        var d, level := DirSlot(t);
      } else if 18 <= t < 34 {
        var j := ClosingSlot(t);
      }
    }
  }

  /** A switched-on slot's face is in the list. */
  lemma {:induction false} PresentSlotListed(r: Rules, n: nat, t: int)
    requires n <= SlotCount && 0 <= t < n && Present(r, t)
    ensures Slot(t) in SlotFaces(r, n)
  {
    if t < n - 1 {
      PresentSlotListed(r, n - 1, t);
    }
  }

  /** Whether some face of the list uses vertex k. */
  predicate Used(faces: seq<HeadFace>, k: int)
  {
    exists f :: f in faces && k in f.vertices
  }

  /** Which outer vertices a slot's face uses: a direction face uses its two ends, a closing triangle its own vertex. */
  lemma SlotOuterVertices(t: int, k: int)
    requires 0 <= t < SlotCount && 0 <= k < 8 && k in Slot(t).vertices
    ensures 2 <= t < 18 ==> (t - 2) / 2 == k || (t - 2) / 2 == Prev(k)
    ensures 18 <= t < 34 ==> t == 18 + 2 * k || t == RightClosingSlot(k)
    ensures 2 <= t < 34
  {
    InnerOnlySlots(t);
    if 2 <= t < 18 {
      DirSlotOuter(t, k);
    } else if 18 <= t < 34 {
      var j := ClosingSlot(t);
      assert k == j;
    }
  }

  /** The quads and the walls use only the sixteen-vertex column, never an outer vertex. */
  lemma InnerOnlySlots(t: int)
    requires 0 <= t < SlotCount
    ensures t < 2 || 34 <= t ==> forall i :: 0 <= i < |Slot(t).vertices| ==> Slot(t).vertices[i] >= 8
  {
  }

  lemma DirSlotOuter(t: int, k: int)
    requires 2 <= t < 18 && 0 <= k < 8 && k in Slot(t).vertices
    ensures (t - 2) / 2 == k || (t - 2) / 2 == Prev(k)
  {
    var d, level := DirSlot(t);
    var f := DirFace(d, level);
    assert forall i :: 2 <= i < |f| ==> f[i] >= 8;
    assert k == d || k == Next(d);
    NextPrev(d, k);
  }

  /**
   * After remove_unused_vertices the mesh keeps the eight column vertices and
   * exactly the outer vertices at the ends of an active direction.
   */
  lemma UsedVertices(r: Rules, k: int)
    ensures Used(HeadFaces(r), k) <==> 8 <= k < 16 || (0 <= k < 8 && (r[k] || r[Prev(k)]))
  {
    if 8 <= k < 16 || (0 <= k < 8 && (r[k] || r[Prev(k)])) {
      UsedWhenKept(r, k);
    } else if Used(HeadFaces(r), k) {
      UsedOnlyWhenKept(r, k);
    }
  }

  lemma UsedWhenKept(r: Rules, k: int)
    requires 8 <= k < 16 || (0 <= k < 8 && (r[k] || r[Prev(k)]))
    ensures Used(HeadFaces(r), k)
  {
    if 8 <= k < 12 {
      PresentSlotListed(r, SlotCount, 0);
      assert k in Slot(0).vertices;
    } else if 12 <= k < 16 {
      PresentSlotListed(r, SlotCount, 1);
      assert k in Slot(1).vertices;
    } else if r[k] {
      PresentDir(r, k);
      PresentSlotListed(r, SlotCount, 2 + 2 * k);
      DirectionSlots(k);
      assert Slot(2 + 2 * k).vertices[0] == k;
    } else {
      PresentDir(r, Prev(k));
      PresentSlotListed(r, SlotCount, 2 + 2 * Prev(k));
      DirectionSlots(Prev(k));
      NextPrev(Prev(k), k);
      assert Slot(2 + 2 * Prev(k)).vertices[1] == k;
    }
  }

  lemma UsedOnlyWhenKept(r: Rules, k: int)
    requires Used(HeadFaces(r), k) && !(8 <= k < 16)
    ensures 0 <= k < 8 && (r[k] || r[Prev(k)])
  {
    var faces := HeadFaces(r);
    var f :| f in faces && k in f.vertices;
    var x :| 0 <= x < |faces| && faces[x] == f;
    var t := SlotOfFace(r, SlotCount, x);
    HeadFaceIndices(r);
    assert Shapes(faces)[x] == f.vertices;
    assert 0 <= k < 8;
    SlotOuterVertices(t, k);
    PresentSlots(r, k, 0, 0);
    if t < 18 {
      assert Present(r, t) == r[(t - 2) / 2];
    }
  }

  /** The mesh's vertex keys: the column, and the outer vertices of the active directions. */
  lemma MeshVertices(r: Rules, width: real, depth: real, height: real, offset: real)
    requires Consistent(r)
    ensures var m := MeshFor(r, width, depth, height, offset).value;
      (forall k :: k in m.vertices <==> 8 <= k < 16 || (0 <= k < 8 && (r[k] || r[Prev(k)]))) &&
      (forall k :: k in m.vertices ==> m.vertices[k] == HeadVertices(width, depth, height, offset)[k]) &&
      (forall f, k :: f in m.faces && k in f.vertices ==> k in m.vertices)
  {
    var m := MeshFor(r, width, depth, height, offset).value;
    forall k
      ensures k in m.vertices <==> 8 <= k < 16 || (0 <= k < 8 && (r[k] || r[Prev(k)]))
    {
      UsedVertices(r, k);
    }
    HeadFaceIndices(r);
    forall f, k | f in m.faces && k in f.vertices
      ensures k in m.vertices
    {
      var x :| 0 <= x < |m.faces| && m.faces[x] == f;
      var i :| 0 <= i < |f.vertices| && f.vertices[i] == k;
      assert Shapes(m.faces)[x][i] == k;
    }
  }
}
