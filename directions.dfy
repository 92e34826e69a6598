/**
 * The eight directions around a column head (ColumnHeadDirection), the table
 * that names the diagonal between two cardinal directions, and the snapping
 * of a vector to the nearest cardinal direction.
 */
module Directions {
  import opened Base

  /** Directions are numbered counter-clockwise from north, as the mesh face indices are. */
  type Direction = d: int | 0 <= d < 8

  const North: Direction := 0
  const NorthWest: Direction := 1
  const West: Direction := 2
  const SouthWest: Direction := 3
  const South: Direction := 4
  const SouthEast: Direction := 5
  const East: Direction := 6
  const NorthEast: Direction := 7

  /** North, west, south and east have even numbers; the diagonals between them odd ones. */
  predicate IsCardinal(d: Direction)
  {
    d % 2 == 0
  }

  /** The next direction counter-clockwise, and the previous one. */
  function Next(d: Direction): Direction
  {
    (d + 1) % 8
  }

  function Prev(d: Direction): Direction
  {
    (d + 7) % 8
  }

  /** Next and Prev undo each other. */
  lemma NextPrev(d: Direction, e: Direction)
    ensures e == Next(d) <==> d == Prev(e)
  {
  }

  /** The eight entries of get_direction_combination's dictionary. */
  const CombinationTable: map<(Direction, Direction), Direction> :=
    map[
      (North, West) := NorthWest,
      (West, North) := NorthWest,
      (West, South) := SouthWest,
      (South, West) := SouthWest,
      (South, East) := SouthEast,
      (East, South) := SouthEast,
      (North, East) := NorthEast,
      (East, North) := NorthEast
    ]

  /**
   * get_direction_combination: the diagonal between two cardinal directions
   * that are a quarter turn apart, in either order; any other pair is missing
   * from the dictionary (KeyError, here None).
   */
  function Combine(d1: Direction, d2: Direction): (r: Option<Direction>)
    ensures r.Some? <==> IsCardinal(d1) && IsCardinal(d2) && (d2 == Next(Next(d1)) || d1 == Next(Next(d2)))
    ensures r.Some? ==> !IsCardinal(r.value)
    ensures r.Some? ==> (d1 == Prev(r.value) && d2 == Next(r.value)) || (d1 == Next(r.value) && d2 == Prev(r.value))
  {
    if (d1, d2) in CombinationTable then Some(CombinationTable[(d1, d2)]) else None
  }

  /** The dictionary lists every pair in both orders. */
  lemma CombineIsSymmetric(d1: Direction, d2: Direction)
    ensures Combine(d1, d2) == Combine(d2, d1)
  {
  }

  /** The order in which closest_direction's dictionary lists the cardinal directions. */
  const CardinalOrder: seq<Direction> := [North, East, South, West]

  /** The unit vector of each entry of CardinalOrder. */
  const CardinalUnits: seq<Vector> :=
    [Vector(0.0, 1.0, 0.0), Vector(1.0, 0.0, 0.0), Vector(0.0, -1.0, 0.0), Vector(-1.0, 0.0, 0.0)]

  /** The dot products closest_direction computes, in dictionary order. */
  function Scores(v: Vector): (s: seq<real>)
    ensures |s| == 4
  {
    [Dot(v, CardinalUnits[0]), Dot(v, CardinalUnits[1]), Dot(v, CardinalUnits[2]), Dot(v, CardinalUnits[3])]
  }

  /**
   * The key Python's max(d, key=d.get) returns: it scans left to right and
   * replaces its candidate only on a strictly larger value, so it is the
   * first position holding the maximum.
   */
  function FirstMaxIndex(s: seq<real>): (k: nat)
    requires |s| > 0
    ensures k < |s|
  {
    if |s| == 1 then 0
    else
      var k := FirstMaxIndex(s[..|s| - 1]);
      if s[|s| - 1] > s[k] then |s| - 1 else k
  }

  /** FirstMaxIndex is a position holding the maximum, and no earlier position holds it. */
  lemma {:induction false} FirstMaxIndexIsFirstMax(s: seq<real>)
    requires |s| > 0
    ensures forall j :: 0 <= j < |s| ==> s[j] <= s[FirstMaxIndex(s)]
    ensures forall j :: 0 <= j < FirstMaxIndex(s) ==> s[j] < s[FirstMaxIndex(s)]
  {
    if |s| > 1 {
      var init := s[..|s| - 1];
      FirstMaxIndexIsFirstMax(init);
      var k := FirstMaxIndex(init);
      assert forall j :: 0 <= j < |init| ==> s[j] == init[j];
    }
  }

  /**
   * closest_direction on a non-zero vector. Unitizing first does not change
   * which score is largest (ClosestIsScaleInvariant), so the model scores the
   * vector as given.
   */
  function Closest(v: Vector): (d: Direction)
    ensures IsCardinal(d)
  {
    CardinalOrder[FirstMaxIndex(Scores(v))]
  }

  /** closest_direction including its failure: unitizing a zero vector divides by zero. */
  function DirectionOf(v: Vector): (r: Result<Direction>)
    ensures r.Err? <==> v == Origin
    ensures r.Err? ==> r.error == ZeroDivisionError
    ensures r.Ok? ==> r.value == Closest(v)
  {
    if v == Origin then Err(ZeroDivisionError) else Ok(Closest(v))
  }

  /**
   * Which cardinal direction wins, stated on the coordinates: the largest of
   * y, x, -y, -x, with ties going to the earlier of north, east, south, west.
   */
  lemma ClosestRegions(v: Vector)
    ensures Closest(v) == North <==> v.y >= v.x && v.y >= -v.x
    ensures Closest(v) == East <==> v.x > v.y && v.x >= -v.y
    ensures Closest(v) == South <==> -v.y > v.x && v.y <= v.x
    ensures Closest(v) == West <==> -v.x > v.y && v.x < v.y
  {
    var s := Scores(v);
    var k := FirstMaxIndex(s);
    FirstMaxIndexIsFirstMax(s);
    assert s == [v.y, v.x, -v.y, -v.x];
    assert 0 <= k < 4;
    assert s[0] <= s[k] && s[1] <= s[k] && s[2] <= s[k] && s[3] <= s[k];
    assert (0 < k ==> s[0] < s[k]) && (1 < k ==> s[1] < s[k]) && (2 < k ==> s[2] < s[k]);
    assert Closest(v) == CardinalOrder[k];
  }

  /** Scaling by a positive factor (unitize does) never changes the answer. */
  lemma ClosestIsScaleInvariant(v: Vector, factor: real)
    requires factor > 0.0
    ensures Closest(Scale(v, factor)) == Closest(v)
  {
    ClosestRegions(v);
    ClosestRegions(Scale(v, factor));
    ScaledRegions(v, factor);
  }

  /** Each region of ClosestRegions holds for a positive multiple of v exactly when it holds for v. */
  lemma ScaledRegions(v: Vector, factor: real)
    requires factor > 0.0
    ensures var w := Scale(v, factor);
      (w.y >= w.x && w.y >= -w.x <==> v.y >= v.x && v.y >= -v.x) &&
      (w.x > w.y && w.x >= -w.y <==> v.x > v.y && v.x >= -v.y) &&
      (-w.y > w.x && w.y <= w.x <==> -v.y > v.x && v.y <= v.x) &&
      (-w.x > w.y && w.x < w.y <==> -v.x > v.y && v.x < v.y)
  {
    ScalePreservesOrder(factor, v.x, v.y);
    ScalePreservesOrder(factor, v.y, v.x);
    ScalePreservesOrder(factor, -v.x, v.y);
    ScalePreservesOrder(factor, v.y, -v.x);
    ScalePreservesOrder(factor, -v.y, v.x);
    ScalePreservesOrder(factor, v.x, -v.y);
  }

  lemma ScalePreservesOrder(factor: real, a: real, b: real)
    requires factor > 0.0
    ensures a <= b <==> factor * a <= factor * b
    ensures a < b <==> factor * a < factor * b
    ensures factor * -a == -(factor * a)
  {
    assert factor * b - factor * a == factor * (b - a);
    if a < b {
      assert factor * (b - a) > 0.0;
    } else if a > b {
      assert factor * (a - b) > 0.0;
    }
  }

  /** Each cardinal unit vector snaps to its own direction, and a vertical vector to north. */
  lemma ClosestOfUnitVectors()
    ensures forall k :: 0 <= k < 4 ==> Closest(CardinalUnits[k]) == CardinalOrder[k]
    ensures forall h: real :: Closest(Vector(0.0, 0.0, h)) == North
  {
    forall k | 0 <= k < 4
      ensures Closest(CardinalUnits[k]) == CardinalOrder[k]
    {
      ClosestRegions(CardinalUnits[k]);
    }
    forall h: real
      ensures Closest(Vector(0.0, 0.0, h)) == North
    {
      ClosestRegions(Vector(0.0, 0.0, h));
    }
  }

  /** A compas Vector that closest_direction unitizes in place. */
  class VectorCell {
    var x: real
    var y: real
    var z: real

    function Value(): Vector
      reads this
    {
      Vector(x, y, z)
    }

    constructor (v: Vector)
      ensures Value() == v
    {
      x, y, z := v.x, v.y, v.z;
    }

    /**
     * Vector.unitize: divides each coordinate by the length, so a zero
     * vector raises ZeroDivisionError and is left as it was. Dafny has no
     * square root: the caller passes the length, of which the model uses
     * only that it is positive, and zero exactly for the zero vector.
     */
    method Unitize(length: real) returns (r: Result<()>)
      requires length >= 0.0 && (length == 0.0 <==> Value() == Origin)
      modifies this
      ensures old(Value()) == Origin <==> r.Err?
      ensures r.Err? ==> r.error == ZeroDivisionError && Value() == old(Value())
      ensures r.Ok? ==> length > 0.0 && Value() == Scale(old(Value()), 1.0 / length)
    {
      if length == 0.0 {
        return Err(ZeroDivisionError);
      }
      ghost var was := Value();
      x, y, z := x / length, y / length, z / length;
      DivisionIsScaling(was.x, length);
      DivisionIsScaling(was.y, length);
      DivisionIsScaling(was.z, length);
      return Ok(());
    }
  }

  lemma DivisionIsScaling(a: real, d: real)
    requires d != 0.0
    ensures a / d == (1.0 / d) * a
  {
  }

  /**
   * closest_direction: unitizes the caller's vector in place, scores it
   * against north, east, south and west in that order, and returns the first
   * direction with the largest score.
   */
  method ClosestDirection(vector: VectorCell, length: real) returns (r: Result<Direction>)
    requires length >= 0.0 && (length == 0.0 <==> vector.Value() == Origin)
    modifies vector
    ensures r == DirectionOf(old(vector.Value()))
    ensures r.Ok? ==> length > 0.0 && vector.Value() == Scale(old(vector.Value()), 1.0 / length)
    ensures r.Err? ==> vector.Value() == old(vector.Value())
  {
    var u := vector.Unitize(length);
    if u.Err? {
      return Err(u.error);
    }
    var dotProducts: seq<real> := [];
    var i := 0;
    while i < |CardinalOrder|
      invariant 0 <= i <= 4
      invariant |dotProducts| == i
      invariant forall k :: 0 <= k < i ==> dotProducts[k] == Dot(vector.Value(), CardinalUnits[k])
    {
      dotProducts := dotProducts + [Dot(vector.Value(), CardinalUnits[i])];
      i := i + 1;
    }
    assert dotProducts == Scores(vector.Value());
    var closest := CardinalOrder[FirstMaxIndex(dotProducts)];
    ClosestIsScaleInvariant(old(vector.Value()), 1.0 / length);
    return Ok(closest);
  }
}
