/**
 * The rule vector of a column head (ColumnHeadCrossShape._generate_rules):
 * one flag per direction, set for every edge leaving the junction and for
 * every floor face between two such edges.
 */
module ColumnHeadRules {
  import opened Base
  import opened Directions

  /** Eight flags indexed by Direction; the source keeps them in a tuple. */
  type Rules = r: seq<bool> | |r| == 8 witness [false, false, false, false, false, false, false, false]

  const NoRules: Rules := [false, false, false, false, false, false, false, false]

  /** An edge (v0, v1) of the local graph; v0 is the junction the head sits on. */
  type Edge = (int, int)

  /**
   * A diagonal flag is only meaningful between its two cardinal flags: a
   * floor plate can only meet the head where two beams do.
   */
  predicate Consistent(r: Rules)
  {
    forall d: Direction :: !IsCardinal(d) && r[d] ==> r[Prev(d)] && r[Next(d)]
  }

  /** The edge loop can handle an edge: both ends are known and distinct points. */
  predicate EdgeOK(v: map<int, Point>, edge: Edge)
  {
    edge.0 in v && edge.1 in v && v[edge.0] != v[edge.1]
  }

  /** What the edge loop raises on an edge it cannot handle. */
  function EdgeError(v: map<int, Point>, edge: Edge): Error
  {
    if edge.0 !in v || edge.1 !in v then ValueError else ZeroDivisionError
  }

  /** The direction the edge loop records for an edge: v1 - v0 snapped to a cardinal. */
  function EdgeDirection(v: map<int, Point>, edge: Edge): (d: Direction)
    requires EdgeOK(v, edge)
    ensures IsCardinal(d)
  {
    Closest(Sub(v[edge.1], v[edge.0]))
  }

  /** The state of the edge loop: the flags and the edge_directions dictionary. */
  datatype EdgeScan = EdgeScan(rules: Rules, directions: map<Edge, Direction>)

  /** One iteration of the edge loop. */
  function ScanEdge(v: map<int, Point>, edge: Edge, acc: EdgeScan): Result<EdgeScan>
  {
    if edge.0 !in v then Err(ValueError)
    else if edge.1 !in v then Err(ValueError)
    else match DirectionOf(Sub(v[edge.1], v[edge.0]))
      case Err(x) => Err(x)
      case Ok(d) =>
        Ok(EdgeScan(acc.rules[d := true], acc.directions[(edge.0, edge.1) := d][(edge.1, edge.0) := d]))
  }

  /** The edge loop over the first n edges. */
  function ScanEdges(v: map<int, Point>, e: seq<Edge>, n: nat): Result<EdgeScan>
    requires n <= |e|
  {
    if n == 0 then Ok(EdgeScan(NoRules, map[]))
    else match ScanEdges(v, e, n - 1)
      case Err(x) => Err(x)
      case Ok(acc) => ScanEdge(v, e[n - 1], acc)
  }

  /**
   * face_edge_directions after the first n positions of the face: the
   * recorded direction of each consecutive pair (face[i], face[i + 1]),
   * cyclically, that is a known edge.
   */
  function FaceEdgeDirections(directions: map<Edge, Direction>, face: seq<int>, n: nat): seq<Direction>
    requires n <= |face|
  {
    if n == 0 then []
    else
      var pair := (face[n - 1], face[n % |face|]);
      FaceEdgeDirections(directions, face, n - 1) + (if pair in directions then [directions[pair]] else [])
  }

  /**
   * The flag one floor face sets: the combination of its two known edges.
   * Any other number of known edges is a ValueError, two edges that are not
   * a quarter turn apart a KeyError.
   */
  function FaceDirection(directions: map<Edge, Direction>, face: seq<int>): (r: Result<Direction>)
    ensures var found := FaceEdgeDirections(directions, face, |face|);
      && (r == Err(ValueError) <==> |found| != 2)
      && (r == Err(KeyError) <==> |found| == 2 && Combine(found[0], found[1]).None?)
      && (r.Ok? ==> |found| == 2 && Combine(found[0], found[1]) == Some(r.value))
  {
    var found := FaceEdgeDirections(directions, face, |face|);
    if |found| != 2 then Err(ValueError)
    else match Combine(found[0], found[1])
      case None => Err(KeyError)
      case Some(d) => Ok(d)
  }

  /** The face loop over the first n faces, starting from the flags the edges set. */
  function ScanFaces(directions: map<Edge, Direction>, f: seq<seq<int>>, n: nat, start: Rules): Result<Rules>
    requires n <= |f|
  {
    if n == 0 then Ok(start)
    else match ScanFaces(directions, f, n - 1, start)
      case Err(x) => Err(x)
      case Ok(r) =>
        match FaceDirection(directions, f[n - 1])
          case Err(x) => Err(x)
          case Ok(d) =>
            var next: Rules := r[d := true];
            Ok(next)
  }

  /** _generate_rules: the edge loop, then the face loop. */
  function GenerateRules(v: map<int, Point>, e: seq<Edge>, f: seq<seq<int>>): Result<Rules>
  {
    match ScanEdges(v, e, |e|)
      case Err(x) => Err(x)
      case Ok(s) => ScanFaces(s.directions, f, |f|, s.rules)
  }

  /** edge_directions as the edge loop leaves it, when every edge is handled. */
  function DirectionMap(v: map<int, Point>, e: seq<Edge>, n: nat): map<Edge, Direction>
    requires n <= |e|
  {
    if n == 0 then map[]
    else
      var m := DirectionMap(v, e, n - 1);
      var edge := e[n - 1];
      if EdgeOK(v, edge) then m[(edge.0, edge.1) := EdgeDirection(v, edge)][(edge.1, edge.0) := EdgeDirection(v, edge)]
      else m
  }

  /**
   * The edge loop succeeds exactly when every edge can be handled, and
   * otherwise raises what the first edge it cannot handle raises.
   */
  lemma ScanEdgesOutcome(v: map<int, Point>, e: seq<Edge>, n: nat)
    requires n <= |e|
    ensures ScanEdges(v, e, n).Ok? <==> forall i :: 0 <= i < n ==> EdgeOK(v, e[i])
    ensures ScanEdges(v, e, n).Err? ==>
      exists i :: 0 <= i < n && !EdgeOK(v, e[i]) && (forall j :: 0 <= j < i ==> EdgeOK(v, e[j]))
        && ScanEdges(v, e, n).error == EdgeError(v, e[i])
  {
    ScanEdgesSucceeds(v, e, n);
    if ScanEdges(v, e, n).Err? {
      ScanEdgesFirstError(v, e, n);
    }
  }

  lemma {:induction false} ScanEdgesSucceeds(v: map<int, Point>, e: seq<Edge>, n: nat)
    requires n <= |e|
    ensures ScanEdges(v, e, n).Ok? <==> forall i :: 0 <= i < n ==> EdgeOK(v, e[i])
  {
    if n > 0 {
      var last := n - 1;
      ScanEdgesSucceeds(v, e, last);
      if ScanEdges(v, e, last).Ok? {
        EdgeOutcome(v, e[last], ScanEdges(v, e, last).value);
        assert ScanEdges(v, e, n) == ScanEdge(v, e[last], ScanEdges(v, e, last).value);
      } else {
        var i :| 0 <= i < last && !EdgeOK(v, e[i]);
        assert 0 <= i < n;
      }
    }
  }

  lemma {:induction false} ScanEdgesFirstError(v: map<int, Point>, e: seq<Edge>, n: nat)
    requires n <= |e|
    requires ScanEdges(v, e, n).Err?
    ensures exists i :: 0 <= i < n && !EdgeOK(v, e[i]) && (forall j :: 0 <= j < i ==> EdgeOK(v, e[j])) &&
                        ScanEdges(v, e, n).error == EdgeError(v, e[i])
  {
    var last := n - 1;
    if ScanEdges(v, e, last).Err? {
      ScanEdgesFirstError(v, e, last);
      var i :| 0 <= i < last && !EdgeOK(v, e[i]) && (forall j :: 0 <= j < i ==> EdgeOK(v, e[j]))
        && ScanEdges(v, e, last).error == EdgeError(v, e[i]);
      assert 0 <= i < n;
    } else {
      ScanEdgesSucceeds(v, e, last);
      EdgeOutcome(v, e[last], ScanEdges(v, e, last).value);
      assert 0 <= last < n && !EdgeOK(v, e[last]) && (forall j :: 0 <= j < last ==> EdgeOK(v, e[j]));
    }
  }

  /** One step of the edge loop succeeds exactly on an edge it can handle, and raises EdgeError otherwise. */
  lemma EdgeOutcome(v: map<int, Point>, edge: Edge, acc: EdgeScan)
    ensures ScanEdge(v, edge, acc).Ok? <==> EdgeOK(v, edge)
    ensures ScanEdge(v, edge, acc).Err? ==> ScanEdge(v, edge, acc).error == EdgeError(v, edge)
  {
    if edge.0 in v && edge.1 in v {
      SubZero(v[edge.1], v[edge.0]);
    }
  }

  /** When the edge loop succeeds, its dictionary is DirectionMap. */
  lemma {:induction false} ScanEdgesDirections(v: map<int, Point>, e: seq<Edge>, n: nat)
    requires n <= |e|
    requires ScanEdges(v, e, n).Ok?
    ensures ScanEdges(v, e, n).value.directions == DirectionMap(v, e, n)
    ensures forall i :: 0 <= i < n ==> EdgeOK(v, e[i])
  {
    if n > 0 {
      ScanEdgesDirections(v, e, n - 1);
      var edge := e[n - 1];
      assert EdgeOK(v, edge);
      assert DirectionOf(Sub(v[edge.1], v[edge.0])) == Ok(EdgeDirection(v, edge));
    }
  }

  /** When the edge loop succeeds it sets exactly the flags of the edges' directions. */
  lemma {:induction false} ScanEdgesRules(v: map<int, Point>, e: seq<Edge>, n: nat)
    requires n <= |e|
    requires ScanEdges(v, e, n).Ok?
    ensures forall i :: 0 <= i < n ==> EdgeOK(v, e[i])
    ensures forall d: Direction :: ScanEdges(v, e, n).value.rules[d] <==>
      exists i :: 0 <= i < n && EdgeDirection(v, e[i]) == d
  {
    ScanEdgesDirections(v, e, n);
    if n > 0 {
      var acc := ScanEdges(v, e, n - 1).value;
      ScanEdgesRules(v, e, n - 1);
      var edge := e[n - 1];
      var d := EdgeDirection(v, edge);
      assert DirectionOf(Sub(v[edge.1], v[edge.0])) == Ok(d);
      var rules := ScanEdges(v, e, n).value.rules;
      assert rules == acc.rules[d := true];
      forall d': Direction
        ensures rules[d'] <==> exists i :: 0 <= i < n && EdgeDirection(v, e[i]) == d'
      {
        EdgeFlagStep(v, e, n, acc.rules, rules, d');
      }
    }
  }

  /** One more edge sets its own direction's flag and leaves the others as they were. */
  lemma EdgeFlagStep(v: map<int, Point>, e: seq<Edge>, n: nat, before: Rules, after: Rules, x: Direction)
    requires 0 < n <= |e|
    requires forall i :: 0 <= i < n ==> EdgeOK(v, e[i])
    requires after == before[EdgeDirection(v, e[n - 1]) := true]
    requires before[x] <==> exists i :: 0 <= i < n - 1 && EdgeDirection(v, e[i]) == x
    ensures after[x] <==> exists i :: 0 <= i < n && EdgeDirection(v, e[i]) == x
  {
    var last := n - 1;
    if x == EdgeDirection(v, e[last]) {
      assert after[x] && 0 <= last < n && EdgeDirection(v, e[last]) == x;
    } else {
      assert after[x] == before[x];
      if before[x] {
        var i :| 0 <= i < n - 1 && EdgeDirection(v, e[i]) == x;
        assert 0 <= i < n;
      }
      if exists i :: 0 <= i < n && EdgeDirection(v, e[i]) == x {
        var i :| 0 <= i < n && EdgeDirection(v, e[i]) == x;
        assert i != last;
      }
    }
  }

  /** Every entry of the direction map is a cardinal direction whose flag the edges set. */
  lemma {:induction false} DirectionMapValues(v: map<int, Point>, e: seq<Edge>, n: nat)
    requires n <= |e|
    ensures forall k :: k in DirectionMap(v, e, n) ==>
      exists i :: 0 <= i < n && EdgeOK(v, e[i]) && EdgeDirection(v, e[i]) == DirectionMap(v, e, n)[k]
  {
    if n > 0 {
      DirectionMapValues(v, e, n - 1);
    }
  }

  /**
   * The face loop succeeds exactly when every face resolves to a direction,
   * and otherwise raises what the first failing face raises.
   */
  lemma {:induction false} ScanFacesOutcome(directions: map<Edge, Direction>, f: seq<seq<int>>, n: nat, start: Rules)
    requires n <= |f|
    ensures ScanFaces(directions, f, n, start).Ok? <==> forall j :: 0 <= j < n ==> FaceDirection(directions, f[j]).Ok?
    ensures ScanFaces(directions, f, n, start).Err? ==>
      exists j :: 0 <= j < n && FaceDirection(directions, f[j]).Err?
        && (forall k :: 0 <= k < j ==> FaceDirection(directions, f[k]).Ok?)
        && ScanFaces(directions, f, n, start).error == FaceDirection(directions, f[j]).error
  {
    if n > 0 {
      ScanFacesOutcome(directions, f, n - 1, start);
    }
  }

  /** When the face loop succeeds it adds exactly the faces' directions to the flags it starts from. */
  lemma {:induction false} ScanFacesState(directions: map<Edge, Direction>, f: seq<seq<int>>, n: nat, start: Rules)
    requires n <= |f|
    requires ScanFaces(directions, f, n, start).Ok?
    ensures forall d: Direction :: ScanFaces(directions, f, n, start).value[d] <==>
      start[d] || exists j :: 0 <= j < n && FaceDirection(directions, f[j]) == Ok(d)
  {
    if n > 0 {
      var r := ScanFaces(directions, f, n - 1, start).value;
      ScanFacesState(directions, f, n - 1, start);
      var d := FaceDirection(directions, f[n - 1]).value;
      var r' := ScanFaces(directions, f, n, start).value;
      assert r' == r[d := true];
      forall d': Direction
        ensures r'[d'] <==> start[d'] || exists j :: 0 <= j < n && FaceDirection(directions, f[j]) == Ok(d')
      {
        FaceFlagStep(directions, f, n, start, r, r', d');
      }
    }
  }

  /** One more face sets its own direction's flag and leaves the others as they were. */
  lemma FaceFlagStep(directions: map<Edge, Direction>, f: seq<seq<int>>, n: nat, start: Rules, before: Rules, after: Rules, x: Direction)
    requires 0 < n <= |f|
    requires FaceDirection(directions, f[n - 1]).Ok?
    requires after == before[FaceDirection(directions, f[n - 1]).value := true]
    requires before[x] <==> start[x] || exists j :: 0 <= j < n - 1 && FaceDirection(directions, f[j]) == Ok(x)
    ensures after[x] <==> start[x] || exists j :: 0 <= j < n && FaceDirection(directions, f[j]) == Ok(x)
  {
    var last := n - 1;
    if Ok(x) == FaceDirection(directions, f[last]) {
      assert after[x] && 0 <= last < n && FaceDirection(directions, f[last]) == Ok(x);
    } else {
      assert after[x] == before[x];
      if before[x] && !start[x] {
        var j :| 0 <= j < n - 1 && FaceDirection(directions, f[j]) == Ok(x);
        assert 0 <= j < n;
      }
      if exists j :: 0 <= j < n && FaceDirection(directions, f[j]) == Ok(x) {
        var j :| 0 <= j < n && FaceDirection(directions, f[j]) == Ok(x);
        assert j != last;
      }
    }
  }

  /**
   * When _generate_rules returns, a cardinal flag is set exactly when some
   * edge points that way, and a diagonal flag exactly when some face lies
   * between two edges in that diagonal.
   */
  lemma RulesCharacterised(v: map<int, Point>, e: seq<Edge>, f: seq<seq<int>>)
    requires GenerateRules(v, e, f).Ok?
    ensures forall i :: 0 <= i < |e| ==> EdgeOK(v, e[i])
    ensures forall j :: 0 <= j < |f| ==> FaceDirection(DirectionMap(v, e, |e|), f[j]).Ok?
    ensures forall d: Direction :: IsCardinal(d) ==>
      (GenerateRules(v, e, f).value[d] <==> exists i :: 0 <= i < |e| && EdgeDirection(v, e[i]) == d)
    ensures forall d: Direction :: !IsCardinal(d) ==>
      (GenerateRules(v, e, f).value[d] <==>
        exists j :: 0 <= j < |f| && FaceDirection(DirectionMap(v, e, |e|), f[j]) == Ok(d))
  {
    ScanEdgesDirections(v, e, |e|);
    ScanEdgesRules(v, e, |e|);
    var s := ScanEdges(v, e, |e|).value;
    ScanFacesOutcome(s.directions, f, |f|, s.rules);
    ScanFacesState(s.directions, f, |f|, s.rules);
  }

  /**
   * _generate_rules succeeds exactly when every edge has two known, distinct
   * end points and every face then resolves to a diagonal; otherwise it
   * raises ValueError, ZeroDivisionError or KeyError.
   */
  lemma GenerateRulesSucceeds(v: map<int, Point>, e: seq<Edge>, f: seq<seq<int>>)
    ensures GenerateRules(v, e, f).Ok? <==>
      (forall i :: 0 <= i < |e| ==> EdgeOK(v, e[i]))
      && (forall j :: 0 <= j < |f| ==> FaceDirection(DirectionMap(v, e, |e|), f[j]).Ok?)
    ensures GenerateRules(v, e, f).Err? ==> GenerateRules(v, e, f).error in {ValueError, ZeroDivisionError, KeyError}
  {
    ScanEdgesOutcome(v, e, |e|);
    if ScanEdges(v, e, |e|).Ok? {
      ScanEdgesDirections(v, e, |e|);
      var s := ScanEdges(v, e, |e|).value;
      ScanFacesOutcome(s.directions, f, |f|, s.rules);
      if GenerateRules(v, e, f).Err? {
        var j :| 0 <= j < |f| && FaceDirection(s.directions, f[j]).Err?
          && GenerateRules(v, e, f).error == FaceDirection(s.directions, f[j]).error;
      }
    } else {
      var i :| 0 <= i < |e| && !EdgeOK(v, e[i]) && ScanEdges(v, e, |e|).error == EdgeError(v, e[i]);
    }
  }

  /**
   * Edges only set cardinal flags and faces only diagonal ones, and every
   * diagonal comes with both of its cardinals: the rules _generate_rules
   * returns are Consistent, so the mesh's fix-up loop never has work to do.
   */
  lemma GeneratedRulesAreConsistent(v: map<int, Point>, e: seq<Edge>, f: seq<seq<int>>)
    requires GenerateRules(v, e, f).Ok?
    ensures Consistent(GenerateRules(v, e, f).value)
  {
    var r := GenerateRules(v, e, f).value;
    var m := DirectionMap(v, e, |e|);
    RulesCharacterised(v, e, f);
    forall d: Direction | !IsCardinal(d) && r[d]
      ensures r[Prev(d)] && r[Next(d)]
    {
      var j :| 0 <= j < |f| && FaceDirection(m, f[j]) == Ok(d);
      FaceNeighboursRecorded(m, f[j], d);
      RecordedIsSet(v, e, f, Prev(d));
      RecordedIsSet(v, e, f, Next(d));
    }
  }

  /** A face that resolves to a diagonal found both of its cardinals in the direction map. */
  lemma FaceNeighboursRecorded(m: map<Edge, Direction>, face: seq<int>, d: Direction)
    requires FaceDirection(m, face) == Ok(d)
    ensures Prev(d) in m.Values && Next(d) in m.Values
  {
    var found := FaceEdgeDirections(m, face, |face|);
    FoundAreRecorded(m, face, |face|);
    assert found[0] in m.Values && found[1] in m.Values;
  }

  /** A direction the edge loop recorded is a flag of the generated rules. */
  lemma RecordedIsSet(v: map<int, Point>, e: seq<Edge>, f: seq<seq<int>>, x: Direction)
    requires GenerateRules(v, e, f).Ok?
    requires x in DirectionMap(v, e, |e|).Values
    ensures GenerateRules(v, e, f).value[x]
  {
    var m := DirectionMap(v, e, |e|);
    RulesCharacterised(v, e, f);
    DirectionMapValues(v, e, |e|);
    var k :| k in m && m[k] == x;
    var i :| 0 <= i < |e| && EdgeOK(v, e[i]) && EdgeDirection(v, e[i]) == m[k];
  }

  /** Every direction collected around a face is a value of the direction map. */
  lemma {:induction false} FoundAreRecorded(directions: map<Edge, Direction>, face: seq<int>, n: nat)
    requires n <= |face|
    ensures forall k :: 0 <= k < |FaceEdgeDirections(directions, face, n)| ==>
      FaceEdgeDirections(directions, face, n)[k] in directions.Values
  {
    if n > 0 {
      FoundAreRecorded(directions, face, n - 1);
    }
  }

  /**
   * The fix-up loop of _generate_mesh, as the script runs it on a list:
   * each diagonal flag missing one of its cardinals is cleared.
   */
  function FixedUp(r: Rules): (fixed: Rules)
    ensures Consistent(fixed)
    ensures forall d: Direction :: IsCardinal(d) ==> fixed[d] == r[d]
    ensures forall d: Direction :: !IsCardinal(d) ==> (fixed[d] <==> r[d] && r[Prev(d)] && r[Next(d)])
  {
    var fixed: Rules := seq(8, d requires 0 <= d < 8 => if d % 2 == 1 && !(r[d - 1] && r[(d + 1) % 8]) then false else r[d]);
    forall d: Direction
      ensures fixed[d] == if IsCardinal(d) then r[d] else r[d] && r[Prev(d)] && r[Next(d)]
    {
      DiagonalNeighbours(d);
    }
    forall d: Direction | !IsCardinal(d) && fixed[d]
      ensures fixed[Prev(d)] && fixed[Next(d)]
    {
      DiagonalNeighbours(d);
    }
    fixed
  }

  /** A diagonal's neighbours are the cardinals on either side of it. */
  lemma DiagonalNeighbours(d: Direction)
    ensures !IsCardinal(d) ==> Prev(d) == d - 1 && Next(d) == (d + 1) % 8
    ensures !IsCardinal(d) ==> IsCardinal(Prev(d)) && IsCardinal(Next(d))
  {
  }

  /** The fix-up changes nothing exactly on consistent rules. */
  lemma FixedUpIsIdentityOnConsistent(r: Rules)
    ensures FixedUp(r) == r <==> Consistent(r)
  {
    if Consistent(r) {
      forall d: Direction
        ensures FixedUp(r)[d] == r[d]
      {
      }
    }
  }
}
