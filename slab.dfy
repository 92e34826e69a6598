/**
 * The slab-rib script helpers: keeping the larger half of a sliced mesh,
 * the two-stage slicing of each rib, the offset rib lines, and Laplacian
 * smoothing of a polygon. Mesh slicing and the bounding-box volume are
 * library code and arrive as functions.
 */
module SlabScript {
  import opened Base
  import opened Prism

  /**
   * slice_and_select_largest(mesh, plane): the fragment with the larger
   * bounding-box volume, the first one on a tie, or the mesh itself when
   * the slice yields nothing.
   */
  function SliceAndSelectLargest<M, P>(mesh: M, plane: P, slice: (M, P) -> Option<(M, M)>, volume: M -> real): (r: M)
    ensures slice(mesh, plane).None? ==> r == mesh
    ensures slice(mesh, plane).Some? ==>
      var (a, b) := slice(mesh, plane).value;
      (r == a || r == b) && volume(r) >= volume(a) && volume(r) >= volume(b) && (volume(a) >= volume(b) ==> r == a)
  {
    match slice(mesh, plane)
    case None => mesh
    case Some((a, b)) => if volume(a) < volume(b) then b else a
  }

  /**
   * The rib loop of the slicing test: each division's lofted rib is cut by
   * the first border plane, the kept part by the second, and the result
   * appended to beam_shapes.
   */
  method BeamShapes<M, P>(divisions: nat, loftOf: nat -> M, plane0: P, plane1: P,
                          slice: (M, P) -> Option<(M, M)>, volume: M -> real)
    returns (shapes: seq<M>)
    ensures |shapes| == divisions + 1
    ensures forall i :: 0 <= i <= divisions ==>
      shapes[i] == SliceAndSelectLargest(SliceAndSelectLargest(loftOf(i), plane0, slice, volume), plane1, slice, volume)
  {
    shapes := [];
    var i := 0;
    while i < divisions + 1
      invariant 0 <= i <= divisions + 1
      invariant |shapes| == i
      invariant forall k :: 0 <= k < i ==>
        shapes[k] == SliceAndSelectLargest(SliceAndSelectLargest(loftOf(k), plane0, slice, volume), plane1, slice, volume)
    {
      var mesh := loftOf(i);
      var splitMesh := mesh;
      var pair0 := slice(mesh, plane0);
      if pair0.Some? {
        var (a, b) := pair0.value;
        if volume(a) < volume(b) {
          a, b := b, a;
        }
        splitMesh := a;
      }
      var pair1 := slice(splitMesh, plane1);
      if pair1.Some? {
        var (a, b) := pair1.value;
        if volume(a) < volume(b) {
          a, b := b, a;
        }
        splitMesh := a;
      }
      shapes := shapes + [splitMesh];
      i := i + 1;
    }
  }

  /** The offset lines the rib loop collects in iterations 0, 1, ..., k - 1. */
  function RibLines<L>(divisions: nat, k: nat, offset0: nat -> L, offset1: nat -> L): seq<L>
  {
    if k == 0 then []
    else
      RibLines(divisions, k - 1, offset0, offset1)
      + (if k - 1 > 0 then [offset0(k - 1)] else [])
      + (if k - 1 < divisions then [offset1(k - 1)] else [])
  }

  /**
   * The rib loop over i in range(QUARTER_DIVISIONS + 1): the first offset
   * line when i > 0, the second when i < QUARTER_DIVISIONS.
   */
  method RibOffsetLines<L>(divisions: nat, offset0: nat -> L, offset1: nat -> L) returns (lines: seq<L>)
    ensures lines == RibLines(divisions, divisions + 1, offset0, offset1)
  {
    lines := [];
    var i := 0;
    while i < divisions + 1
      invariant 0 <= i <= divisions + 1
      invariant lines == RibLines(divisions, i, offset0, offset1)
    {
      if i > 0 {
        lines := lines + [offset0(i)];
      }
      if i < divisions {
        lines := lines + [offset1(i)];
      }
      i := i + 1;
    }
  }

  /**
   * After k iterations the lines alternate: the second offset of rib i sits
   * at 2i and the first offset of rib i at 2i - 1.
   */
  lemma {:induction false} RibLinesLayout<L>(divisions: nat, k: nat, offset0: nat -> L, offset1: nat -> L)
    requires 1 <= k <= divisions + 1
    ensures |RibLines(divisions, k, offset0, offset1)| == if k == divisions + 1 then 2 * divisions else 2 * k - 1
    ensures forall i :: 0 <= i < k && i < divisions ==> RibLines(divisions, k, offset0, offset1)[2 * i] == offset1(i)
    ensures forall i :: 1 <= i < k ==> RibLines(divisions, k, offset0, offset1)[2 * i - 1] == offset0(i)
  {
    if k > 1 {
      RibLinesLayout(divisions, k - 1, offset0, offset1);
    }
  }

  /** The loop collects exactly 2 * QUARTER_DIVISIONS lines. */
  lemma RibLinesCount<L>(divisions: nat, offset0: nat -> L, offset1: nat -> L)
    ensures |RibLines(divisions, divisions + 1, offset0, offset1)| == 2 * divisions
  {
    RibLinesLayout(divisions, divisions + 1, offset0, offset1);
  }

  /** One smoothed point: alpha times the mean of the neighbours plus (1 - alpha) times the point. */
  function SmoothPoint(prev: Point, curr: Point, next: Point, alpha: real): Point
  {
    Vector(SmoothCoordinate(prev.x, curr.x, next.x, alpha),
           SmoothCoordinate(prev.y, curr.y, next.y, alpha),
           SmoothCoordinate(prev.z, curr.z, next.z, alpha))
  }

  function SmoothCoordinate(prev: real, curr: real, next: real, alpha: real): real
  {
    alpha * (prev + next) / 2.0 + (1.0 - alpha) * curr
  }

  /** One pass over the polygon; points[i - 1] at i = 0 is the last point. */
  function SmoothOnce(ps: seq<Point>, alpha: real): (r: seq<Point>)
    ensures |r| == |ps|
  {
    seq(|ps|, i requires 0 <= i < |ps| => SmoothPoint(ps[Prev(i, |ps|)], ps[i], ps[Next(i, |ps|)], alpha))
  }

  function Smooth(ps: seq<Point>, iterations: nat, alpha: real): seq<Point>
  {
    if iterations == 0 then ps else SmoothOnce(Smooth(ps, iterations - 1, alpha), alpha)
  }

  /** One pass of the outer loop of smooth_polygon: new_points built point by point. */
  method SmoothPass(points: seq<Point>, alpha: real) returns (newPoints: seq<Point>)
    ensures newPoints == SmoothOnce(points, alpha)
  {
    newPoints := [];
    var i := 0;
    while i < |points|
      invariant 0 <= i <= |points|
      invariant newPoints == SmoothOnce(points, alpha)[..i]
    {
      var prevPoint := if i == 0 then points[|points| - 1] else points[i - 1];
      var currPoint := points[i];
      var nextPoint := points[(i + 1) % |points|];
      var newPoint := SmoothPoint(prevPoint, currPoint, nextPoint, alpha);
      SmoothOnceStep(points, alpha, i, prevPoint, currPoint, nextPoint);
      newPoints := newPoints + [newPoint];
      i := i + 1;
    }
    assert SmoothOnce(points, alpha)[..|points|] == SmoothOnce(points, alpha);
  }

  /** The point the loop body computes at i is entry i of the pass. */
  lemma SmoothOnceStep(points: seq<Point>, alpha: real, i: nat, prev: Point, curr: Point, next: Point)
    requires i < |points|
    requires prev == (if i == 0 then points[|points| - 1] else points[i - 1])
    requires curr == points[i] && next == points[(i + 1) % |points|]
    ensures SmoothOnce(points, alpha)[..i + 1] == SmoothOnce(points, alpha)[..i] + [SmoothPoint(prev, curr, next, alpha)]
  {
    var s := SmoothOnce(points, alpha);
    assert s[i] == SmoothPoint(prev, curr, next, alpha);
    PrefixStep(s, i);
  }

  lemma PrefixStep<T>(s: seq<T>, i: nat)
    requires i < |s|
    ensures s[..i + 1] == s[..i] + [s[i]]
  { }

  /** smooth_polygon(polygon, iterations, alpha); range() of a negative count is empty. */
  method SmoothPolygon(polygon: seq<Point>, iterations: int, alpha: real) returns (points: seq<Point>)
    ensures points == Smooth(polygon, if iterations < 0 then 0 else iterations, alpha)
  {
    points := polygon;
    var it := 0;
    while it < iterations
      invariant 0 <= it && (iterations >= 0 ==> it <= iterations) && (iterations < 0 ==> it == 0)
      invariant points == Smooth(polygon, it, alpha)
    {
      points := SmoothPass(points, alpha);
      it := it + 1;
    }
  }

  /** Smoothing keeps the number of points. */
  lemma {:induction false} SmoothLength(ps: seq<Point>, iterations: nat, alpha: real)
    ensures |Smooth(ps, iterations, alpha)| == |ps|
  {
    if iterations > 0 {
      SmoothLength(ps, iterations - 1, alpha);
    }
  }

  /** With alpha = 0 every pass gives the polygon back. */
  lemma {:induction false} SmoothZeroAlpha(ps: seq<Point>, iterations: nat)
    ensures Smooth(ps, iterations, 0.0) == ps
  {
    if iterations > 0 {
      SmoothZeroAlpha(ps, iterations - 1);
      SmoothOnceZeroAlpha(ps);
    }
  }

  /** One pass with alpha = 0 keeps every point. */
  lemma SmoothOnceZeroAlpha(ps: seq<Point>)
    ensures SmoothOnce(ps, 0.0) == ps
  {
    forall i | 0 <= i < |ps|
      ensures SmoothOnce(ps, 0.0)[i] == ps[i]
    {
      var p := ps[i];
      assert SmoothOnce(ps, 0.0)[i] == SmoothPoint(ps[Prev(i, |ps|)], p, ps[Next(i, |ps|)], 0.0);
    }
  }

  /** The vector sum of the points, n times the centroid. */
  function Sum(ps: seq<Point>): Vector
  {
    if ps == [] then Origin else Add(Sum(ps[..|ps| - 1]), ps[|ps| - 1])
  }

  lemma {:induction false} SumAppend(a: seq<Point>, b: seq<Point>)
    ensures Sum(a + b) == Add(Sum(a), Sum(b))
  {
    if b == [] {
      assert a + b == a;
    } else {
      assert (a + b)[..|a + b| - 1] == a + b[..|b| - 1];
      SumAppend(a, b[..|b| - 1]);
    }
  }

  /** A smoothing step is linear in the three points it reads. */
  lemma SmoothPointAdditive(a1: Point, b1: Point, c1: Point, a2: Point, b2: Point, c2: Point, alpha: real)
    ensures Add(SmoothPoint(a1, b1, c1, alpha), SmoothPoint(a2, b2, c2, alpha))
         == SmoothPoint(Add(a1, a2), Add(b1, b2), Add(c1, c2), alpha)
  {
    SmoothCoordinateAdditive(a1.x, b1.x, c1.x, a2.x, b2.x, c2.x, alpha);
    SmoothCoordinateAdditive(a1.y, b1.y, c1.y, a2.y, b2.y, c2.y, alpha);
    SmoothCoordinateAdditive(a1.z, b1.z, c1.z, a2.z, b2.z, c2.z, alpha);
  }

  lemma SmoothCoordinateAdditive(a1: real, b1: real, c1: real, a2: real, b2: real, c2: real, alpha: real)
    ensures SmoothCoordinate(a1, b1, c1, alpha) + SmoothCoordinate(a2, b2, c2, alpha)
         == SmoothCoordinate(a1 + a2, b1 + b2, c1 + c2, alpha)
  {
    assert alpha * ((a1 + a2) + (c1 + c2)) == alpha * (a1 + c1) + alpha * (a2 + c2);
    assert (1.0 - alpha) * (b1 + b2) == (1.0 - alpha) * b1 + (1.0 - alpha) * b2;
  }

  /** Smoothing three equal points gives that point back. */
  lemma SmoothPointFixed(p: Point, alpha: real)
    ensures SmoothPoint(p, p, p, alpha) == p
  {
    assert alpha * (p.x + p.x) / 2.0 == alpha * p.x;
    assert alpha * (p.y + p.y) / 2.0 == alpha * p.y;
    assert alpha * (p.z + p.z) / 2.0 == alpha * p.z;
  }

  /** A smoothing pass over three lists sums to the pass over their sums. */
  lemma {:induction false} SumSmoothPoints(u: seq<Point>, v: seq<Point>, w: seq<Point>, alpha: real)
    requires |u| == |v| == |w|
    ensures Sum(seq(|u|, i requires 0 <= i < |u| => SmoothPoint(u[i], v[i], w[i], alpha)))
         == SmoothPoint(Sum(u), Sum(v), Sum(w), alpha)
  {
    var s := seq(|u|, i requires 0 <= i < |u| => SmoothPoint(u[i], v[i], w[i], alpha));
    if u == [] {
      assert s == [];
      SmoothPointFixed(Origin, alpha);
    } else {
      var m := |u| - 1;
      var init := seq(m, i requires 0 <= i < m => SmoothPoint(u[..m][i], v[..m][i], w[..m][i], alpha));
      SumSmoothPoints(u[..m], v[..m], w[..m], alpha);
      assert s[..m] == init;
      SmoothPointAdditive(Sum(u[..m]), Sum(v[..m]), Sum(w[..m]), u[m], v[m], w[m], alpha);
    }
  }

  /** Reading the polygon from the point before each point sums to the same vector. */
  lemma SumPrevious(ps: seq<Point>)
    requires ps != []
    ensures Sum(seq(|ps|, i requires 0 <= i < |ps| => ps[Prev(i, |ps|)])) == Sum(ps)
  {
    var n := |ps|;
    var s := seq(n, i requires 0 <= i < n => ps[Prev(i, n)]);
    assert s == [ps[n - 1]] + ps[..n - 1];
    SumAppend([ps[n - 1]], ps[..n - 1]);
    assert Sum([ps[n - 1]]) == Add(Sum([]), ps[n - 1]);
  }

  /** Reading the polygon from the point after each point sums to the same vector. */
  lemma SumFollowing(ps: seq<Point>)
    requires ps != []
    ensures Sum(seq(|ps|, i requires 0 <= i < |ps| => ps[Next(i, |ps|)])) == Sum(ps)
  {
    var n := |ps|;
    var s := seq(n, i requires 0 <= i < n => ps[Next(i, n)]);
    assert s == ps[1..] + [ps[0]];
    SumAppend(ps[1..], [ps[0]]);
    SumAppend([ps[0]], ps[1..]);
    assert [ps[0]] + ps[1..] == ps;
    assert Sum([ps[0]]) == Add(Sum([]), ps[0]);
  }

  /** A smoothing pass keeps the sum of the points, so it keeps the centroid. */
  lemma SmoothOnceKeepsSum(ps: seq<Point>, alpha: real)
    ensures Sum(SmoothOnce(ps, alpha)) == Sum(ps)
  {
    if ps != [] {
      var n := |ps|;
      var prev := seq(n, i requires 0 <= i < n => ps[Prev(i, n)]);
      var next := seq(n, i requires 0 <= i < n => ps[Next(i, n)]);
      assert SmoothOnce(ps, alpha) == seq(n, i requires 0 <= i < n => SmoothPoint(prev[i], ps[i], next[i], alpha));
      SumSmoothPoints(prev, ps, next, alpha);
      SumPrevious(ps);
      SumFollowing(ps);
      SmoothPointFixed(Sum(ps), alpha);
    }
  }

  /** Any number of smoothing passes keeps the centroid of the polygon. */
  lemma {:induction false} SmoothKeepsSum(ps: seq<Point>, iterations: nat, alpha: real)
    ensures Sum(Smooth(ps, iterations, alpha)) == Sum(ps)
  {
    if iterations > 0 {
      var q := Smooth(ps, iterations - 1, alpha);
      SmoothKeepsSum(ps, iterations - 1, alpha);
      SmoothOnceKeepsSum(q, alpha);
      SumTransitive(ps, q, Smooth(ps, iterations, alpha));
    }
  }

  lemma SumTransitive(a: seq<Point>, b: seq<Point>, c: seq<Point>)
    requires Sum(b) == Sum(a) && Sum(c) == Sum(b)
    ensures Sum(c) == Sum(a)
  {
  }
}
