/**
 * The loft helpers of the triangular slab example: a mesh between two
 * polygons, with quad or triangle sides, and a band of side faces through a
 * stack of polygons. The ear-clipping triangulation of a polygon is library
 * code and arrives as a function.
 */
module Loft {
  import opened Base
  import opened MeshTopology
  import opened Prism

  /** [i + k for i in f]. */
  function ShiftFace(f: Face, k: int): (r: Face)
    ensures |r| == |f|
    ensures forall i :: 0 <= i < |f| ==> r[i] == f[i] + k
  {
    seq(|f|, i requires 0 <= i < |f| => f[i] + k)
  }

  /** The faces of the untriangulated loft: [0..n-1], [n..2n-1] reversed, one quad per side. */
  function LoftFaces(n: nat): seq<Face>
  {
    [Range(0, n), Reverse(Range(n, 2 * n))] + Sides(n)
  }

  /** Side i of a triangulated loft, split into two triangles; `first` picks which. */
  function SideTriangle(i: int, n: int, first: bool): Face
    requires 0 <= i < n
  {
    if first then [i, Next(i, n), Next(i, n) + n] else [Next(i, n) + n, i + n, i]
  }

  function SideTriangles(n: nat): (r: seq<Face>)
    ensures |r| == 2 * n
  {
    seq(2 * n, k requires 0 <= k < 2 * n => SideTriangle(k / 2, n, k % 2 == 0))
  }

  /** The ear-clipped caps: the triangles of the first polygon, then each moved up by n and reversed. */
  function CapTriangles(tris: seq<Triangle>, n: int): (r: seq<Face>)
    ensures |r| == 2 * |tris|
  {
    TriFaces(tris) + seq(|tris|, k requires 0 <= k < |tris| => Reverse(ShiftFace(TriFace(tris[k]), n)))
  }

  /** The mesh loft_two_polygons builds, before mesh.unify_cycles(). */
  function LoftTwo(p1: seq<Point>, p2: seq<Point>, triangulate: bool, tris: seq<Triangle>): Mesh
  {
    Mesh(p1 + p2, if triangulate then CapTriangles(tris, |p1|) + SideTriangles(|p1|) else LoftFaces(|p1|))
  }

  /** The caps of the untriangulated loft: top_faces = [0..n-1], bottom_faces = [n..2n-1] reversed. */
  method QuadCaps(n: nat) returns (f: seq<Face>)
    ensures f == [Range(0, n), Reverse(Range(n, 2 * n))]
  {
    var topFace: Face := [];
    var bottomFace: Face := [];
    var i := 0;
    while i < n
      invariant 0 <= i <= n
      invariant topFace == Range(0, i) && bottomFace == Range(n, n + i)
    {
      topFace := topFace + [i];
      bottomFace := bottomFace + [i + n];
      i := i + 1;
    }
    bottomFace := Reverse(bottomFace);
    f := [topFace];
    f := f + [bottomFace];
  }

  /** The ear-clipped caps: the triangles, then each moved up by n and reversed. */
  method TriangleCaps(topFaces: seq<Triangle>, n: nat) returns (f: seq<Face>)
    ensures f == CapTriangles(topFaces, n)
  {
    f := TriFaces(topFaces);
    var k := 0;
    while k < |topFaces|
      invariant 0 <= k <= |topFaces|
      invariant f == TriFaces(topFaces) + seq(k, m requires 0 <= m < k => Reverse(ShiftFace(TriFace(topFaces[m]), n)))
    {
      var t := TriFace(topFaces[k]);
      var bottomFace := seq(|t|, j requires 0 <= j < |t| => t[j] + n);
      bottomFace := Reverse(bottomFace);
      f := f + [bottomFace];
      k := k + 1;
    }
  }

  /** The side loop of loft_two_polygons appended to the caps. */
  method LoftSides(caps: seq<Face>, n: nat, triangulate: bool) returns (f: seq<Face>)
    ensures f == caps + if triangulate then SideTriangles(n) else Sides(n)
  {
    f := caps;
    var i := 0;
    while i < n
      invariant 0 <= i <= n
      invariant f == caps + if triangulate then SideTriangles(n)[..2 * i] else Sides(n)[..i]
    {
      var next := (i + 1) % n;
      if triangulate {
        SideTrianglesStep(n, i);
        f := f + [[i, next, next + n]];
        f := f + [[next + n, i + n, i]];
      } else {
        SidesStep(n, i);
        f := f + [[i, next, next + n, i + n]];
      }
      i := i + 1;
    }
    assert SideTriangles(n)[..2 * n] == SideTriangles(n);
    assert Sides(n)[..n] == Sides(n);
  }

  lemma SideTrianglesStep(n: nat, i: nat)
    requires i < n
    ensures SideTriangles(n)[..2 * i + 2]
         == SideTriangles(n)[..2 * i] + [[i, (i + 1) % n, (i + 1) % n + n], [(i + 1) % n + n, i + n, i]]
  {
    var t := SideTriangles(n);
    assert t[2 * i] == SideTriangle(i, n, true);
    assert t[2 * i + 1] == SideTriangle(i, n, false);
    assert t[..2 * i + 2] == t[..2 * i] + [t[2 * i], t[2 * i + 1]];
  }

  lemma SidesStep(n: nat, i: nat)
    requires i < n
    ensures Sides(n)[..i + 1] == Sides(n)[..i] + [[i, (i + 1) % n, (i + 1) % n + n, i + n]]
  {
    var t := Sides(n);
    assert t[i] == SideQuad(i, n);
    assert t[..i + 1] == t[..i] + [t[i]];
  }

  /** loft_two_polygons(polygon1, polygon2, triangulate), up to the call to unify_cycles. */
  method LoftTwoPolygons(p1: seq<Point>, p2: seq<Point>, triangulate: bool, earclip: seq<Point> -> seq<Triangle>)
    returns (mesh: Mesh)
    ensures mesh == LoftTwo(p1, p2, triangulate, earclip(p1))
  {
    var v := p1 + p2;
    var f: seq<Face>;
    if triangulate {
      f := TriangleCaps(earclip(p1), |p1|);
    } else {
      f := QuadCaps(|p1|);
    }
    f := LoftSides(f, |p1|, triangulate);
    mesh := Mesh(v, f);
  }

  /** The untriangulated loft has n + 2 faces whose indices are all among the 2n vertices. */
  lemma LoftFacesShape(n: nat)
    ensures |LoftFaces(n)| == n + 2
    ensures IndicesBelow(LoftFaces(n), 2 * n)
  {
    var faces := LoftFaces(n);
    forall k, i | 0 <= k < |faces| && 0 <= i < |faces[k]|
      ensures 0 <= faces[k][i] < 2 * n
    {
      if k >= 2 {
        assert faces[k] == SideQuad(k - 2, n);
      }
    }
  }

  /** A triangulated loft has two faces per cap triangle and exactly two triangles per side. */
  lemma LoftTrianglesShape(tris: seq<Triangle>, n: nat)
    requires TrianglesBelow(tris, n)
    ensures |CapTriangles(tris, n) + SideTriangles(n)| == 2 * |tris| + 2 * n
    ensures forall k :: 0 <= k < 2 * n ==> |SideTriangles(n)[k]| == 3
    ensures IndicesBelow(CapTriangles(tris, n) + SideTriangles(n), 2 * n)
  {
    var faces := CapTriangles(tris, n) + SideTriangles(n);
    forall k, i | 0 <= k < |faces| && 0 <= i < |faces[k]|
      ensures 0 <= faces[k][i] < 2 * n
    {
      if k < |tris| {
        assert faces[k] == TriFace(tris[k]);
      } else if k < 2 * |tris| {
        var t := TriFace(tris[k - |tris|]);
        assert faces[k] == Reverse(ShiftFace(t, n));
        assert faces[k][i] == t[|t| - 1 - i] + n;
      } else {
        var s := k - 2 * |tris|;
        assert faces[k] == SideTriangle(s / 2, n, s % 2 == 0);
      }
    }
  }

  /**
   * The untriangulated loft is not consistently oriented for n >= 3: the
   * first cap and the first side quad both walk from vertex 0 to vertex 1,
   * and no face walks back from 1 to 0. The mesh is handed to
   * unify_cycles for that reason.
   */
  lemma LoftNeedsUnifying(n: nat)
    requires n >= 3
    ensures Traverses(LoftFaces(n)[0], 0, 1) && Traverses(LoftFaces(n)[2], 0, 1)
    ensures !Paired(LoftFaces(n))
  {
    var faces := LoftFaces(n);
    EndIs(faces[0], 0);
    assert Start(faces[0], 0) == 0 && End(faces[0], 0) == 1;
    assert faces[2] == SideQuad(0, n);
    EndIs(faces[2], 0);
    assert Start(faces[2], 0) == 0 && End(faces[2], 0) == 1;
    forall m, j | 0 <= m < |faces| && 0 <= j < |faces[m]| && faces[m][j] == 1
      ensures End(faces[m], j) != 0
    {
      EndIs(faces[m], j);
      if m >= 2 {
        assert faces[m] == SideQuad(m - 2, n);
      }
    }
    assert !Walked(faces, 1, 0);
  }

  /** The points of all polygons, one polygon after the other. */
  function Concat(ps: seq<seq<Point>>): seq<Point>
  {
    if ps == [] then [] else Concat(ps[..|ps| - 1]) + ps[|ps| - 1]
  }

  /** Side j of the band between polygon i and polygon i + 1, as a quad. */
  function BandQuad(i: nat, j: int, n: nat): Face
    requires 0 <= j < n
  {
    [i * n + j, i * n + Next(j, n), (i + 1) * n + Next(j, n), (i + 1) * n + j]
  }

  /** Side j of the band between polygon i and polygon i + 1, split into two triangles. */
  function BandTriangle(i: nat, j: int, n: nat, first: bool): Face
    requires 0 <= j < n
  {
    if first then [i * n + j, i * n + Next(j, n), (i + 1) * n + Next(j, n)]
    else [(i + 1) * n + Next(j, n), (i + 1) * n + j, i * n + j]
  }

  /** The faces of the band between polygon i and polygon i + 1. */
  function Band(i: nat, n: nat, triangulate: bool): (r: seq<Face>)
    ensures |r| == if triangulate then 2 * n else n
  {
    if triangulate then seq(2 * n, t requires 0 <= t < 2 * n => BandTriangle(i, t / 2, n, t % 2 == 0))
    else seq(n, j requires 0 <= j < n => BandQuad(i, j, n))
  }

  /** The bands 0, 1, ..., k - 1. */
  function Bands(k: nat, n: nat, triangulate: bool): seq<Face>
  {
    if k == 0 then [] else Bands(k - 1, n, triangulate) + Band(k - 1, n, triangulate)
  }

  /** loft_multiple_polygons: polygons[0] on an empty list raises IndexError. */
  function LoftMany(polys: seq<seq<Point>>, triangulate: bool): Result<Mesh>
  {
    if polys == [] then Err(IndexError)
    else Ok(Mesh(Concat(polys), Bands(|polys| - 1, |polys[0]|, triangulate)))
  }

  lemma BandTrianglesStep(i: nat, n: nat, j: nat)
    requires j < n
    ensures var next := (j + 1) % n;
      Band(i, n, true)[..2 * j + 2] == Band(i, n, true)[..2 * j]
        + [[i * n + j, i * n + next, (i + 1) * n + next], [(i + 1) * n + next, (i + 1) * n + j, i * n + j]]
  {
    var t := Band(i, n, true);
    assert t[2 * j] == BandTriangle(i, j, n, true);
    assert t[2 * j + 1] == BandTriangle(i, j, n, false);
    assert t[..2 * j + 2] == t[..2 * j] + [t[2 * j], t[2 * j + 1]];
  }

  lemma BandQuadsStep(i: nat, n: nat, j: nat)
    requires j < n
    ensures var next := (j + 1) % n;
      Band(i, n, false)[..j + 1] == Band(i, n, false)[..j] + [[i * n + j, i * n + next, (i + 1) * n + next, (i + 1) * n + j]]
  {
    var t := Band(i, n, false);
    assert t[j] == BandQuad(i, j, n);
    assert t[..j + 1] == t[..j] + [t[j]];
  }

  /** One pass of the inner loop of loft_multiple_polygons: the band above polygon i. */
  method AppendBand(f0: seq<Face>, i: nat, n: nat, triangulate: bool) returns (f: seq<Face>)
    ensures f == f0 + Band(i, n, triangulate)
  {
    var band := Band(i, n, triangulate);
    var low := i * n;
    var high := (i + 1) * n;
    f := f0;
    var j := 0;
    while j < n
      invariant 0 <= j <= n
      invariant f == f0 + band[..if triangulate then 2 * j else j]
    {
      var next := (j + 1) % n;
      if triangulate {
        BandTrianglesStep(i, n, j);
        f := f + [[low + j, low + next, high + next]];
        f := f + [[high + next, high + j, low + j]];
      } else {
        BandQuadsStep(i, n, j);
        f := f + [[low + j, low + next, high + next, high + j]];
      }
      j := j + 1;
    }
    assert band[..if triangulate then 2 * n else n] == band;
  }

  method LoftMultiplePolygons(polys: seq<seq<Point>>, triangulate: bool) returns (r: Result<Mesh>)
    ensures r == LoftMany(polys, triangulate)
  {
    var v: seq<Point> := [];
    var p := 0;
    while p < |polys|
      invariant 0 <= p <= |polys|
      invariant v == Concat(polys[..p])
    {
      assert polys[..p + 1][..p] == polys[..p];
      v := v + polys[p];
      p := p + 1;
    }
    assert polys[..|polys|] == polys;
    if polys == [] {
      return Err(IndexError);
    }
    var n := |polys[0]|;
    var f: seq<Face> := [];
    var i := 0;
    while i < |polys| - 1
      invariant 0 <= i <= |polys| - 1
      invariant f == Bands(i, n, triangulate)
    {
      f := AppendBand(f, i, n, triangulate);
      i := i + 1;
    }
    r := Ok(Mesh(v, f));
  }

  /** Every face of band i has three or four corners, each below (i + 2) * n. */
  lemma BandShape(i: nat, n: nat, triangulate: bool)
    ensures IndicesBelow(Band(i, n, triangulate), (i + 2) * n)
    ensures forall m :: 0 <= m < |Band(i, n, triangulate)| ==> |Band(i, n, triangulate)[m]| == if triangulate then 3 else 4
  {
    var band := Band(i, n, triangulate);
    forall m | 0 <= m < |band|
      ensures |band[m]| == (if triangulate then 3 else 4) && forall c :: 0 <= c < |band[m]| ==> 0 <= band[m][c] < (i + 2) * n
    {
      var j := if triangulate then m / 2 else m;
      BandCorners(i, j, n);
    }
  }

  /** The corners of side j of band i lie in rows i and i + 1, below (i + 2) * n. */
  lemma BandCorners(i: nat, j: int, n: nat)
    requires 0 <= j < n
    ensures forall c :: 0 <= c < 4 ==> 0 <= BandQuad(i, j, n)[c] < (i + 2) * n
    ensures forall c :: 0 <= c < 3 ==> 0 <= BandTriangle(i, j, n, true)[c] < (i + 2) * n
    ensures forall c :: 0 <= c < 3 ==> 0 <= BandTriangle(i, j, n, false)[c] < (i + 2) * n
  {
    var low := i * n;
    assert (i + 1) * n == low + n;
    assert (i + 2) * n == low + n + n;
  }

  /** Bands 0..k-1 hold k bands of faces, and every index lies below (k + 1) * n. */
  lemma BandsShape(k: nat, n: nat, triangulate: bool)
    ensures |Bands(k, n, triangulate)| == k * (if triangulate then 2 * n else n)
    ensures IndicesBelow(Bands(k, n, triangulate), (k + 1) * n)
    ensures forall m :: 0 <= m < |Bands(k, n, triangulate)| ==> |Bands(k, n, triangulate)[m]| == if triangulate then 3 else 4
  {
    BandsLength(k, n, triangulate);
    BandsIndices(k, n, triangulate);
    BandsCorners(k, n, triangulate);
  }

  lemma {:induction false} BandsLength(k: nat, n: nat, triangulate: bool)
    ensures |Bands(k, n, triangulate)| == k * (if triangulate then 2 * n else n)
  {
    if k > 0 {
      BandsLength(k - 1, n, triangulate);
      var w := if triangulate then 2 * n else n;
      assert |Band(k - 1, n, triangulate)| == w;
      assert k * w == (k - 1) * w + w;
    }
  }

  lemma {:induction false} BandsIndices(k: nat, n: nat, triangulate: bool)
    ensures IndicesBelow(Bands(k, n, triangulate), (k + 1) * n)
  {
    if k > 0 {
      BandsIndices(k - 1, n, triangulate);
      BandShape(k - 1, n, triangulate);
      assert (k + 1) * n == k * n + n;
      IndicesBelowAppend(Bands(k - 1, n, triangulate), Band(k - 1, n, triangulate), k * n, (k + 1) * n, (k + 1) * n);
    }
  }

  lemma {:induction false} BandsCorners(k: nat, n: nat, triangulate: bool)
    ensures forall m :: 0 <= m < |Bands(k, n, triangulate)| ==> |Bands(k, n, triangulate)[m]| == if triangulate then 3 else 4
  {
    if k > 0 {
      BandsCorners(k - 1, n, triangulate);
      BandShape(k - 1, n, triangulate);
      var before := Bands(k - 1, n, triangulate);
      var band := Band(k - 1, n, triangulate);
      forall m | 0 <= m < |before + band|
        ensures |(before + band)[m]| == if triangulate then 3 else 4
      {
        if m < |before| {
          assert (before + band)[m] == before[m];
        } else {
          assert (before + band)[m] == band[m - |before|];
        }
      }
    }
  }



  /**
   * loft_multiple_polygons on k polygons of n points: (k - 1) * n quads or
   * 2 * (k - 1) * n triangles, no caps, and every index among the k * n
   * vertices.
   */
  lemma LoftManyShape(polys: seq<seq<Point>>, triangulate: bool)
    requires polys != []
    ensures LoftMany(polys, triangulate).Ok?
    ensures |LoftMany(polys, triangulate).value.faces| == (|polys| - 1) * (if triangulate then 2 * |polys[0]| else |polys[0]|)
    ensures IndicesBelow(LoftMany(polys, triangulate).value.faces, |polys| * |polys[0]|)
  {
    BandsShape(|polys| - 1, |polys[0]|, triangulate);
  }

  /** When every polygon has n points the vertex list has k * n points. */
  lemma {:induction false} ConcatLength(ps: seq<seq<Point>>, n: nat)
    requires forall p :: p in ps ==> |p| == n
    ensures |Concat(ps)| == |ps| * n
  {
    if ps != [] {
      var init := ps[..|ps| - 1];
      forall p | p in init
        ensures |p| == n
      {
        var i :| 0 <= i < |init| && init[i] == p;
        assert ps[i] in ps;
      }
      assert ps[|ps| - 1] in ps;
      ConcatLength(init, n);
      MulSucc(|init|, n);
    }
  }

  lemma MulSucc(m: nat, n: nat)
    ensures (m + 1) * n == m * n + n
  {
  }
}
