/**
 * The face-index scheme every extruded element uses for its mesh: the n
 * points of the bottom polygon followed by the n points of the top polygon,
 * the bottom cap read backwards, the top cap, and one side quad per edge of
 * the section.
 */
module Prism {
  import opened Base
  import opened MeshTopology

  /** A compas Mesh as Mesh.from_vertices_and_faces receives it. */
  datatype Mesh = Mesh(vertices: seq<Point>, faces: seq<Face>)

  /** A triangle of earclip_polygon: three indices into the polygon's points. */
  type Triangle = (int, int, int)

  function TriFace(t: Triangle): Face
  {
    [t.0, t.1, t.2]
  }

  function TriFaces(tris: seq<Triangle>): (r: seq<Face>)
    ensures |r| == |tris|
    ensures forall k :: 0 <= k < |tris| ==> r[k] == TriFace(tris[k])
  {
    seq(|tris|, k requires 0 <= k < |tris| => TriFace(tris[k]))
  }

  /** Every corner of every triangle is one of the n points of the polygon. */
  predicate TrianglesBelow(tris: seq<Triangle>, n: int)
  {
    forall k :: 0 <= k < |tris| ==> 0 <= tris[k].0 < n && 0 <= tris[k].1 < n && 0 <= tris[k].2 < n
  }

  /** The index after i on a closed polygon of n points, Python's (i + 1) % n. */
  function Next(i: int, n: int): (r: int)
    requires 0 <= i < n
    ensures 0 <= r < n && r == (i + 1) % n
  {
    if i + 1 == n then 0 else i + 1
  }

  /** The index before i on a closed polygon of n points. */
  function Prev(i: int, n: int): (r: int)
    requires 0 <= i < n
    ensures 0 <= r < n && Next(r, n) == i
  {
    if i == 0 then n - 1 else i - 1
  }

  /**
   * The side face over edge i of the section: with (a, b) the i-th pair of
   * pairwise(bottom + bottom[:1]) and (c, d) the i-th pair over the top,
   * the face [a, b, d, c].
   */
  function SideQuad(i: int, n: int): Face
    requires 0 <= i < n
  {
    [i, Next(i, n), n + Next(i, n), n + i]
  }

  function Sides(n: nat): (r: seq<Face>)
    ensures |r| == n
    ensures forall i :: 0 <= i < n ==> r[i] == SideQuad(i, n)
  {
    seq(n, i requires 0 <= i < n => SideQuad(i, n))
  }

  /** [bottom[::-1], top] followed by the side quads. */
  function PrismFaces(n: nat): seq<Face>
  {
    [Reverse(Range(0, n)), Range(n, 2 * n)] + Sides(n)
  }

  /** The mesh of the solid between a bottom and a top polygon. */
  function PrismMesh(bottom: seq<Point>, top: seq<Point>): Mesh
  {
    Mesh(bottom + top, PrismFaces(|bottom|))
  }

  /** Face f walks along the edge from a to b. */
  predicate Traverses(f: Face, a: int, b: int)
  {
    exists i :: 0 <= i < |f| && Start(f, i) == a && End(f, i) == b
  }

  /** Some face of the list walks along the edge from a to b. */
  predicate Walked(faces: seq<Face>, a: int, b: int)
  {
    exists m :: 0 <= m < |faces| && Traverses(faces[m], a, b)
  }

  /**
   * Every edge a face walks along is walked the other way by a face of the
   * list: the faces close up into a consistently oriented surface.
   */
  predicate Paired(faces: seq<Face>)
  {
    forall k, i :: 0 <= k < |faces| && 0 <= i < |faces[k]| ==> Walked(faces, End(faces[k], i), Start(faces[k], i))
  }

  lemma EndIs(f: Face, i: int)
    requires 0 <= i < |f|
    ensures End(f, i) == if i + 1 == |f| then f[0] else f[i + 1]
  {
  }

  /** The face list has n + 2 faces: two caps of n indices and n quads. */
  lemma PrismFacesShape(n: nat)
    ensures |PrismFaces(n)| == n + 2
    ensures |PrismFaces(n)[0]| == n && |PrismFaces(n)[1]| == n
    ensures forall k :: 2 <= k < n + 2 ==> |PrismFaces(n)[k]| == 4
  {
  }

  /** Every index names one of the 2n vertices bottom ++ top. */
  lemma PrismFacesBounded(n: nat)
    ensures IndicesBelow(PrismFaces(n), 2 * n)
  {
    var faces := PrismFaces(n);
    forall k, i | 0 <= k < |faces| && 0 <= i < |faces[k]|
      ensures 0 <= faces[k][i] < 2 * n
    {
      if k >= 2 {
        assert faces[k] == SideQuad(k - 2, n);
      }
    }
  }

  /** Face m walks from a to b at position j. */
  lemma WalkedAt(faces: seq<Face>, m: int, j: int, a: int, b: int)
    requires 0 <= m < |faces| && 0 <= j < |faces[m]|
    requires faces[m][j] == a && End(faces[m], j) == b
    ensures Walked(faces, a, b)
  {
    assert Traverses(faces[m], a, b);
  }

  /** The edges of the bottom cap are walked back by the side quads. */
  lemma BottomPaired(n: nat, i: int)
    requires 0 <= i < n
    ensures Walked(PrismFaces(n), End(PrismFaces(n)[0], i), Start(PrismFaces(n)[0], i))
  {
    var faces := PrismFaces(n);
    var s := n - 1 - i;
    EndIs(faces[0], i);
    assert faces[2 + Prev(s, n)] == SideQuad(Prev(s, n), n);
    EndIs(faces[2 + Prev(s, n)], 0);
    WalkedAt(faces, 2 + Prev(s, n), 0, End(faces[0], i), Start(faces[0], i));
  }

  /** The edges of the top cap are walked back by the side quads. */
  lemma TopPaired(n: nat, i: int)
    requires 0 <= i < n
    ensures Walked(PrismFaces(n), End(PrismFaces(n)[1], i), Start(PrismFaces(n)[1], i))
  {
    var faces := PrismFaces(n);
    EndIs(faces[1], i);
    assert faces[2 + i] == SideQuad(i, n);
    EndIs(faces[2 + i], 2);
    WalkedAt(faces, 2 + i, 2, End(faces[1], i), Start(faces[1], i));
  }

  /** The four edges of side quad s are walked back by a cap or a neighbouring quad. */
  lemma SidePaired(n: nat, s: int, j: int)
    requires 0 <= s < n && 0 <= j < 4
    ensures Walked(PrismFaces(n), End(PrismFaces(n)[2 + s], j), Start(PrismFaces(n)[2 + s], j))
  {
    var faces := PrismFaces(n);
    var f := faces[2 + s];
    assert f == SideQuad(s, n);
    EndIs(f, j);
    var t := Next(s, n);
    if j == 0 {
      EndIs(faces[0], n - 1 - t);
      WalkedAt(faces, 0, n - 1 - t, t, s);
    } else if j == 1 {
      assert faces[2 + t] == SideQuad(t, n);
      EndIs(faces[2 + t], 3);
      WalkedAt(faces, 2 + t, 3, n + t, t);
    } else if j == 2 {
      EndIs(faces[1], s);
      WalkedAt(faces, 1, s, n + s, n + t);
    } else {
      var p := Prev(s, n);
      assert faces[2 + p] == SideQuad(p, n);
      EndIs(faces[2 + p], 1);
      WalkedAt(faces, 2 + p, 1, s, n + s);
    }
  }

  /** The prism's faces close up with a consistent orientation. */
  lemma PrismPaired(n: nat)
    ensures Paired(PrismFaces(n))
  {
    var faces := PrismFaces(n);
    forall k, i | 0 <= k < |faces| && 0 <= i < |faces[k]|
      ensures Walked(faces, End(faces[k], i), Start(faces[k], i))
    {
      if k == 0 {
        BottomPaired(n, i);
      } else if k == 1 {
        TopPaired(n, i);
      } else {
        assert faces[k] == SideQuad(k - 2, n);
        SidePaired(n, k - 2, i);
      }
    }
  }

  /**
   * compute_shape of the extruded elements: the vertices are the bottom
   * points then the top points, and the faces are built by the loop over
   * pairwise(bottom + bottom[:1]) and pairwise(top + top[:1]).
   */
  method ComputePrismMesh(bottom: seq<Point>, top: seq<Point>) returns (mesh: Mesh)
    ensures mesh == PrismMesh(bottom, top)
  {
    var offset := |bottom|;
    var vertices := bottom + top;
    var lower := Range(0, offset);
    var upper := seq(offset, i requires 0 <= i < offset => lower[i] + offset);
    var faces: seq<Face> := [Reverse(lower), upper];
    var i := 0;
    while i < offset
      invariant 0 <= i <= offset
      invariant faces == [Reverse(lower), upper] + Sides(offset)[..i]
    {
      var a, b := lower[i], if i + 1 < offset then lower[i + 1] else lower[0];
      var c, d := upper[i], if i + 1 < offset then upper[i + 1] else upper[0];
      assert [a, b, d, c] == SideQuad(i, offset);
      assert Sides(offset)[..i + 1] == Sides(offset)[..i] + [SideQuad(i, offset)];
      faces := faces + [[a, b, d, c]];
      i := i + 1;
    }
    assert Sides(offset)[..offset] == Sides(offset);
    assert upper == Range(offset, 2 * offset);
    mesh := Mesh(vertices, faces);
  }

  /**
   * A prism over two polygons of the same length is a well-formed closed
   * mesh: n + 2 faces, every index a vertex, every edge walked both ways.
   */
  lemma PrismMeshValid(bottom: seq<Point>, top: seq<Point>)
    requires |top| == |bottom|
    ensures |PrismMesh(bottom, top).vertices| == 2 * |bottom|
    ensures |PrismMesh(bottom, top).faces| == |bottom| + 2
    ensures IndicesBelow(PrismMesh(bottom, top).faces, |PrismMesh(bottom, top).vertices|)
    ensures Paired(PrismMesh(bottom, top).faces)
  {
    PrismFacesShape(|bottom|);
    PrismFacesBounded(|bottom|);
    PrismPaired(|bottom|);
  }
}
