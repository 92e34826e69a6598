/**
 * Face lists of compas meshes as index lists, and what it means for such a
 * list to describe a closed surface: every edge of every face is shared by
 * exactly two faces.
 */
module MeshTopology {

  /** A face is the cyclic list of its vertex indices. */
  type Face = seq<int>

  /** Position i of face f is the edge joining a and b, in either direction. */
  predicate Joins(f: Face, i: int, a: int, b: int)
    requires 0 <= i < |f|
  {
    (f[i] == a && f[(i + 1) % |f|] == b) || (f[i] == b && f[(i + 1) % |f|] == a)
  }

  predicate HasEdge(f: Face, a: int, b: int)
  {
    exists i :: 0 <= i < |f| && Joins(f, i, a, b)
  }

  /** How many faces of the list have {a, b} as an edge. */
  function EdgeUses(faces: seq<Face>, a: int, b: int): nat
  {
    if faces == [] then 0
    else EdgeUses(faces[..|faces| - 1], a, b) + (if HasEdge(faces[|faces| - 1], a, b) then 1 else 0)
  }

  /** The vertex where edge i of face f starts, and the one where it ends. */
  function Start(f: Face, i: int): int
    requires 0 <= i < |f|
  {
    f[i]
  }

  function End(f: Face, i: int): int
    requires 0 <= i < |f|
  {
    f[(i + 1) % |f|]
  }

  /** Every edge of face f lies in exactly two faces of the list. */
  predicate EdgesShared(faces: seq<Face>, f: Face)
  {
    forall i :: 0 <= i < |f| ==> EdgeUses(faces, Start(f, i), End(f, i)) == 2
  }

  /** Every edge of every face lies in exactly two faces. */
  predicate Closed(faces: seq<Face>)
  {
    forall f :: f in faces ==> EdgesShared(faces, f)
  }

  /** Every index of every face is a vertex of a mesh with n vertices. */
  predicate IndicesBelow(faces: seq<Face>, n: int)
  {
    forall k, i :: 0 <= k < |faces| && 0 <= i < |faces[k]| ==> 0 <= faces[k][i] < n
  }

  /** Two face lists within n vertices, each within a bound no larger than n, append to one within n. */
  lemma IndicesBelowAppend(faces: seq<Face>, more: seq<Face>, bound: int, moreBound: int, n: int)
    requires IndicesBelow(faces, bound) && IndicesBelow(more, moreBound)
    requires bound <= n && moreBound <= n
    ensures IndicesBelow(faces + more, n)
  {
    var all := faces + more;
    forall k, i | 0 <= k < |all| && 0 <= i < |all[k]|
      ensures 0 <= all[k][i] < n
    {
      if k < |faces| {
        assert all[k] == faces[k];
      } else {
        assert all[k] == more[k - |faces|];
      }
    }
  }

  /** The consecutive indices lo, lo + 1, ..., hi - 1. */
  function Range(lo: int, hi: int): (r: seq<int>)
    requires lo <= hi
    ensures |r| == hi - lo
    ensures forall i :: 0 <= i < |r| ==> r[i] == lo + i
  {
    seq(hi - lo, i requires 0 <= i < hi - lo => lo + i)
  }

  /** A list read backwards, as Python's s[::-1]. */
  function Reverse<T>(s: seq<T>): (r: seq<T>)
    ensures |r| == |s|
    ensures forall i :: 0 <= i < |s| ==> r[i] == s[|s| - 1 - i]
  {
    seq(|s|, i requires 0 <= i < |s| => s[|s| - 1 - i])
  }

  /** Reading a list backwards twice gives it back; a concatenation reads back as its parts swapped. */
  lemma ReverseInvolution<T>(s: seq<T>, t: seq<T>)
    ensures Reverse(Reverse(s)) == s
    ensures Reverse(s + t) == Reverse(t) + Reverse(s)
  {
  }

  /** A range splits at any point between its ends, holds no index twice, and holds exactly the integers from lo below hi. */
  lemma RangeSplit(lo: int, mid: int, hi: int)
    requires lo <= mid <= hi
    ensures Range(lo, hi) == Range(lo, mid) + Range(mid, hi)
    ensures forall i, j :: 0 <= i < j < hi - lo ==> Range(lo, hi)[i] != Range(lo, hi)[j]
    ensures forall x :: x in Range(lo, hi) <==> lo <= x < hi
  {
    forall x | lo <= x < hi
      ensures x in Range(lo, hi)
    {
      assert Range(lo, hi)[x - lo] == x;
    }
  }

  lemma {:induction false} EdgeUsesAppend(faces: seq<Face>, more: seq<Face>, a: int, b: int)
    ensures EdgeUses(faces + more, a, b) == EdgeUses(faces, a, b) + EdgeUses(more, a, b)
  {
    if more != [] {
      var init := more[..|more| - 1];
      assert (faces + more)[..|faces + more| - 1] == faces + init;
      EdgeUsesAppend(faces, init, a, b);
    } else {
      assert faces + more == faces;
    }
  }

  lemma EdgeUsesSymmetric(faces: seq<Face>, a: int, b: int)
    ensures EdgeUses(faces, a, b) == EdgeUses(faces, b, a)
  {
    if faces != [] {
      var f := faces[|faces| - 1];
      EdgeUsesSymmetric(faces[..|faces| - 1], a, b);
      if HasEdge(f, a, b) {
        var i :| 0 <= i < |f| && Joins(f, i, a, b);
        assert Joins(f, i, b, a);
      }
      if HasEdge(f, b, a) {
        var i :| 0 <= i < |f| && Joins(f, i, b, a);
        assert Joins(f, i, a, b);
      }
    }
  }
}
