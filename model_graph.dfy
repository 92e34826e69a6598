/**
 * The compas_model Model the grid code fills: a list of elements, each
 * optionally placed under a named group, and an interaction graph. Elements
 * are numbered by insertion (their graph node), and the graph is recorded as
 * the sequence of add_interaction calls, each a directed (source, target,
 * kind) record. The directed edges, their interaction lists and the
 * neighbours of a node are read off that sequence.
 */
module ModelGraph {
  import opened Base

  /** Which polygon of a column head a CutterInterface of the crea script names. */
  datatype PolygonRef =
    | FaceLowest
    | FaceHighest
    /** face_nearest(the obb frame point of this element) */
    | FaceNearest(element: nat)

  /** The interaction objects the code attaches to graph edges. */
  datatype Kind =
    /** compas_grid.interface_cutter.CutterInterface: a plain Interaction subclass. */
    | CutterInterface(polygon: PolygonRef, name: string)
    /** InteractionInterfaceCutter: slices the target with the cutter's plane. */
    | InterfaceCutter
    /** InteractionInterfaceBooleanDifference: subtracts the cutter's mesh. */
    | BooleanDifference
    /** compas_model Interaction(): carries no computation. */
    | Plain

  /** isinstance(interaction, InteractionInterface) */
  predicate IsInterface(k: Kind)
  {
    k.InterfaceCutter? || k.BooleanDifference?
  }

  datatype Interaction = Interaction(source: nat, target: nat, kind: Kind)

  /** The element graph has a directed edge u -> w. */
  predicate HasEdge(rs: seq<Interaction>, u: nat, w: nat)
  {
    exists i :: 0 <= i < |rs| && rs[i].source == u && rs[i].target == w
  }

  /** graph.edge_interactions((u, w)): the interactions added on u -> w, in order. */
  function EdgeKinds(rs: seq<Interaction>, u: nat, w: nat): (ks: seq<Kind>)
    ensures |ks| <= |rs|
    ensures ks == [] <==> !HasEdge(rs, u, w)
  {
    if rs == [] then []
    else
      var r := rs[|rs| - 1];
      var init := EdgeKinds(rs[..|rs| - 1], u, w);
      assert HasEdge(rs[..|rs| - 1], u, w) ==> HasEdge(rs, u, w) by {
        if HasEdge(rs[..|rs| - 1], u, w) {
          var i :| 0 <= i < |rs| - 1 && rs[..|rs| - 1][i].source == u && rs[..|rs| - 1][i].target == w;
          assert rs[i] == rs[..|rs| - 1][i];
        }
      }
      assert HasEdge(rs, u, w) && !(r.source == u && r.target == w) ==> HasEdge(rs[..|rs| - 1], u, w) by {
        if HasEdge(rs, u, w) && !(r.source == u && r.target == w) {
          var i :| 0 <= i < |rs| && rs[i].source == u && rs[i].target == w;
          assert i < |rs| - 1 && rs[..|rs| - 1][i] == rs[i];
        }
      }
      if r.source == u && r.target == w then init + [r.kind] else init
  }

  /** The interactions filed under u -> w are exactly the kinds of the records u -> w. */
  lemma {:induction false} EdgeKindsListed(rs: seq<Interaction>, u: nat, w: nat)
    ensures forall k :: k in EdgeKinds(rs, u, w) <==> Interaction(u, w, k) in rs
  {
    if rs != [] {
      var init := rs[..|rs| - 1];
      EdgeKindsListed(init, u, w);
      assert rs == init + [rs[|rs| - 1]];
      forall k ensures Interaction(u, w, k) in rs <==> Interaction(u, w, k) in init || rs[|rs| - 1] == Interaction(u, w, k) {
      }
    }
  }

  /** A neighbour is joined to u by some interaction, so it is an element of a valid model. */
  lemma NeighborsBounded(rs: seq<Interaction>, u: nat, bound: nat)
    requires forall i :: 0 <= i < |rs| ==> rs[i].source < bound && rs[i].target < bound
    ensures forall w :: w in Neighbors(rs, u) ==> w < bound
  {
    NeighborsAreAdjacent(rs, u);
  }

  /** u and w are joined by an edge in either direction. */
  predicate Adjacent(rs: seq<Interaction>, u: nat, w: nat)
  {
    HasEdge(rs, u, w) || HasEdge(rs, w, u)
  }

  /**
   * graph.neighbors(u): every node joined to u, once, in the order the
   * first interaction joining them was added.
   */
  function Neighbors(rs: seq<Interaction>, u: nat): (ns: seq<nat>)
  {
    if rs == [] then []
    else
      var r := rs[|rs| - 1];
      var init := Neighbors(rs[..|rs| - 1], u);
      if r.source == u && r.target !in init then init + [r.target]
      else if r.target == u && r.source !in init then init + [r.source]
      else init
  }

  predicate Distinct<T(==)>(s: seq<T>)
  {
    forall i, j :: 0 <= i < j < |s| ==> s[i] != s[j]
  }

  /** The neighbour list holds each node joined to u exactly once. */
  lemma {:induction false} NeighborsAreAdjacent(rs: seq<Interaction>, u: nat)
    ensures Distinct(Neighbors(rs, u))
    ensures forall w :: w in Neighbors(rs, u) <==> Adjacent(rs, u, w)
  {
    if rs != [] {
      var init := rs[..|rs| - 1];
      var r := rs[|rs| - 1];
      NeighborsAreAdjacent(init, u);
      forall w
        ensures w in Neighbors(rs, u) <==> Adjacent(rs, u, w)
      {
        assert Adjacent(rs, u, w) <==> Adjacent(init, u, w) || (r.source == u && r.target == w) || (r.source == w && r.target == u) by {
          if HasEdge(rs, u, w) {
            var i :| 0 <= i < |rs| && rs[i].source == u && rs[i].target == w;
            if i < |rs| - 1 { assert init[i] == rs[i]; }
          }
          if HasEdge(rs, w, u) {
            var i :| 0 <= i < |rs| && rs[i].source == w && rs[i].target == u;
            if i < |rs| - 1 { assert init[i] == rs[i]; }
          }
          if HasEdge(init, u, w) {
            var i :| 0 <= i < |init| && init[i].source == u && init[i].target == w;
            assert rs[i] == init[i];
          }
          if HasEdge(init, w, u) {
            var i :| 0 <= i < |init| && init[i].source == w && init[i].target == u;
            assert rs[i] == init[i];
          }
          assert rs[|rs| - 1] == r;
        }
      }
    }
  }

  /**
   * compas_model's Model as the grid code uses it: elements numbered in
   * insertion order, the group each was added under (None for the root),
   * the groups created, and the interactions added.
   */
  class Model<E> {
    var elements: seq<E>
    var parents: seq<Option<string>>
    var groups: seq<string>
    var interactions: seq<Interaction>

    /** Every interaction joins two elements of the model. */
    ghost predicate Valid()
      reads this
    {
      |parents| == |elements|
      && forall i :: 0 <= i < |interactions| ==>
           interactions[i].source < |elements| && interactions[i].target < |elements|
    }

    constructor ()
      ensures Valid()
      ensures elements == [] && parents == [] && groups == [] && interactions == []
    {
      elements, parents, groups, interactions := [], [], [], [];
    }

    /** add_group(name): the group is known by its name. */
    method AddGroup(name: string) returns (group: string)
      requires Valid()
      modifies this
      ensures Valid()
      ensures group == name && groups == old(groups) + [name]
      ensures elements == old(elements) && parents == old(parents) && interactions == old(interactions)
    {
      groups := groups + [name];
      group := name;
    }

    /** add_element(element, parent): the element becomes the next graph node. */
    method AddElement(e: E, parent: Option<string>) returns (id: nat)
      requires Valid()
      modifies this
      ensures Valid()
      ensures id == |old(elements)| && elements == old(elements) + [e] && parents == old(parents) + [parent]
      ensures groups == old(groups) && interactions == old(interactions)
    {
      id := |elements|;
      elements := elements + [e];
      parents := parents + [parent];
    }

    /** add_interaction(a, b, interaction): adds edge a -> b and files the interaction under it. */
    method AddInteraction(a: nat, b: nat, kind: Kind)
      requires Valid() && a < |elements| && b < |elements|
      modifies this
      ensures Valid()
      ensures interactions == old(interactions) + [Interaction(a, b, kind)]
      ensures elements == old(elements) && parents == old(parents) && groups == old(groups)
    {
      interactions := interactions + [Interaction(a, b, kind)];
    }
  }
}
