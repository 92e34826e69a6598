/**
 * Grid levels of the CREA example: the distinct rounded values of one
 * coordinate, sorted, number the vertices 0, 1, ...; an edge takes the
 * lower level of its ends and a face the lowest level of its vertices.
 */
module CreaLevels {
  import opened Base
  import opened CellNetworkModel

  datatype Axis = X | Y | Z

  function Coordinate(p: Point, axis: Axis): real
  {
    match axis
      case X => p.x
      case Y => p.y
      case Z => p.z
  }

  /** The rounded coordinate of every node; round3 stands for Python's round(_, 3). */
  function NodeValues(xyz: seq<Point>, axis: Axis, round3: real -> real): (values: seq<real>)
    ensures |values| == |xyz|
    ensures forall n :: 0 <= n < |xyz| ==> values[n] == round3(Coordinate(xyz[n], axis))
  {
    seq(|xyz|, n requires 0 <= n < |xyz| => round3(Coordinate(xyz[n], axis)))
  }

  predicate StrictlyIncreasing(s: seq<real>)
  {
    forall i, j :: 0 <= i < j < |s| ==> s[i] < s[j]
  }

  /** The distinct values among the nodes'. */
  function ValueSet(values: seq<real>): (r: set<real>)
    ensures forall x :: x in r <==> x in values
  {
    set x | x in values
  }

  /** Where x sits in a strictly increasing list holding it. */
  function IndexOf(s: seq<real>, x: real): (i: nat)
    requires x in s
    ensures i < |s| && s[i] == x
  {
    if s[0] == x then 0 else 1 + IndexOf(s[1..], x)
  }

  lemma IndexOfIsUnique(s: seq<real>, i: int)
    requires StrictlyIncreasing(s) && 0 <= i < |s|
    ensures IndexOf(s, s[i]) == i
  {
  }

  /** x put into its place in a strictly increasing list, once. */
  function Insert(s: seq<real>, x: real): (r: seq<real>)
    requires StrictlyIncreasing(s)
    ensures StrictlyIncreasing(r)
    ensures forall y :: y in r <==> y in s || y == x
  {
    if s == [] then [x]
    else if x < s[0] then [x] + s
    else if x == s[0] then s
    else
      var rest := Insert(s[1..], x);
      assert forall y :: y in s <==> y == s[0] || y in s[1..];
      assert forall i :: 0 <= i < |rest| ==> s[0] < rest[i] by {
        forall i | 0 <= i < |rest|
          ensures s[0] < rest[i]
        {
          assert rest[i] in rest;
          if rest[i] != x {
            var k :| 0 <= k < |s[1..]| && s[1..][k] == rest[i];
            assert s[0] < s[k + 1];
          }
        }
      }
      [s[0]] + rest
  }

  /** sorted(coord_dict.items()) by key: the keys in increasing order. */
  method SortKeys(keys: seq<real>) returns (sorted: seq<real>)
    ensures StrictlyIncreasing(sorted)
    ensures forall x :: x in sorted <==> x in keys
  {
    sorted := [];
    for i := 0 to |keys|
      invariant StrictlyIncreasing(sorted)
      invariant forall x :: x in sorted <==> x in keys[..i]
    {
      sorted := Insert(sorted, keys[i]);
      assert keys[..i + 1] == keys[..i] + [keys[i]];
    }
    assert keys[..|keys|] == keys;
  }

  /** The nodes below k whose value is x, in node order. */
  function NodesWith(values: seq<real>, x: real, k: nat): seq<int>
    requires k <= |values|
  {
    if k == 0 then [] else NodesWith(values, x, k - 1) + (if values[k - 1] == x then [k - 1] else [])
  }

  /** A node is listed under x exactly when it lies below k and has value x. */
  lemma {:induction false} NodesWithMembers(values: seq<real>, x: real, k: nat)
    requires k <= |values|
    ensures forall n :: n in NodesWith(values, x, k) <==> 0 <= n < k && values[n] == x
  {
    if k > 0 {
      NodesWithMembers(values, x, k - 1);
    }
  }

  lemma {:induction false} NodesWithAbsent(values: seq<real>, x: real, k: nat)
    requires k <= |values| && forall n :: 0 <= n < k ==> values[n] != x
    ensures NodesWith(values, x, k) == []
  {
    if k > 0 {
      NodesWithAbsent(values, x, k - 1);
    }
  }

  /**
   * The dictionary loop: coord_dict maps each rounded value to the nodes
   * that have it, in node order; keys lists its keys in insertion order.
   */
  method GroupByValue(values: seq<real>) returns (keys: seq<real>, groups: map<real, seq<int>>)
    ensures forall x :: x in keys <==> x in values
    ensures forall x :: x in groups <==> x in values
    ensures forall x :: x in groups ==> groups[x] == NodesWith(values, x, |values|)
  {
    keys, groups := [], map[];
    var node := 0;
    while node < |values|
      invariant node <= |values|
      invariant forall x :: x in keys <==> x in groups
      invariant forall x :: x in groups <==> x in values[..node]
      invariant forall x :: x in groups ==> groups[x] == NodesWith(values, x, node)
    {
      var value := values[node];
      var group := [];
      if value in groups {
        group := groups[value];
      } else {
        keys := keys + [value];
        forall n | 0 <= n < node
          ensures values[n] != value
        {
          assert values[n] == values[..node][n];
        }
        NodesWithAbsent(values, value, node);
      }
      groups := groups[value := group + [node]];
      assert values[..node + 1] == values[..node] + [value];
      node := node + 1;
    }
    assert values[..|values|] == values;
  }

  /** The level of a node: the position of its rounded value among the sorted distinct values. */
  function LevelOf(sorted: seq<real>, values: seq<real>, n: int): (level: nat)
    requires 0 <= n < |values| && values[n] in sorted
    ensures level < |sorted|
  {
    IndexOf(sorted, values[n])
  }

  /**
   * Levels number the distinct values in ascending order: a smaller value
   * has a smaller level, equal values share one, and every level below
   * the count is held by some node.
   */
  lemma LevelsOrderValues(sorted: seq<real>, values: seq<real>, u: int, w: int)
    requires StrictlyIncreasing(sorted) && forall x :: x in sorted <==> x in values
    requires 0 <= u < |values| && 0 <= w < |values|
    ensures values[u] in sorted && values[w] in sorted
    ensures values[u] < values[w] <==> LevelOf(sorted, values, u) < LevelOf(sorted, values, w)
    ensures values[u] == values[w] <==> LevelOf(sorted, values, u) == LevelOf(sorted, values, w)
  {
    var a, b := values[u], values[w];
    assert a in values && b in values;
    var i, j := LevelOf(sorted, values, u), LevelOf(sorted, values, w);
    if i < j {
      assert sorted[i] < sorted[j];
    } else if j < i {
      assert sorted[j] < sorted[i];
    }
  }

  lemma EveryLevelIsHeld(sorted: seq<real>, values: seq<real>, level: int)
    requires StrictlyIncreasing(sorted) && forall x :: x in sorted <==> x in values
    requires 0 <= level < |sorted|
    ensures exists n :: 0 <= n < |values| && values[n] in sorted && LevelOf(sorted, values, n) == level
  {
    assert sorted[level] in sorted;
    var n :| 0 <= n < |values| && values[n] == sorted[level];
    IndexOfIsUnique(sorted, level);
  }

  /** max_<attr>: the number of sorted keys is the number of distinct values. */
  lemma {:induction false} CountIsDistinctValues(sorted: seq<real>, values: seq<real>)
    requires StrictlyIncreasing(sorted) && forall x :: x in sorted <==> x in values
    ensures |sorted| == |ValueSet(values)|
  {
    forall x
      ensures x in ValueSet(values) <==> x in ValueSet(sorted)
    {
    }
    assert ValueSet(values) == ValueSet(sorted);
    DistinctCount(sorted);
  }

  lemma {:induction false} DistinctCount(s: seq<real>)
    requires StrictlyIncreasing(s)
    ensures |ValueSet(s)| == |s|
  {
    if s != [] {
      var init := s[..|s| - 1];
      var last := s[|s| - 1];
      DistinctCount(init);
      assert ValueSet(s) == ValueSet(init) + {last};
      assert last !in ValueSet(init);
    }
  }

  /** The levels of all nodes, as the vertex loop leaves them. */
  function Levels(sorted: seq<real>, values: seq<real>): (levels: seq<int>)
    requires forall n :: 0 <= n < |values| ==> values[n] in sorted
    ensures |levels| == |values|
    ensures forall n :: 0 <= n < |values| ==> levels[n] == LevelOf(sorted, values, n)
  {
    seq(|values|, n requires 0 <= n < |values| => LevelOf(sorted, values, n))
  }

  /** The edge loop's dictionary after the first edges: each edge's entry gets the lower level of its ends. */
  function EdgeLevels(m: map<NodePair, Attributes>, edges: seq<NodePair>, name: string, levels: seq<int>): map<NodePair, Attributes>
    requires forall i :: 0 <= i < |edges| ==> 0 <= edges[i].0 < |levels| && 0 <= edges[i].1 < |levels|
  {
    if edges == [] then m
    else
      var e := edges[|edges| - 1];
      var m' := EdgeLevels(m, edges[..|edges| - 1], name, levels);
      m'[e := Set(m', e, name, Level(Min(levels[e.0], levels[e.1])))]
  }

  /**
   * Every edge ends up with the lower level of its two ends under the
   * attribute; its other attributes and the other entries stay.
   */
  lemma EdgeLevelsAreMinima(m: map<NodePair, Attributes>, edges: seq<NodePair>, name: string, levels: seq<int>)
    requires forall i :: 0 <= i < |edges| ==> 0 <= edges[i].0 < |levels| && 0 <= edges[i].1 < |levels|
    ensures forall e :: e in EdgeLevels(m, edges, name, levels) <==> e in m || e in edges
    ensures forall i :: 0 <= i < |edges| ==>
      var e := edges[i];
      e in EdgeLevels(m, edges, name, levels) && name in EdgeLevels(m, edges, name, levels)[e]
      && EdgeLevels(m, edges, name, levels)[e][name] == Level(Min(levels[e.0], levels[e.1]))
      && Min(levels[e.0], levels[e.1]) <= levels[e.0] && Min(levels[e.0], levels[e.1]) <= levels[e.1]
    ensures forall e, other :: e in EdgeLevels(m, edges, name, levels) && other != name ==>
      (other in EdgeLevels(m, edges, name, levels)[e] <==> e in m && other in m[e])
      && (other in EdgeLevels(m, edges, name, levels)[e] ==> EdgeLevels(m, edges, name, levels)[e][other] == m[e][other])
  {
    EdgeLevelKeys(m, edges, name, levels);
    EdgeLevelValues(m, edges, name, levels);
    EdgeLevelOthers(m, edges, name, levels);
  }

  lemma {:induction false} EdgeLevelKeys(m: map<NodePair, Attributes>, edges: seq<NodePair>, name: string, levels: seq<int>)
    requires forall i :: 0 <= i < |edges| ==> 0 <= edges[i].0 < |levels| && 0 <= edges[i].1 < |levels|
    ensures forall e :: e in EdgeLevels(m, edges, name, levels) <==> e in m || e in edges
  {
    if edges != [] {
      var init := edges[..|edges| - 1];
      EdgeLevelKeys(m, init, name, levels);
      assert edges == init + [edges[|edges| - 1]];
    }
  }

  lemma {:induction false} EdgeLevelValues(m: map<NodePair, Attributes>, edges: seq<NodePair>, name: string, levels: seq<int>)
    requires forall i :: 0 <= i < |edges| ==> 0 <= edges[i].0 < |levels| && 0 <= edges[i].1 < |levels|
    ensures forall i :: 0 <= i < |edges| ==>
      var e := edges[i];
      e in EdgeLevels(m, edges, name, levels) && name in EdgeLevels(m, edges, name, levels)[e]
      && EdgeLevels(m, edges, name, levels)[e][name] == Level(Min(levels[e.0], levels[e.1]))
      && Min(levels[e.0], levels[e.1]) <= levels[e.0] && Min(levels[e.0], levels[e.1]) <= levels[e.1]
  {
    if edges != [] {
      var init := edges[..|edges| - 1];
      EdgeLevelValues(m, init, name, levels);
      forall i | 0 <= i < |edges| - 1
        ensures edges[i] == init[i]
      {
      }
    }
  }

  lemma {:induction false} EdgeLevelOthers(m: map<NodePair, Attributes>, edges: seq<NodePair>, name: string, levels: seq<int>)
    requires forall i :: 0 <= i < |edges| ==> 0 <= edges[i].0 < |levels| && 0 <= edges[i].1 < |levels|
    ensures forall e, other :: e in EdgeLevels(m, edges, name, levels) && other != name ==>
      (other in EdgeLevels(m, edges, name, levels)[e] <==> e in m && other in m[e])
      && (other in EdgeLevels(m, edges, name, levels)[e] ==> EdgeLevels(m, edges, name, levels)[e][other] == m[e][other])
  {
    if edges != [] {
      var init := edges[..|edges| - 1];
      EdgeLevelOthers(m, init, name, levels);
      EdgeLevelKeys(m, init, name, levels);
    }
  }

  /** Python's min over a non-empty list of levels. */
  function MinOf(s: seq<int>): (m: int)
    requires s != []
    ensures m in s && forall x :: x in s ==> m <= x
  {
    if |s| == 1 then s[0]
    else
      var rest := MinOf(s[..|s| - 1]);
      assert forall x :: x in s ==> x in s[..|s| - 1] || x == s[|s| - 1];
      if s[|s| - 1] < rest then s[|s| - 1] else rest
  }

  /** The levels of a face's vertices, as the comprehension reads them. */
  function FaceLevels(face: seq<int>, levels: seq<int>): (r: seq<int>)
    requires forall i :: 0 <= i < |face| ==> 0 <= face[i] < |levels|
    ensures |r| == |face| && forall i :: 0 <= i < |face| ==> r[i] == levels[face[i]]
  {
    seq(|face|, i requires 0 <= i < |face| => levels[face[i]])
  }

  /**
   * The faces the loop reads are those the script registered: non-empty,
   * over graph nodes (min of an empty list would raise).
   */
  predicate FacesOverNodes(faces: seq<seq<int>>, n: int)
  {
    forall k :: 0 <= k < |faces| ==> faces[k] != [] && forall i :: 0 <= i < |faces[k]| ==> 0 <= faces[k][i] < n
  }

  /** The edges of the network join graph nodes. */
  predicate EdgesOverNodes(edges: seq<NodePair>, n: int)
  {
    forall i :: 0 <= i < |edges| ==> 0 <= edges[i].0 < n && 0 <= edges[i].1 < n
  }

  /** Node u's dictionary is the original one with the attribute set to the level. */
  predicate Labelled(m: map<int, Attributes>, original: map<int, Attributes>, u: int, name: string, level: int)
  {
    u in m && m[u] == Set(original, u, name, Level(level))
  }

  /** Node u's dictionary is as it was. */
  predicate Kept(m: map<int, Attributes>, original: map<int, Attributes>, u: int)
  {
    (u in m <==> u in original) && (u in m ==> m[u] == original[u])
  }

  /** Every node holds its level under the name; every other key is as it was. */
  ghost predicate VerticesLevelled(m: map<int, Attributes>, original: map<int, Attributes>, values: seq<real>, sorted: seq<real>, name: string)
  {
    && (forall u :: 0 <= u < |values| ==> values[u] in sorted && Labelled(m, original, u, name, LevelOf(sorted, values, u)))
    && (forall u :: !(0 <= u < |values|) ==> Kept(m, original, u))
  }

  /**
   * partition_and_assign_attributes(graph, cell_network, axis, name): the
   * nodes take the level of their rounded coordinate, edges and faces the
   * lowest level they touch, and max_<name> is the number of levels.
   */
  method PartitionAndAssign(network: CellNetwork, xyz: seq<Point>, axis: Axis, name: string, round3: real -> real)
    returns (ghost sorted: seq<real>)
    requires network.Valid() && |network.vertices| == |xyz|
    requires EdgesOverNodes(network.edges, |xyz|) && FacesOverNodes(network.faces, |xyz|)
    modifies network
    ensures network.Valid()
    ensures network.vertices == old(network.vertices) && network.edges == old(network.edges)
    ensures network.faces == old(network.faces)
    ensures StrictlyIncreasing(sorted) && forall x :: x in sorted <==> x in NodeValues(xyz, axis, round3)
    ensures var values := NodeValues(xyz, axis, round3);
      && VerticesLevelled(network.vertexAttributes, old(network.vertexAttributes), values, sorted, name)
      && network.edgeAttributes == EdgeLevels(old(network.edgeAttributes), network.edges, name, Levels(sorted, values))
      && |network.faceAttributes| == |network.faces|
      && (forall k :: 0 <= k < |network.faces| ==>
            network.faceAttributes[k]
            == old(network.faceAttributes)[k][name := Level(MinOf(FaceLevels(network.faces[k], Levels(sorted, values))))])
    ensures network.attributes == old(network.attributes)["max_" + name := |sorted|]
  {
    var values := NodeValuesLoop(xyz, axis, round3);
    var keys, groups := GroupByValue(values);
    var sortedKeys := SortKeys(keys);
    sorted := sortedKeys;
    forall n | 0 <= n < |values|
      ensures values[n] in sorted
    {
      var v := values[n];
      assert v in values;
    }
    AssignVertexLevels(network, values, sortedKeys, groups, name);
    ghost var levels := Levels(sorted, values);
    forall u | 0 <= u < |levels|
      ensures u in network.vertexAttributes && name in network.vertexAttributes[u]
      ensures network.vertexAttributes[u][name] == Level(levels[u])
    {
      assert Labelled(network.vertexAttributes, old(network.vertexAttributes), u, name, levels[u]);
    }
    AssignEdgeLevels(network, levels, name);
    AssignFaceLevels(network, levels, name);
    network.SetAttribute("max_" + name, |sortedKeys|);
  }

  /** The rounded coordinates, node by node. */
  method NodeValuesLoop(xyz: seq<Point>, axis: Axis, round3: real -> real) returns (values: seq<real>)
    ensures values == NodeValues(xyz, axis, round3)
  {
    values := [];
    for node := 0 to |xyz|
      invariant |values| == node && forall n :: 0 <= n < node ==> values[n] == round3(Coordinate(xyz[n], axis))
    {
      values := values + [round3(Coordinate(xyz[node], axis))];
    }
  }

  /** The enumerate loop over the sorted dictionary. */
  method AssignVertexLevels(network: CellNetwork, values: seq<real>, sorted: seq<real>, groups: map<real, seq<int>>, name: string)
    requires network.Valid()
    requires StrictlyIncreasing(sorted) && forall x :: x in sorted <==> x in groups
    requires forall x :: x in groups ==> groups[x] == NodesWith(values, x, |values|)
    requires forall n :: 0 <= n < |values| ==> values[n] in sorted
    modifies network
    ensures network.Valid()
    ensures forall u :: 0 <= u < |values| ==>
      Labelled(network.vertexAttributes, old(network.vertexAttributes), u, name, LevelOf(sorted, values, u))
    ensures forall u :: !(0 <= u < |values|) ==> Kept(network.vertexAttributes, old(network.vertexAttributes), u)
    ensures network.vertices == old(network.vertices) && network.edges == old(network.edges)
    ensures network.faces == old(network.faces) && network.faceAttributes == old(network.faceAttributes)
    ensures network.edgeAttributes == old(network.edgeAttributes) && network.attributes == old(network.attributes)
  {
    ghost var original := network.vertexAttributes;
    ghost var levels := Levels(sorted, values);
    for level := 0 to |sorted|
      invariant network.Valid()
      invariant forall u :: 0 <= u < |levels| && levels[u] < level ==>
        Labelled(network.vertexAttributes, original, u, name, levels[u])
      invariant forall u :: !(0 <= u < |levels| && levels[u] < level) ==> Kept(network.vertexAttributes, original, u)
      invariant network.vertices == old(network.vertices) && network.edges == old(network.edges)
      invariant network.faces == old(network.faces) && network.faceAttributes == old(network.faceAttributes)
      invariant network.edgeAttributes == old(network.edgeAttributes) && network.attributes == old(network.attributes)
    {
      assert sorted[level] in sorted;
      var nodes := groups[sorted[level]];
      NodesWithMembers(values, sorted[level], |values|);
      forall n
        ensures n in nodes <==> 0 <= n < |levels| && levels[n] == level
      {
        if 0 <= n < |values| {
          var v := values[n];
          assert v in sorted;
          IndexOfIsUnique(sorted, level);
          assert levels[n] == IndexOf(sorted, v);
        }
      }
      AssignOneLevel(network, original, levels, nodes, level, name);
    }
  }

  /** The inner loop: every node of one dictionary entry gets that entry's level. */
  method AssignOneLevel(network: CellNetwork, ghost original: map<int, Attributes>, ghost levels: seq<int>,
                        nodes: seq<int>, level: int, name: string)
    requires network.Valid()
    requires forall n :: n in nodes <==> 0 <= n < |levels| && levels[n] == level
    requires forall u :: 0 <= u < |levels| && levels[u] < level ==>
      Labelled(network.vertexAttributes, original, u, name, levels[u])
    requires forall u :: !(0 <= u < |levels| && levels[u] < level) ==> Kept(network.vertexAttributes, original, u)
    modifies network
    ensures network.Valid()
    ensures forall u :: 0 <= u < |levels| && levels[u] <= level ==>
      Labelled(network.vertexAttributes, original, u, name, levels[u])
    ensures forall u :: !(0 <= u < |levels| && levels[u] <= level) ==> Kept(network.vertexAttributes, original, u)
    ensures network.vertices == old(network.vertices) && network.edges == old(network.edges)
    ensures network.faces == old(network.faces) && network.faceAttributes == old(network.faceAttributes)
    ensures network.edgeAttributes == old(network.edgeAttributes) && network.attributes == old(network.attributes)
  {
    for j := 0 to |nodes|
      invariant network.Valid()
      invariant forall u :: 0 <= u < |levels| && levels[u] < level ==>
        Labelled(network.vertexAttributes, original, u, name, levels[u])
      invariant forall u :: u in nodes[..j] ==> Labelled(network.vertexAttributes, original, u, name, level)
      invariant forall u :: !(0 <= u < |levels| && levels[u] < level) && u !in nodes[..j] ==>
        Kept(network.vertexAttributes, original, u)
      invariant network.vertices == old(network.vertices) && network.edges == old(network.edges)
      invariant network.faces == old(network.faces) && network.faceAttributes == old(network.faceAttributes)
      invariant network.edgeAttributes == old(network.edgeAttributes) && network.attributes == old(network.attributes)
    {
      var node := nodes[j];
      assert node in nodes;
      ghost var before := network.vertexAttributes;
      assert Kept(before, original, node) || Labelled(before, original, node, name, level);
      network.SetVertexAttribute(node, name, Level(level));
      LabelNode(before, network.vertexAttributes, original, node, name, level);
      assert nodes[..j + 1] == nodes[..j] + [node];
    }
    assert nodes[..|nodes|] == nodes;
  }

  /** Labelling one node labels it and leaves every other node's dictionary as it was. */
  lemma LabelNode(before: map<int, Attributes>, after: map<int, Attributes>, original: map<int, Attributes>,
                  node: int, name: string, level: int)
    requires Kept(before, original, node) || Labelled(before, original, node, name, level)
    requires after == before[node := Set(before, node, name, Level(level))]
    ensures Labelled(after, original, node, name, level)
    ensures forall u, l :: u != node ==> (Labelled(after, original, u, name, l) <==> Labelled(before, original, u, name, l))
    ensures forall u :: u != node ==> (Kept(after, original, u) <==> Kept(before, original, u))
  {
    SetTwice(original, before, node, name, Level(level));
  }

  /** Setting an entry again over an earlier setting, or over the original, gives the same dictionary. */
  lemma SetTwice(original: map<int, Attributes>, current: map<int, Attributes>, k: int, name: string, value: Attr)
    requires ((k in current <==> k in original) && (k in current ==> current[k] == original[k]))
      || (k in current && current[k] == Set(original, k, name, value))
    ensures Set(current, k, name, value) == Set(original, k, name, value)
  {
  }

  /** The edge loop: each edge takes the lower level of its ends. */
  method AssignEdgeLevels(network: CellNetwork, ghost levels: seq<int>, name: string)
    requires network.Valid() && EdgesOverNodes(network.edges, |levels|)
    requires forall u :: 0 <= u < |levels| ==>
      u in network.vertexAttributes && name in network.vertexAttributes[u] && network.vertexAttributes[u][name] == Level(levels[u])
    modifies network
    ensures network.Valid()
    ensures network.vertices == old(network.vertices) && network.edges == old(network.edges)
    ensures network.edgeAttributes == EdgeLevels(old(network.edgeAttributes), network.edges, name, levels)
    ensures network.faces == old(network.faces) && network.faceAttributes == old(network.faceAttributes)
    ensures network.vertexAttributes == old(network.vertexAttributes) && network.attributes == old(network.attributes)
  {
    var edges := network.edges;
    for i := 0 to |edges|
      invariant network.Valid() && network.edges == edges
      invariant network.edgeAttributes == EdgeLevels(old(network.edgeAttributes), edges[..i], name, levels)
      invariant network.vertices == old(network.vertices) && network.edges == old(network.edges)
      invariant network.faces == old(network.faces) && network.faceAttributes == old(network.faceAttributes)
      invariant network.vertexAttributes == old(network.vertexAttributes) && network.attributes == old(network.attributes)
    {
      var edge := edges[i];
      var u := network.vertexAttributes[edge.0][name].level;
      var v := network.vertexAttributes[edge.1][name].level;
      network.SetEdgeAttribute(edge, name, Level(Min(u, v)));
      assert edges[..i + 1][..i] == edges[..i];
    }
    assert edges[..|edges|] == edges;
  }

  /** The face loop: each face takes the lowest level of its vertices. */
  method AssignFaceLevels(network: CellNetwork, ghost levels: seq<int>, name: string)
    requires network.Valid() && FacesOverNodes(network.faces, |levels|)
    requires forall u :: 0 <= u < |levels| ==>
      u in network.vertexAttributes && name in network.vertexAttributes[u] && network.vertexAttributes[u][name] == Level(levels[u])
    modifies network
    ensures network.Valid()
    ensures network.vertices == old(network.vertices) && network.edges == old(network.edges)
    ensures network.faces == old(network.faces) && network.edgeAttributes == old(network.edgeAttributes)
    ensures forall k :: 0 <= k < |network.faces| ==>
      network.faceAttributes[k] == old(network.faceAttributes)[k][name := Level(MinOf(FaceLevels(network.faces[k], levels)))]
    ensures network.vertexAttributes == old(network.vertexAttributes) && network.attributes == old(network.attributes)
  {
    for k := 0 to |network.faces|
      invariant network.Valid()
      invariant network.faces == old(network.faces) && network.vertexAttributes == old(network.vertexAttributes)
      invariant forall j :: 0 <= j < |network.faces| ==>
        network.faceAttributes[j] == if j < k then old(network.faceAttributes)[j][name := Level(MinOf(FaceLevels(network.faces[j], levels)))]
          else old(network.faceAttributes)[j]
      invariant network.vertices == old(network.vertices) && network.edges == old(network.edges)
      invariant network.faces == old(network.faces) && network.edgeAttributes == old(network.edgeAttributes)
      invariant network.vertexAttributes == old(network.vertexAttributes) && network.attributes == old(network.attributes)
    {
      var faceNodes := network.faces[k];
      var faceValues: seq<int> := [];
      for i := 0 to |faceNodes|
        invariant |faceValues| == i && forall j :: 0 <= j < i ==> faceValues[j] == levels[faceNodes[j]]
      {
        faceValues := faceValues + [network.vertexAttributes[faceNodes[i]][name].level];
      }
      assert faceValues == FaceLevels(faceNodes, levels);
      network.SetFaceAttribute(k, name, Level(MinOf(faceValues)));
    }
  }
  /** The level a vertex holds under one attribute name. */
  predicate HasLevel(m: map<int, Attributes>, u: int, name: string, level: int)
  {
    u in m && name in m[u] && m[u][name] == Level(level)
  }

  /**
   * The script's three calls: u numbers the x positions, v the y
   * positions and w the z positions; each vertex ends up holding all three.
   */
  method AssignGridAttributes(network: CellNetwork, xyz: seq<Point>, round3: real -> real)
    returns (ghost xs: seq<real>, ghost ys: seq<real>, ghost zs: seq<real>)
    requires network.Valid() && |network.vertices| == |xyz|
    requires EdgesOverNodes(network.edges, |xyz|) && FacesOverNodes(network.faces, |xyz|)
    modifies network
    ensures network.Valid()
    ensures network.vertices == old(network.vertices) && network.edges == old(network.edges)
    ensures network.faces == old(network.faces)
    ensures forall x :: x in xs <==> x in NodeValues(xyz, X, round3)
    ensures forall y :: y in ys <==> y in NodeValues(xyz, Y, round3)
    ensures forall z :: z in zs <==> z in NodeValues(xyz, Z, round3)
    ensures forall n :: 0 <= n < |xyz| ==>
      && NodeValues(xyz, X, round3)[n] in xs && NodeValues(xyz, Y, round3)[n] in ys && NodeValues(xyz, Z, round3)[n] in zs
      && HasLevel(network.vertexAttributes, n, "u", LevelOf(xs, NodeValues(xyz, X, round3), n))
      && HasLevel(network.vertexAttributes, n, "v", LevelOf(ys, NodeValues(xyz, Y, round3), n))
      && HasLevel(network.vertexAttributes, n, "w", LevelOf(zs, NodeValues(xyz, Z, round3), n))
    ensures network.attributes == old(network.attributes)["max_" + "u" := |xs|]["max_" + "v" := |ys|]["max_" + "w" := |zs|]
  {
    ghost var start := network.vertexAttributes;
    xs := PartitionAndAssign(network, xyz, X, "u", round3);
    ghost var afterU := network.vertexAttributes;
    ys := PartitionAndAssign(network, xyz, Y, "v", round3);
    ghost var afterV := network.vertexAttributes;
    zs := PartitionAndAssign(network, xyz, Z, "w", round3);
    ghost var px, py, pz := NodeValues(xyz, X, round3), NodeValues(xyz, Y, round3), NodeValues(xyz, Z, round3);
    forall n | 0 <= n < |xyz|
      ensures HasLevel(network.vertexAttributes, n, "u", LevelOf(xs, px, n))
      ensures HasLevel(network.vertexAttributes, n, "v", LevelOf(ys, py, n))
      ensures HasLevel(network.vertexAttributes, n, "w", LevelOf(zs, pz, n))
    {
      LevelledHasLevel(afterU, start, px, xs, "u", n);
      LevelSurvives(afterV, afterU, py, ys, "v", n, "u", LevelOf(xs, px, n));
      LevelSurvives(network.vertexAttributes, afterV, pz, zs, "w", n, "u", LevelOf(xs, px, n));
      LevelledHasLevel(afterV, afterU, py, ys, "v", n);
      LevelSurvives(network.vertexAttributes, afterV, pz, zs, "w", n, "v", LevelOf(ys, py, n));
      LevelledHasLevel(network.vertexAttributes, afterV, pz, zs, "w", n);
    }
  }

  /** A levelled node holds its level. */
  lemma LevelledHasLevel(m: map<int, Attributes>, original: map<int, Attributes>, values: seq<real>, sorted: seq<real>,
                         name: string, u: int)
    requires VerticesLevelled(m, original, values, sorted, name)
    requires 0 <= u < |values|
    ensures HasLevel(m, u, name, LevelOf(sorted, values, u))
  {
  }

  /** Levelling under one name keeps the level a node held under another. */
  lemma LevelSurvives(m: map<int, Attributes>, original: map<int, Attributes>, values: seq<real>, sorted: seq<real>,
                      name: string, u: int, other: string, level: int)
    requires VerticesLevelled(m, original, values, sorted, name)
    requires other != name && HasLevel(original, u, other, level)
    ensures HasLevel(m, u, other, level)
  {
    if 0 <= u < |values| {
      assert Labelled(m, original, u, name, LevelOf(sorted, values, u));
    } else {
      assert Kept(m, original, u);
    }
  }
}
