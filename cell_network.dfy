/**
 * CellNetwork.from_lines_and_surfaces: the topology of a building grid built
 * from column and beam lines and floor meshes. Graph.from_lines and the
 * geometric key of a point are library code; the model receives them as
 * functions and assumes only what their results look like.
 */
module CellNetworkModel {
  import opened Base

  /** A floor mesh as the builder uses it: mesh.to_lines(), and its vertex points in vertex order. */
  datatype FloorMesh = FloorMesh(lines: seq<Line>, points: seq<Point>)

  type NodePair = (int, int)

  /**
   * What Graph.from_lines returns: node n sits at xyz[n], the edges in graph
   * order, and the neighbours of each node.
   */
  datatype Graph = Graph(xyz: seq<Point>, edges: seq<NodePair>, adjacency: seq<seq<int>>)

  predicate IsNode(g: Graph, u: int)
  {
    0 <= u < |g.xyz|
  }

  /** u and w are joined by an edge, stored in either orientation. */
  predicate Joined(g: Graph, u: int, w: int)
  {
    (u, w) in g.edges || (w, u) in g.edges
  }

  /**
   * The shape of a graph Graph.from_lines builds: nodes numbered from 0,
   * edges between nodes with no identical pair listed twice, and each node's
   * neighbours exactly the nodes an edge joins it to.
   */
  ghost predicate GraphOK(g: Graph)
  {
    |g.adjacency| == |g.xyz|
    && (forall i :: 0 <= i < |g.edges| ==> IsNode(g, g.edges[i].0) && IsNode(g, g.edges[i].1))
    && (forall i, j :: 0 <= i < j < |g.edges| ==> g.edges[i] != g.edges[j])
    && (forall u, w :: IsNode(g, u) ==> (w in g.adjacency[u] <==> Joined(g, u, w)))
  }

  /** The values a cell-network attribute takes here. */
  datatype Attr = Flag(flag: bool) | Level(level: int) | Nodes(nodes: seq<int>)

  type Attributes = map<string, Attr>

  /**
   * The part of a compas CellNetwork the grid code touches: vertices with
   * their points, edges, faces, and the attribute dictionaries of each.
   */
  class CellNetwork {
    var vertices: seq<Point>
    var edges: seq<NodePair>
    var vertexAttributes: map<int, Attributes>
    var edgeAttributes: map<NodePair, Attributes>
    var faces: seq<seq<int>>
    var faceAttributes: seq<Attributes>
    var attributes: map<string, int>

    ghost predicate Valid()
      reads this
    {
      |faceAttributes| == |faces|
    }

    constructor ()
      ensures Valid()
      ensures vertices == [] && edges == [] && faces == []
      ensures vertexAttributes == map[] && edgeAttributes == map[] && attributes == map[]
    {
      vertices, edges, faces, faceAttributes := [], [], [], [];
      vertexAttributes, edgeAttributes, attributes := map[], map[], map[];
    }

    /** add_vertex: the next key is the number of vertices so far. */
    method AddVertex(p: Point) returns (key: int)
      requires Valid()
      modifies this
      ensures Valid()
      ensures key == |old(vertices)| && vertices == old(vertices) + [p]
      ensures edges == old(edges) && faces == old(faces) && faceAttributes == old(faceAttributes)
      ensures vertexAttributes == old(vertexAttributes) && edgeAttributes == old(edgeAttributes)
      ensures attributes == old(attributes)
    {
      key := |vertices|;
      vertices := vertices + [p];
    }

    method AddEdge(u: int, w: int)
      requires Valid()
      modifies this
      ensures Valid()
      ensures edges == old(edges) + [(u, w)]
      ensures vertices == old(vertices) && faces == old(faces) && faceAttributes == old(faceAttributes)
      ensures vertexAttributes == old(vertexAttributes) && edgeAttributes == old(edgeAttributes)
      ensures attributes == old(attributes)
    {
      edges := edges + [(u, w)];
    }

    /** add_face with its attribute dictionary; the key is the number of faces so far. */
    method AddFace(vs: seq<int>, attrs: Attributes) returns (key: int)
      requires Valid()
      modifies this
      ensures Valid()
      ensures key == |old(faces)| && faces == old(faces) + [vs] && faceAttributes == old(faceAttributes) + [attrs]
      ensures vertices == old(vertices) && edges == old(edges)
      ensures vertexAttributes == old(vertexAttributes) && edgeAttributes == old(edgeAttributes)
      ensures attributes == old(attributes)
    {
      key := |faces|;
      faces := faces + [vs];
      faceAttributes := faceAttributes + [attrs];
    }

    /** vertex_attribute(v, name, value): sets one entry of the vertex's dictionary. */
    method SetVertexAttribute(v: int, name: string, value: Attr)
      requires Valid()
      modifies this
      ensures Valid()
      ensures vertexAttributes == old(vertexAttributes)[v := Set(old(vertexAttributes), v, name, value)]
      ensures vertices == old(vertices) && edges == old(edges) && faces == old(faces)
      ensures faceAttributes == old(faceAttributes) && edgeAttributes == old(edgeAttributes)
      ensures attributes == old(attributes)
    {
      vertexAttributes := vertexAttributes[v := Set(vertexAttributes, v, name, value)];
    }

    /** edge_attribute(e, name, value). */
    method SetEdgeAttribute(e: NodePair, name: string, value: Attr)
      requires Valid()
      modifies this
      ensures Valid()
      ensures edgeAttributes == old(edgeAttributes)[e := Set(old(edgeAttributes), e, name, value)]
      ensures vertices == old(vertices) && edges == old(edges) && faces == old(faces)
      ensures faceAttributes == old(faceAttributes) && vertexAttributes == old(vertexAttributes)
      ensures attributes == old(attributes)
    {
      edgeAttributes := edgeAttributes[e := Set(edgeAttributes, e, name, value)];
    }

    /** face_attribute(f, name, value). */
    method SetFaceAttribute(f: int, name: string, value: Attr)
      requires Valid() && 0 <= f < |faces|
      modifies this
      ensures Valid()
      ensures faceAttributes == old(faceAttributes)[f := old(faceAttributes)[f][name := value]]
      ensures vertices == old(vertices) && edges == old(edges) && faces == old(faces)
      ensures vertexAttributes == old(vertexAttributes) && edgeAttributes == old(edgeAttributes)
      ensures attributes == old(attributes)
    {
      faceAttributes := faceAttributes[f := faceAttributes[f][name := value]];
    }

    /** The network's own attribute dictionary, as `attributes[name] = value`. */
    method SetAttribute(name: string, value: int)
      requires Valid()
      modifies this
      ensures Valid()
      ensures attributes == old(attributes)[name := value]
      ensures vertices == old(vertices) && edges == old(edges) && faces == old(faces)
      ensures faceAttributes == old(faceAttributes)
      ensures vertexAttributes == old(vertexAttributes) && edgeAttributes == old(edgeAttributes)
    {
      attributes := attributes[name := value];
    }
  }

  /** A dictionary of dictionaries with one entry set, the inner one created when missing. */
  function Set<K>(m: map<K, Attributes>, k: K, name: string, value: Attr): (a: Attributes)
    ensures name in a && a[name] == value
    ensures forall other :: other != name ==> (other in a <==> k in m && other in m[k])
    ensures forall other :: other != name && other in a ==> a[other] == m[k][other]
  {
    (if k in m then m[k] else map[])[name := value]
  }

  /** The lines handed to Graph.from_lines: the column and beam lines, then every edge of every floor, unchanged. */
  function InputLines(lines: seq<Line>, floors: seq<FloorMesh>): seq<Line>
  {
    lines + FloorLines(floors)
  }

  function FloorLines(floors: seq<FloorMesh>): (r: seq<Line>)
  {
    if floors == [] then [] else FloorLines(floors[..|floors| - 1]) + floors[|floors| - 1].lines
  }

  /** How many edges the first k floors contribute. */
  function LineCount(floors: seq<FloorMesh>, k: nat): nat
    requires k <= |floors|
  {
    if k == 0 then 0 else LineCount(floors, k - 1) + |floors[k - 1].lines|
  }

  lemma {:induction false} LineCountMonotone(floors: seq<FloorMesh>, k: nat, m: nat)
    requires k <= m <= |floors|
    ensures LineCount(floors, k) <= LineCount(floors, m)
  {
    if k < m {
      LineCountMonotone(floors, k, m - 1);
    }
  }

  /**
   * Each input line and each floor edge is one line of the graph input, in
   * order and with its ends as given: line j of floor k sits after the
   * user's lines and the edges of the floors before k.
   */
  lemma {:induction false} InputLinesLayout(lines: seq<Line>, floors: seq<FloorMesh>)
    ensures |InputLines(lines, floors)| == |lines| + LineCount(floors, |floors|)
    ensures forall k :: 0 <= k < |floors| ==> LineCount(floors, k) + |floors[k].lines| <= LineCount(floors, |floors|)
    ensures forall i :: 0 <= i < |lines| ==> InputLines(lines, floors)[i] == lines[i]
    ensures forall k, j :: 0 <= k < |floors| && 0 <= j < |floors[k].lines| ==>
      InputLines(lines, floors)[|lines| + LineCount(floors, k) + j] == floors[k].lines[j]
  {
    FloorLinesLength(floors);
    forall k | 0 <= k < |floors|
      ensures LineCount(floors, k) + |floors[k].lines| <= LineCount(floors, |floors|)
    {
      LineCountMonotone(floors, k + 1, |floors|);
    }
    var all := InputLines(lines, floors);
    assert all == lines + FloorLines(floors);
    forall i | 0 <= i < |lines|
      ensures all[i] == lines[i]
    {
    }
    forall k, j | 0 <= k < |floors| && 0 <= j < |floors[k].lines|
      ensures |lines| + LineCount(floors, k) + j < |all|
      ensures all[|lines| + LineCount(floors, k) + j] == floors[k].lines[j]
    {
      InputLineAt(lines, floors, k, j);
    }
  }

  lemma InputLineAt(lines: seq<Line>, floors: seq<FloorMesh>, k: nat, j: nat)
    requires k < |floors| && j < |floors[k].lines|
    ensures |lines| + LineCount(floors, k) + j < |InputLines(lines, floors)|
    ensures InputLines(lines, floors)[|lines| + LineCount(floors, k) + j] == floors[k].lines[j]
  {
    var fl := FloorLines(floors);
    assert InputLines(lines, floors) == lines + fl;
    FloorLineAt(floors, k, j);
  }

  lemma {:induction false} FloorLinesLayout(floors: seq<FloorMesh>)
    ensures |FloorLines(floors)| == LineCount(floors, |floors|)
    ensures forall k :: 0 <= k < |floors| ==> LineCount(floors, k) + |floors[k].lines| <= LineCount(floors, |floors|)
    ensures forall k, j :: 0 <= k < |floors| && 0 <= j < |floors[k].lines| ==>
      FloorLines(floors)[LineCount(floors, k) + j] == floors[k].lines[j]
  {
    FloorLinesLength(floors);
    forall k | 0 <= k < |floors|
      ensures LineCount(floors, k) + |floors[k].lines| <= LineCount(floors, |floors|)
    {
      LineCountMonotone(floors, k + 1, |floors|);
    }
    forall k, j | 0 <= k < |floors| && 0 <= j < |floors[k].lines|
      ensures FloorLines(floors)[LineCount(floors, k) + j] == floors[k].lines[j]
    {
      FloorLineAt(floors, k, j);
    }
  }

  lemma {:induction false} FloorLinesLength(floors: seq<FloorMesh>)
    ensures |FloorLines(floors)| == LineCount(floors, |floors|)
  {
    if floors != [] {
      var init := floors[..|floors| - 1];
      FloorLinesLength(init);
      LineCountPrefix(floors, init, |init|);
    }
  }

  /** Line j of floor k is where the layout says. */
  lemma {:induction false} FloorLineAt(floors: seq<FloorMesh>, k: nat, j: nat)
    requires k < |floors| && j < |floors[k].lines|
    ensures LineCount(floors, k) + j < |FloorLines(floors)|
    ensures FloorLines(floors)[LineCount(floors, k) + j] == floors[k].lines[j]
  {
    var init := floors[..|floors| - 1];
    LineCountPrefix(floors, init, if k < |init| then k else |init|);
    FloorLinesLength(init);
    if k < |init| {
      FloorLineAt(init, k, j);
    }
  }

  lemma {:induction false} LineCountPrefix(floors: seq<FloorMesh>, init: seq<FloorMesh>, k: nat)
    requires init <= floors && k <= |init|
    ensures LineCount(init, k) == LineCount(floors, k)
  {
    if k > 0 {
      LineCountPrefix(floors, init, k - 1);
    }
  }

  /** The loops that collect the graph input. */
  method CollectLines(lines: seq<Line>, floors: seq<FloorMesh>) returns (input: seq<Line>)
    ensures input == InputLines(lines, floors)
  {
    input := [];
    for i := 0 to |lines|
      invariant input == lines[..i]
    {
      input := input + [Line(lines[i].start, lines[i].end)];
    }
    for k := 0 to |floors|
      invariant input == lines + FloorLines(floors[..k])
    {
      var mesh := floors[k];
      for j := 0 to |mesh.lines|
        invariant input == lines + FloorLines(floors[..k]) + mesh.lines[..j]
      {
        input := input + [Line(mesh.lines[j].start, mesh.lines[j].end)];
      }
      assert floors[..k + 1][..k] == floors[..k];
    }
    assert floors[..|floors|] == floors;
  }

  /**
   * The vertex-key dictionary after the first n nodes: each node's
   * geometric key maps to the node, a later node overwriting an earlier one.
   */
  function KeyMap(xyz: seq<Point>, gkey: Point -> string, n: nat): map<string, int>
    requires n <= |xyz|
  {
    if n == 0 then map[] else KeyMap(xyz, gkey, n - 1)[gkey(xyz[n - 1]) := n - 1]
  }

  /** A key is present exactly when some node has it, and it maps to the last such node. */
  lemma {:induction false} KeyMapIsLastNode(xyz: seq<Point>, gkey: Point -> string, n: nat)
    requires n <= |xyz|
    ensures forall k :: k in KeyMap(xyz, gkey, n) <==> exists i :: 0 <= i < n && gkey(xyz[i]) == k
    ensures forall k :: k in KeyMap(xyz, gkey, n) ==>
      var i := KeyMap(xyz, gkey, n)[k];
      0 <= i < n && gkey(xyz[i]) == k && forall j :: i < j < n ==> gkey(xyz[j]) != k
  {
    if n > 0 {
      KeyMapIsLastNode(xyz, gkey, n - 1);
    }
  }

  /** The elevation threshold 1 / max(1, tolerance). */
  function Threshold(tolerance: int): (t: real)
    ensures 0.0 < t <= 1.0
  {
    1.0 / (if tolerance >= 1 then tolerance else 1) as real
  }

  /** Two points on the same storey: their heights differ by less than the threshold. */
  predicate Horizontal(a: Point, b: Point, tolerance: int)
  {
    Abs(a.z - b.z) < Threshold(tolerance)
  }

  /** Every entry of ws is a node of g. */
  predicate AllNodes(g: Graph, ws: seq<int>)
  {
    forall i :: 0 <= i < |ws| ==> IsNode(g, ws[i])
  }

  /** The neighbours of u the neighbour loop keeps: the graph neighbours on u's storey, in graph order. */
  function HorizontalNeighbors(g: Graph, u: int, tolerance: int): (ns: seq<int>)
    requires GraphOK(g) && IsNode(g, u)
  {
    NeighborsAreNodes(g, u);
    KeepHorizontal(g, u, g.adjacency[u], tolerance)
  }

  function KeepHorizontal(g: Graph, u: int, candidates: seq<int>, tolerance: int): (ns: seq<int>)
    requires IsNode(g, u) && AllNodes(g, candidates)
    ensures forall w :: w in ns <==> w in candidates && IsNode(g, w) && Horizontal(g.xyz[u], g.xyz[w], tolerance)
  {
    if candidates == [] then []
    else
      var rest := KeepHorizontal(g, u, candidates[..|candidates| - 1], tolerance);
      var w := candidates[|candidates| - 1];
      assert candidates == candidates[..|candidates| - 1] + [w];
      rest + (if Horizontal(g.xyz[u], g.xyz[w], tolerance) then [w] else [])
  }

  lemma NeighborsAreNodes(g: Graph, u: int)
    requires GraphOK(g) && IsNode(g, u)
    ensures AllNodes(g, g.adjacency[u])
  {
    forall i | 0 <= i < |g.adjacency[u]|
      ensures IsNode(g, g.adjacency[u][i])
    {
      var w := g.adjacency[u][i];
      assert Joined(g, u, w);
      if (u, w) in g.edges {
        var i :| 0 <= i < |g.edges| && g.edges[i] == (u, w);
      } else {
        var i :| 0 <= i < |g.edges| && g.edges[i] == (w, u);
      }
    }
  }

  /** The edge attribute the classification loop sets: is_beam on one storey, is_column otherwise. */
  function EdgeKind(g: Graph, e: NodePair, tolerance: int): (name: string)
    requires IsNode(g, e.0) && IsNode(g, e.1)
    ensures name == "is_beam" || name == "is_column"
    ensures name == "is_beam" <==> Horizontal(g.xyz[e.0], g.xyz[e.1], tolerance)
  {
    if Abs(g.xyz[e.0].z - g.xyz[e.1].z) < Threshold(tolerance) then "is_beam" else "is_column"
  }

  /** The horizontal-neighbour relation is symmetric. */
  lemma NeighborsSymmetric(g: Graph, u: int, w: int, tolerance: int)
    requires GraphOK(g) && IsNode(g, u) && IsNode(g, w)
    ensures w in HorizontalNeighbors(g, u, tolerance) <==> u in HorizontalNeighbors(g, w, tolerance)
  {
    NeighborsAreNodes(g, u);
    NeighborsAreNodes(g, w);
    assert Joined(g, u, w) <==> Joined(g, w, u);
  }

  /**
   * w is a horizontal neighbour of u exactly when an edge joins them and
   * that edge is classified as a beam: both use the same threshold.
   */
  lemma NeighborIffBeam(g: Graph, u: int, w: int, tolerance: int)
    requires GraphOK(g) && IsNode(g, u)
    ensures w in HorizontalNeighbors(g, u, tolerance) <==>
      exists i :: 0 <= i < |g.edges| && (g.edges[i] == (u, w) || g.edges[i] == (w, u))
        && EdgeKind(g, g.edges[i], tolerance) == "is_beam"
  {
    NeighborsAreNodes(g, u);
    if w in HorizontalNeighbors(g, u, tolerance) {
      assert Joined(g, u, w);
      var i :| 0 <= i < |g.edges| && (g.edges[i] == (u, w) || g.edges[i] == (w, u));
      assert Horizontal(g.xyz[u], g.xyz[w], tolerance) <==> Horizontal(g.xyz[w], g.xyz[u], tolerance);
    }
    if exists i :: 0 <= i < |g.edges| && (g.edges[i] == (u, w) || g.edges[i] == (w, u))
        && EdgeKind(g, g.edges[i], tolerance) == "is_beam" {
      var i :| 0 <= i < |g.edges| && (g.edges[i] == (u, w) || g.edges[i] == (w, u))
        && EdgeKind(g, g.edges[i], tolerance) == "is_beam";
      assert Joined(g, u, w);
      assert Horizontal(g.xyz[u], g.xyz[w], tolerance) <==> Horizontal(g.xyz[w], g.xyz[u], tolerance);
    }
  }

  /**
   * The vertices of a floor face: the mesh vertices, in vertex order, whose
   * geometric key names a network vertex; the others are dropped and the
   * length is not checked.
   */
  function Resolved(keys: map<string, int>, points: seq<Point>, gkey: Point -> string): (vs: seq<int>)
    ensures |vs| <= |points|
    ensures forall v :: v in vs ==> exists p :: p in points && gkey(p) in keys && keys[gkey(p)] == v
  {
    if points == [] then []
    else
      var rest := Resolved(keys, points[..|points| - 1], gkey);
      var k := gkey(points[|points| - 1]);
      rest + (if k in keys then [keys[k]] else [])
  }

  /** The list comprehension over mesh.vertex_gkey(). */
  method ResolveVertices(keys: map<string, int>, points: seq<Point>, gkey: Point -> string) returns (vs: seq<int>)
    ensures vs == Resolved(keys, points, gkey)
  {
    vs := [];
    for i := 0 to |points|
      invariant vs == Resolved(keys, points[..i], gkey)
    {
      var k := gkey(points[i]);
      if k in keys {
        vs := vs + [keys[k]];
      }
      assert points[..i + 1][..i] == points[..i];
    }
    assert points[..|points|] == points;
  }

  /** The neighbour loop for one vertex. */
  method CollectNeighbors(g: Graph, vertex: int, tolerance: int) returns (neighborBeams: seq<int>)
    requires GraphOK(g) && IsNode(g, vertex)
    ensures neighborBeams == HorizontalNeighbors(g, vertex, tolerance)
  {
    NeighborsAreNodes(g, vertex);
    var z0 := g.xyz[vertex].z;
    var adjacent := g.adjacency[vertex];
    neighborBeams := [];
    for i := 0 to |adjacent|
      invariant neighborBeams == KeepHorizontal(g, vertex, adjacent[..i], tolerance)
    {
      var neighbor := adjacent[i];
      assert adjacent[..i + 1][..i] == adjacent[..i];
      if Abs(z0 - g.xyz[neighbor].z) < 1.0 / (if tolerance >= 1 then tolerance else 1) as real {
        neighborBeams := neighborBeams + [neighbor];
      }
    }
    assert adjacent[..|adjacent|] == adjacent;
  }

  /** Every vertex carries exactly its horizontal neighbours under "neighbors". */
  ghost predicate NeighborsSet(network: CellNetwork, graph: Graph, tolerance: int)
    requires GraphOK(graph)
    reads network
  {
    forall u :: IsNode(graph, u) ==>
      u in network.vertexAttributes
      && network.vertexAttributes[u] == map["neighbors" := Nodes(HorizontalNeighbors(graph, u, tolerance))]
  }

  /** Every graph edge carries exactly one flag, is_beam or is_column. */
  ghost predicate EdgesClassified(network: CellNetwork, graph: Graph, tolerance: int)
    requires GraphOK(graph)
    reads network
  {
    forall i :: 0 <= i < |graph.edges| ==>
      graph.edges[i] in network.edgeAttributes
      && network.edgeAttributes[graph.edges[i]] == map[EdgeKind(graph, graph.edges[i], tolerance) := Flag(true)]
  }

  /** Face k is floor k's resolved vertex list, flagged is_floor. */
  ghost predicate FloorsAdded(network: CellNetwork, floors: seq<FloorMesh>, keys: map<string, int>, gkey: Point -> string)
    reads network
  {
    |network.faces| == |floors| && |network.faceAttributes| == |floors|
    && forall k :: 0 <= k < |floors| ==>
      network.faces[k] == Resolved(keys, floors[k].points, gkey) && network.faceAttributes[k] == map["is_floor" := Flag(true)]
  }

  /**
   * from_lines_and_surfaces. graphFromLines stands for Graph.from_lines at
   * the given precision and gkey for TOL.geometric_key at that precision.
   * The network gets one vertex per node at the node's point, the graph's
   * edges, the horizontal neighbours of every vertex, is_beam or is_column
   * on every edge, and one is_floor face per floor mesh.
   */
  method FromLinesAndSurfaces(lines: seq<Line>, floors: seq<FloorMesh>, tolerance: int,
                              graphFromLines: seq<Line> -> Graph, gkey: Point -> string)
    returns (network: CellNetwork, graph: Graph, keys: map<string, int>)
    requires GraphOK(graphFromLines(InputLines(lines, floors)))
    ensures fresh(network) && network.Valid()
    ensures graph == graphFromLines(InputLines(lines, floors))
    ensures network.vertices == graph.xyz && network.edges == graph.edges
    ensures keys == KeyMap(graph.xyz, gkey, |graph.xyz|)
    ensures NeighborsSet(network, graph, tolerance)
    ensures EdgesClassified(network, graph, tolerance)
    ensures FloorsAdded(network, floors, keys, gkey)
    ensures network.attributes == map[]
  {
    var input := CollectLines(lines, floors);
    graph := graphFromLines(input);
    network := new CellNetwork();
    keys := AddNodes(network, graph, gkey);
    AddGraphEdges(network, graph);
    SetNeighbors(network, graph, tolerance);
    ClassifyEdges(network, graph, tolerance);
    AddFloors(network, floors, keys, gkey);
  }

  /** The vertex loop: one vertex per node, and the key dictionary. */
  method AddNodes(network: CellNetwork, graph: Graph, gkey: Point -> string) returns (keys: map<string, int>)
    requires network.Valid() && network.vertices == []
    modifies network
    ensures network.Valid() && network.vertices == graph.xyz
    ensures keys == KeyMap(graph.xyz, gkey, |graph.xyz|)
    ensures network.edges == old(network.edges) && network.faces == old(network.faces)
    ensures network.faceAttributes == old(network.faceAttributes) && network.attributes == old(network.attributes)
    ensures network.vertexAttributes == old(network.vertexAttributes)
    ensures network.edgeAttributes == old(network.edgeAttributes)
  {
    keys := map[];
    for n := 0 to |graph.xyz|
      invariant network.Valid() && network.vertices == graph.xyz[..n]
      invariant keys == KeyMap(graph.xyz, gkey, n)
      invariant network.edges == old(network.edges) && network.faces == old(network.faces)
      invariant network.faceAttributes == old(network.faceAttributes) && network.attributes == old(network.attributes)
      invariant network.vertexAttributes == old(network.vertexAttributes)
      invariant network.edgeAttributes == old(network.edgeAttributes)
    {
      var xyz := graph.xyz[n];
      var key := network.AddVertex(xyz);
      keys := keys[gkey(xyz) := key];
      assert graph.xyz[..n + 1] == graph.xyz[..n] + [xyz];
    }
    assert graph.xyz[..|graph.xyz|] == graph.xyz;
  }

  /** The edge loop. */
  method AddGraphEdges(network: CellNetwork, graph: Graph)
    requires network.Valid()
    modifies network
    ensures network.Valid() && network.edges == old(network.edges) + graph.edges
    ensures network.vertices == old(network.vertices) && network.faces == old(network.faces)
    ensures network.faceAttributes == old(network.faceAttributes) && network.attributes == old(network.attributes)
    ensures network.vertexAttributes == old(network.vertexAttributes)
    ensures network.edgeAttributes == old(network.edgeAttributes)
  {
    for i := 0 to |graph.edges|
      invariant network.Valid() && network.edges == old(network.edges) + graph.edges[..i]
      invariant network.vertices == old(network.vertices) && network.faces == old(network.faces)
      invariant network.faceAttributes == old(network.faceAttributes) && network.attributes == old(network.attributes)
      invariant network.vertexAttributes == old(network.vertexAttributes)
      invariant network.edgeAttributes == old(network.edgeAttributes)
    {
      network.AddEdge(graph.edges[i].0, graph.edges[i].1);
      assert graph.edges[..i + 1] == graph.edges[..i] + [graph.edges[i]];
    }
    assert graph.edges[..|graph.edges|] == graph.edges;
  }

  /** The neighbour loop over all vertices. */
  method SetNeighbors(network: CellNetwork, graph: Graph, tolerance: int)
    requires GraphOK(graph) && network.Valid()
    requires network.vertices == graph.xyz && network.vertexAttributes == map[]
    modifies network
    ensures network.Valid() && NeighborsSet(network, graph, tolerance)
    ensures network.vertices == old(network.vertices) && network.edges == old(network.edges)
    ensures network.faces == old(network.faces)
    ensures network.faceAttributes == old(network.faceAttributes) && network.attributes == old(network.attributes)
    ensures network.edgeAttributes == old(network.edgeAttributes)
  {
    for vertex := 0 to |network.vertices|
      invariant network.Valid() && network.vertices == graph.xyz
      invariant network.edges == old(network.edges) && network.faces == old(network.faces)
      invariant network.faceAttributes == old(network.faceAttributes) && network.attributes == old(network.attributes)
      invariant network.edgeAttributes == old(network.edgeAttributes)
      invariant forall u :: u in network.vertexAttributes ==> 0 <= u < vertex
      invariant forall u :: 0 <= u < vertex ==>
        u in network.vertexAttributes
        && network.vertexAttributes[u] == map["neighbors" := Nodes(HorizontalNeighbors(graph, u, tolerance))]
    {
      var neighborBeams := CollectNeighbors(graph, vertex, tolerance);
      ghost var before := network.vertexAttributes;
      network.SetVertexAttribute(vertex, "neighbors", Nodes(neighborBeams));
      NeighborsStep(graph, tolerance, vertex, before, network.vertexAttributes);
    }
  }

  /** One pass of the neighbour loop, stated on the attribute maps before and after it. */
  lemma NeighborsStep(graph: Graph, tolerance: int, vertex: int, before: map<int, Attributes>, after: map<int, Attributes>)
    requires GraphOK(graph) && IsNode(graph, vertex)
    requires forall u :: u in before ==> 0 <= u < vertex
    requires forall u :: 0 <= u < vertex ==>
      u in before && before[u] == map["neighbors" := Nodes(HorizontalNeighbors(graph, u, tolerance))]
    requires after == before[vertex := Set(before, vertex, "neighbors", Nodes(HorizontalNeighbors(graph, vertex, tolerance)))]
    ensures forall u :: u in after ==> 0 <= u < vertex + 1
    ensures forall u :: 0 <= u < vertex + 1 ==>
      u in after && after[u] == map["neighbors" := Nodes(HorizontalNeighbors(graph, u, tolerance))]
  {
    assert vertex !in before;
    assert after[vertex] == map["neighbors" := Nodes(HorizontalNeighbors(graph, vertex, tolerance))];
  }

  /** The classification loop over all edges. */
  method ClassifyEdges(network: CellNetwork, graph: Graph, tolerance: int)
    requires GraphOK(graph) && network.Valid() && network.edgeAttributes == map[]
    modifies network
    ensures network.Valid() && EdgesClassified(network, graph, tolerance)
    ensures network.vertices == old(network.vertices) && network.edges == old(network.edges)
    ensures network.faces == old(network.faces)
    ensures network.faceAttributes == old(network.faceAttributes) && network.attributes == old(network.attributes)
    ensures network.vertexAttributes == old(network.vertexAttributes)
  {
    for i := 0 to |graph.edges|
      invariant network.Valid()
      invariant network.vertices == old(network.vertices) && network.edges == old(network.edges)
      invariant network.faces == old(network.faces)
      invariant network.faceAttributes == old(network.faceAttributes) && network.attributes == old(network.attributes)
      invariant network.vertexAttributes == old(network.vertexAttributes)
      invariant forall e :: e in network.edgeAttributes ==> e in graph.edges[..i]
      invariant forall j :: 0 <= j < i ==>
        graph.edges[j] in network.edgeAttributes
        && network.edgeAttributes[graph.edges[j]] == map[EdgeKind(graph, graph.edges[j], tolerance) := Flag(true)]
    {
      var e := graph.edges[i];
      var name := if Abs(graph.xyz[e.0].z - graph.xyz[e.1].z) < 1.0 / (if tolerance >= 1 then tolerance else 1) as real
        then "is_beam" else "is_column";
      assert name == EdgeKind(graph, e, tolerance) by {
        assert IsNode(graph, e.0) && IsNode(graph, e.1);
      }
      ghost var before := network.edgeAttributes;
      network.SetEdgeAttribute(e, name, Flag(true));
      assert forall j :: 0 <= j < i ==> graph.edges[j] != graph.edges[i];
      ClassifyStep(graph, tolerance, i, before, network.edgeAttributes);
    }
  }

  /** One pass of the classification loop, stated on the attribute maps before and after it. */
  lemma ClassifyStep(graph: Graph, tolerance: int, i: nat, before: map<NodePair, Attributes>, after: map<NodePair, Attributes>)
    requires forall j :: 0 <= j < |graph.edges| ==> IsNode(graph, graph.edges[j].0) && IsNode(graph, graph.edges[j].1)
    requires i < |graph.edges| && forall j :: 0 <= j < i ==> graph.edges[j] != graph.edges[i]
    requires forall e :: e in before ==> e in graph.edges[..i]
    requires forall j :: 0 <= j < i ==>
      graph.edges[j] in before && before[graph.edges[j]] == map[EdgeKind(graph, graph.edges[j], tolerance) := Flag(true)]
    requires after == before[graph.edges[i] := Set(before, graph.edges[i], EdgeKind(graph, graph.edges[i], tolerance), Flag(true))]
    ensures forall e :: e in after ==> e in graph.edges[..i + 1]
    ensures forall j :: 0 <= j < i + 1 ==>
      graph.edges[j] in after && after[graph.edges[j]] == map[EdgeKind(graph, graph.edges[j], tolerance) := Flag(true)]
  {
    var e := graph.edges[i];
    assert e !in before by {
      assert forall j :: 0 <= j < i ==> graph.edges[..i][j] != e;
    }
    assert after[e] == map[EdgeKind(graph, e, tolerance) := Flag(true)];
    assert graph.edges[..i + 1] == graph.edges[..i] + [e];
  }

  /** The floor loop: one is_floor face per mesh. */
  method AddFloors(network: CellNetwork, floors: seq<FloorMesh>, keys: map<string, int>, gkey: Point -> string)
    requires network.Valid() && network.faces == []
    modifies network
    ensures network.Valid() && FloorsAdded(network, floors, keys, gkey)
    ensures network.vertices == old(network.vertices) && network.edges == old(network.edges)
    ensures network.attributes == old(network.attributes)
    ensures network.vertexAttributes == old(network.vertexAttributes)
    ensures network.edgeAttributes == old(network.edgeAttributes)
  {
    for k := 0 to |floors|
      invariant network.Valid() && |network.faces| == k
      invariant network.vertices == old(network.vertices) && network.edges == old(network.edges)
      invariant network.attributes == old(network.attributes)
      invariant network.vertexAttributes == old(network.vertexAttributes)
      invariant network.edgeAttributes == old(network.edgeAttributes)
      invariant forall j :: 0 <= j < k ==>
        network.faces[j] == Resolved(keys, floors[j].points, gkey) && network.faceAttributes[j] == map["is_floor" := Flag(true)]
    {
      var v := ResolveVertices(keys, floors[k].points, gkey);
      var key := network.AddFace(v, map["is_floor" := Flag(true)]);
    }
  }

  /** The attribute `name` of a dictionary is True. */
  predicate Flagged(a: Attributes, name: string)
  {
    name in a && a[name] == Flag(true)
  }

  /** edges_where({name: True}): the edges whose attribute is True, in edge order. */
  function EdgesFlagged(edges: seq<NodePair>, attrs: map<NodePair, Attributes>, name: string): (es: seq<NodePair>)
    ensures |es| <= |edges|
    ensures forall e :: e in es <==> e in edges && e in attrs && Flagged(attrs[e], name)
  {
    if edges == [] then []
    else
      var e := edges[|edges| - 1];
      EdgesFlagged(edges[..|edges| - 1], attrs, name) + (if e in attrs && Flagged(attrs[e], name) then [e] else [])
  }

  /** faces_where({name: True}): the keys of the faces whose attribute is True, ascending. */
  function FacesFlagged(attrs: seq<Attributes>, name: string): (fs: seq<nat>)
    ensures forall f: nat :: f in fs <==> f < |attrs| && Flagged(attrs[f], name)
    ensures forall i, j :: 0 <= i < j < |fs| ==> fs[i] < fs[j]
    ensures forall i :: 0 <= i < |fs| ==> fs[i] < |attrs|
  {
    if attrs == [] then []
    else
      var n := |attrs| - 1;
      FacesFlagged(attrs[..n], name) + (if Flagged(attrs[n], name) then [n] else [])
  }
}
