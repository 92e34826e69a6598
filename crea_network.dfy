/**
 * The first half of the CREA example script: the user's Rhino geometry,
 * grouped under layer keys, becomes a graph of canonically oriented lines
 * and then a cell network whose edges and faces carry an is_<layer> flag.
 */
module CreaNetwork {
  import opened Base
  import opened CellNetworkModel

  /** (z, x, y) lexicographic order on points: a is not after b. */
  predicate ZxyLeq(a: Point, b: Point)
  {
    a.z < b.z || (a.z == b.z && (a.x < b.x || (a.x == b.x && a.y <= b.y)))
  }

  /**
   * create_ordered_line: the same two end points, ordered so that the
   * start is not after the end in (z, x, y) order.
   */
  function CreateOrderedLine(point1: Point, point2: Point): (l: Line)
    ensures (l.start == point1 && l.end == point2) || (l.start == point2 && l.end == point1)
    ensures ZxyLeq(l.start, l.end)
  {
    if point1.z < point2.z then Line(point1, point2)
    else if point1.z > point2.z then Line(point2, point1)
    else if point1.x < point2.x then Line(point1, point2)
    else if point1.x > point2.x then Line(point2, point1)
    else if point1.y < point2.y then Line(point1, point2)
    else Line(point2, point1)
  }

  /** Ordering an ordered line again changes nothing. */
  lemma OrderedLineIsStable(point1: Point, point2: Point)
    ensures var l := CreateOrderedLine(point1, point2); CreateOrderedLine(l.start, l.end) == l
  {
  }

  /** The orientation the user drew a line in does not matter. */
  lemma OrderedLineIgnoresOrientation(point1: Point, point2: Point)
    ensures CreateOrderedLine(point1, point2) == CreateOrderedLine(point2, point1)
  {
  }

  /** One item of a layer: a line or a mesh. */
  datatype Geometry = LineGeometry(line: Line) | MeshGeometry(mesh: FloorMesh)

  /** One entry of the input dictionary: a layer key such as "GM::Column" and its geometry. */
  datatype Layer = Layer(key: string, items: seq<Geometry>)

  /**
   * The lines one item contributes to the graph input. A layer is read as
   * lines or as meshes according to its first item; an item of the other
   * kind fails: a mesh cannot be indexed like a line (TypeError), a line
   * has no to_lines (AttributeError).
   */
  function ItemLines(first: Geometry, item: Geometry): (r: Result<seq<Line>>)
    ensures r.Err? <==> first.LineGeometry? != item.LineGeometry?
    ensures r.Ok? && item.LineGeometry? ==> r.value == [CreateOrderedLine(item.line.start, item.line.end)]
    ensures r.Ok? && item.MeshGeometry? ==> |r.value| == |item.mesh.lines|
  {
    match first
      case LineGeometry(_) =>
        if item.LineGeometry? then Ok([CreateOrderedLine(item.line.start, item.line.end)]) else Err(TypeError)
      case MeshGeometry(_) =>
        if item.MeshGeometry? then Ok(OrderedLines(item.mesh.lines)) else Err(AttributeError)
  }

  function OrderedLines(lines: seq<Line>): (r: seq<Line>)
    ensures |r| == |lines|
    ensures forall i :: 0 <= i < |lines| ==> r[i] == CreateOrderedLine(lines[i].start, lines[i].end)
  {
    if lines == [] then [] else OrderedLines(lines[..|lines| - 1]) + [CreateOrderedLine(lines[|lines| - 1].start, lines[|lines| - 1].end)]
  }

  /** The lines a layer contributes, reading every item as its first one says. */
  function LayerLines(first: Geometry, items: seq<Geometry>): Result<seq<Line>>
  {
    if items == [] then Ok([])
    else Then(ItemLines(first, items[0]), LayerLines(first, items[1..]))
  }

  /** The graph input the script collects: empty layers are skipped, every line is oriented. */
  function ScriptLines(layers: seq<Layer>): (r: Result<seq<Line>>)
  {
    if layers == [] then Ok([])
    else Then(if layers[0].items == [] then Ok([]) else LayerLines(layers[0].items[0], layers[0].items), ScriptLines(layers[1..]))
  }

  /** Every line of the graph input is oriented, and is one of the user's lines or mesh edges. */
  lemma {:induction false} ScriptLinesAreOrdered(layers: seq<Layer>)
    requires ScriptLines(layers).Ok?
    ensures forall i :: 0 <= i < |ScriptLines(layers).value| ==>
      ZxyLeq(ScriptLines(layers).value[i].start, ScriptLines(layers).value[i].end)
  {
    if layers != [] {
      ScriptLinesAreOrdered(layers[1..]);
      if layers[0].items != [] {
        LayerLinesAreOrdered(layers[0].items[0], layers[0].items);
      }
    }
  }

  lemma {:induction false} LayerLinesAreOrdered(first: Geometry, items: seq<Geometry>)
    requires LayerLines(first, items).Ok?
    ensures forall i :: 0 <= i < |LayerLines(first, items).value| ==>
      ZxyLeq(LayerLines(first, items).value[i].start, LayerLines(first, items).value[i].end)
  {
    if items != [] {
      LayerLinesAreOrdered(first, items[1..]);
    }
  }

  /** A layer whose items all have the kind of its first item never fails. */
  lemma {:induction false} UniformLayerSucceeds(first: Geometry, items: seq<Geometry>)
    requires forall i :: 0 <= i < |items| ==> items[i].LineGeometry? == first.LineGeometry?
    ensures LayerLines(first, items).Ok?
  {
    if items != [] {
      UniformLayerSucceeds(first, items[1..]);
    }
  }

  /** The loop collecting the graph input. */
  method CollectScriptLines(layers: seq<Layer>) returns (result: Result<seq<Line>>)
    ensures result == ScriptLines(layers)
  {
    var lines: seq<Line> := [];
    assert layers[0..] == layers;
    ThenEmpty(ScriptLines(layers));
    for i := 0 to |layers|
      invariant ScriptLines(layers) == Then(Ok(lines), ScriptLines(layers[i..]))
    {
      assert layers[i..][1..] == layers[i + 1..];
      var geometries := layers[i].items;
      ThenEmpty(ScriptLines(layers[i + 1..]));
      if |geometries| == 0 {
        continue;
      }
      var here := CollectLayerLines(geometries[0], geometries);
      if here.Err? {
        return Err(here.error);
      }
      ThenAppend(lines, here.value, ScriptLines(layers[i + 1..]));
      lines := lines + here.value;
    }
    assert lines + [] == lines;
    return Ok(lines);
  }

  /** The inner loop over the items of one layer. */
  method CollectLayerLines(first: Geometry, items: seq<Geometry>) returns (result: Result<seq<Line>>)
    ensures result == LayerLines(first, items)
  {
    var lines: seq<Line> := [];
    assert items[0..] == items;
    ThenEmpty(LayerLines(first, items));
    for j := 0 to |items|
      invariant LayerLines(first, items) == Then(Ok(lines), LayerLines(first, items[j..]))
    {
      assert items[j..][1..] == items[j + 1..];
      var item := items[j];
      var rest := LayerLines(first, items[j + 1..]);
      if first.LineGeometry? {
        if !item.LineGeometry? {
          return Err(TypeError);
        }
        ThenAppend(lines, [CreateOrderedLine(item.line.start, item.line.end)], rest);
        lines := lines + [CreateOrderedLine(item.line.start, item.line.end)];
      } else {
        if !item.MeshGeometry? {
          return Err(AttributeError);
        }
        var meshLines := OrderMeshLines(item.mesh.lines);
        ThenAppend(lines, meshLines, rest);
        lines := lines + meshLines;
      }
    }
    assert lines + [] == lines;
    return Ok(lines);
  }

  /** The loop over mesh.to_lines(). */
  method OrderMeshLines(meshLines: seq<Line>) returns (lines: seq<Line>)
    ensures lines == OrderedLines(meshLines)
  {
    lines := [];
    for k := 0 to |meshLines|
      invariant lines == OrderedLines(meshLines[..k])
    {
      assert meshLines[..k + 1][..k] == meshLines[..k];
      lines := lines + [CreateOrderedLine(meshLines[k].start, meshLines[k].end)];
    }
    assert meshLines[..|meshLines|] == meshLines;
  }

  /** There is a "::" at position i of s. */
  predicate SeparatorAt(s: string, i: int)
  {
    0 <= i && i + 2 <= |s| && s[i] == ':' && s[i + 1] == ':'
  }

  /** The first "::" at or after position from, as str.split("::") finds it. */
  function FindSeparator(s: string, from: nat): (r: Option<nat>)
    decreases |s| - from
    ensures r.Some? ==> from <= r.value && SeparatorAt(s, r.value)
    ensures r.Some? ==> forall i :: from <= i < r.value ==> !SeparatorAt(s, i)
    ensures r.None? ==> forall i :: from <= i ==> !SeparatorAt(s, i)
  {
    if from + 2 > |s| then None
    else if s[from] == ':' && s[from + 1] == ':' then Some(from)
    else FindSeparator(s, from + 1)
  }

  /**
   * The attribute name of a layer: "is_" and the lower-cased second
   * "::"-separated part of its key; a key without "::" has no second part
   * (IndexError).
   */
  function AttributeName(key: string): (r: Result<string>)
    ensures r.Err? <==> forall i :: !SeparatorAt(key, i)
    ensures r.Err? ==> r.error == IndexError
    ensures r.Ok? ==> |r.value| >= 3 && r.value[..3] == "is_"
  {
    match FindSeparator(key, 0)
      case None => Err(IndexError)
      case Some(i) =>
        var end := match FindSeparator(key, i + 2) case Some(j) => j case None => |key|;
        Ok("is_" + Lower(key[i + 2..end]))
  }

  /**
   * Splitting undoes joining: for parts free of ':', the name of
   * part0 + "::" + part1 (+ more "::"-separated text) is "is_" + lower(part1).
   */
  lemma AttributeNameOfParts(part0: string, part1: string, tail: string)
    requires ':' !in part0 && ':' !in part1
    requires tail == [] || SeparatorAt(tail, 0)
    ensures AttributeName(part0 + "::" + part1 + tail) == Ok("is_" + Lower(part1))
  {
    var key := part0 + "::" + part1 + tail;
    var i := |part0|;
    var j := i + 2 + |part1|;
    assert key[..i] == part0 && key[i..i + 2] == "::" && key[i + 2..j] == part1 && key[j..] == tail;
    NoSeparatorIn(key, 0, i);
    FindSeparatorSkips(key, 0, i);
    assert SeparatorAt(key, i);
    NoSeparatorIn(key, i + 2, j);
    FindSeparatorSkips(key, i + 2, j);
    if tail != [] {
      assert SeparatorAt(key, j);
    }
  }

  /** A stretch free of ':' holds no "::" starting before its last character. */
  lemma NoSeparatorIn(s: string, from: nat, to: nat)
    requires from <= to <= |s| && ':' !in s[from..to]
    ensures forall k :: from <= k < to ==> !SeparatorAt(s, k)
  {
    forall k | from <= k < to
      ensures !SeparatorAt(s, k)
    {
      assert s[k] == s[from..to][k - from];
    }
  }

  lemma {:induction false} FindSeparatorSkips(s: string, from: nat, to: nat)
    requires from <= to && forall k :: from <= k < to ==> !SeparatorAt(s, k)
    ensures FindSeparator(s, from) == FindSeparator(s, to)
    decreases (to as int) - (from as int)
  {
    if from < to && from + 2 <= |s| {
      assert !SeparatorAt(s, from);
      FindSeparatorSkips(s, from + 1, to);
    } else if from < to {
      assert FindSeparator(s, from) == None;
      assert to + 2 > |s|;
    }
  }

  /** The parts of the network the attribute loop writes. */
  datatype Tables = Tables(edgeAttributes: map<NodePair, Attributes>, faces: seq<seq<int>>, faceAttributes: seq<Attributes>)

  /** The midpoint of two points, whose geometric key the edge dictionary uses. */
  function Midpoint(a: Point, b: Point): Point
  {
    Scale(Add(a, b), 0.5)
  }

  /** midpoint_line and edge_midpoint agree whichever way round the line runs. */
  lemma MidpointSymmetric(a: Point, b: Point)
    ensures Midpoint(a, b) == Midpoint(b, a)
  {
  }

  /**
   * One item of a layer: a line flags the edge its midpoint key names
   * (KeyError when no edge has that key); a mesh becomes a face when
   * exactly four of its vertex keys resolve, and is skipped otherwise.
   */
  function ApplyGeometry(t: Tables, name: string, g: Geometry, edgeKeys: map<string, NodePair>,
                         vertexKeys: map<string, int>, gkey: Point -> string): (r: Result<Tables>)
    ensures r.Err? <==> g.LineGeometry? && gkey(Midpoint(g.line.start, g.line.end)) !in edgeKeys
    ensures r.Err? ==> r.error == KeyError
    ensures r.Ok? && g.LineGeometry? ==>
      var e := edgeKeys[gkey(Midpoint(g.line.start, g.line.end))];
      r.value.faces == t.faces && r.value.faceAttributes == t.faceAttributes
      && r.value.edgeAttributes.Keys == t.edgeAttributes.Keys + {e}
      && e in r.value.edgeAttributes && name in r.value.edgeAttributes[e] && r.value.edgeAttributes[e][name] == Flag(true)
    ensures r.Ok? && g.MeshGeometry? ==> r.value.edgeAttributes == t.edgeAttributes
    ensures r.Ok? && g.MeshGeometry? ==>
      var v := Resolved(vertexKeys, g.mesh.points, gkey);
      if |v| == 4 then r.value.faces == t.faces + [v] && r.value.faceAttributes == t.faceAttributes + [map[name := Flag(true)]]
      else r.value == t
  {
    match g
      case LineGeometry(l) =>
        var k := gkey(Midpoint(l.start, l.end));
        if k !in edgeKeys then Err(KeyError)
        else
          var e := edgeKeys[k];
          Ok(t.(edgeAttributes := t.edgeAttributes[e := Set(t.edgeAttributes, e, name, Flag(true))]))
      case MeshGeometry(m) =>
        var v := Resolved(vertexKeys, m.points, gkey);
        if |v| == 4 then Ok(t.(faces := t.faces + [v], faceAttributes := t.faceAttributes + [map[name := Flag(true)]]))
        else Ok(t)
  }

  function ApplyItems(t: Tables, name: string, items: seq<Geometry>, edgeKeys: map<string, NodePair>,
                      vertexKeys: map<string, int>, gkey: Point -> string): Result<Tables>
    decreases |items|
  {
    if items == [] then Ok(t)
    else match ApplyGeometry(t, name, items[0], edgeKeys, vertexKeys, gkey)
      case Err(x) => Err(x)
      case Ok(t') => ApplyItems(t', name, items[1..], edgeKeys, vertexKeys, gkey)
  }

  /** The attribute loop over all layers, stopping at the first error. */
  function ApplyLayers(t: Tables, layers: seq<Layer>, edgeKeys: map<string, NodePair>,
                       vertexKeys: map<string, int>, gkey: Point -> string): Result<Tables>
    decreases |layers|
  {
    if layers == [] then Ok(t)
    else match AttributeName(layers[0].key)
      case Err(x) => Err(x)
      case Ok(name) =>
        match ApplyItems(t, name, layers[0].items, edgeKeys, vertexKeys, gkey)
          case Err(x) => Err(x)
          case Ok(t') => ApplyLayers(t', layers[1..], edgeKeys, vertexKeys, gkey)
  }

  /** The attribute dictionary of a registered face: a single is_<layer> flag. */
  ghost predicate LayerFlag(a: Attributes)
  {
    exists name :: |name| >= 3 && name[..3] == "is_" && a == map[name := Flag(true)]
  }

  /** A registered face: four vertices, each a value of the vertex-key dictionary. */
  predicate QuadOfKeys(f: seq<int>, vertexKeys: map<string, int>)
  {
    |f| == 4 && forall x :: x in f ==> x in vertexKeys.Values
  }

  /**
   * Faces only ever come from meshes with exactly four resolved vertices:
   * the faces before stay, and every face added is a quad of resolved
   * vertices carrying a single is_ flag.
   */
  ghost predicate FacesGrow(t: Tables, t': Tables, vertexKeys: map<string, int>)
  {
    |t.faceAttributes| == |t.faces| && |t'.faceAttributes| == |t'.faces| && |t.faces| <= |t'.faces|
    && t'.faces[..|t.faces|] == t.faces && t'.faceAttributes[..|t.faces|] == t.faceAttributes
    && forall k :: |t.faces| <= k < |t'.faces| ==> QuadOfKeys(t'.faces[k], vertexKeys) && LayerFlag(t'.faceAttributes[k])
  }

  lemma ResolvedAreKeys(keys: map<string, int>, points: seq<Point>, gkey: Point -> string)
    ensures forall x :: x in Resolved(keys, points, gkey) ==> x in keys.Values
  {
  }

  lemma {:induction false} ItemsGrowFaces(t: Tables, name: string, items: seq<Geometry>, edgeKeys: map<string, NodePair>,
                                          vertexKeys: map<string, int>, gkey: Point -> string)
    requires |name| >= 3 && name[..3] == "is_"
    requires |t.faceAttributes| == |t.faces|
    requires ApplyItems(t, name, items, edgeKeys, vertexKeys, gkey).Ok?
    ensures FacesGrow(t, ApplyItems(t, name, items, edgeKeys, vertexKeys, gkey).value, vertexKeys)
    decreases |items|
  {
    if items == [] {
      FacesGrowReflexive(t, vertexKeys);
    } else {
      var t' := ApplyGeometry(t, name, items[0], edgeKeys, vertexKeys, gkey).value;
      if items[0].MeshGeometry? {
        ResolvedAreKeys(vertexKeys, items[0].mesh.points, gkey);
        var v := Resolved(vertexKeys, items[0].mesh.points, gkey);
        if |v| == 4 {
          assert LayerFlag(map[name := Flag(true)]);
          assert t'.faces[..|t.faces|] == t.faces;
          assert t'.faceAttributes[..|t.faces|] == t.faceAttributes;
        } else {
          FacesGrowReflexive(t, vertexKeys);
        }
      } else {
        FacesGrowReflexive(t, vertexKeys);
      }
      ItemsGrowFaces(t', name, items[1..], edgeKeys, vertexKeys, gkey);
      var t'' := ApplyItems(t, name, items, edgeKeys, vertexKeys, gkey).value;
      FacesGrowTransitive(t, t', t'', vertexKeys);
    }
  }

  lemma FacesGrowTransitive(t: Tables, t': Tables, t'': Tables, vertexKeys: map<string, int>)
    requires FacesGrow(t, t', vertexKeys) && FacesGrow(t', t'', vertexKeys)
    ensures FacesGrow(t, t'', vertexKeys)
  {
    var n := |t.faces|;
    assert t''.faces[..n] == t''.faces[..|t'.faces|][..n];
    assert t''.faceAttributes[..n] == t''.faceAttributes[..|t'.faces|][..n];
    forall k | n <= k < |t''.faces|
      ensures QuadOfKeys(t''.faces[k], vertexKeys) && LayerFlag(t''.faceAttributes[k])
    {
      if k < |t'.faces| {
        assert t''.faces[k] == t''.faces[..|t'.faces|][k];
        assert t''.faceAttributes[k] == t''.faceAttributes[..|t'.faces|][k];
      }
    }
  }

  lemma FacesGrowReflexive(t: Tables, vertexKeys: map<string, int>)
    requires |t.faceAttributes| == |t.faces|
    ensures FacesGrow(t, t, vertexKeys)
  {
  }

  /** What the attribute loop adds to the faces, over all layers. */
  lemma {:induction false} LayersGrowFaces(t: Tables, layers: seq<Layer>, edgeKeys: map<string, NodePair>,
                                           vertexKeys: map<string, int>, gkey: Point -> string)
    requires |t.faceAttributes| == |t.faces|
    requires ApplyLayers(t, layers, edgeKeys, vertexKeys, gkey).Ok?
    ensures FacesGrow(t, ApplyLayers(t, layers, edgeKeys, vertexKeys, gkey).value, vertexKeys)
    decreases |layers|
  {
    if layers == [] {
      FacesGrowReflexive(t, vertexKeys);
    } else {
      var name := AttributeName(layers[0].key).value;
      ItemsGrowFaces(t, name, layers[0].items, edgeKeys, vertexKeys, gkey);
      var t' := ApplyItems(t, name, layers[0].items, edgeKeys, vertexKeys, gkey).value;
      LayersGrowFaces(t', layers[1..], edgeKeys, vertexKeys, gkey);
      FacesGrowTransitive(t, t', ApplyLayers(t, layers, edgeKeys, vertexKeys, gkey).value, vertexKeys);
    }
  }

  /** Every line of the list names an edge through its midpoint key. */
  predicate LinesResolve(items: seq<Geometry>, edgeKeys: map<string, NodePair>, gkey: Point -> string)
  {
    forall j :: 0 <= j < |items| && items[j].LineGeometry? ==>
      gkey(Midpoint(items[j].line.start, items[j].line.end)) in edgeKeys
  }

  /** Every layer key has a "::" and every line's midpoint names an edge. */
  predicate Resolvable(layers: seq<Layer>, edgeKeys: map<string, NodePair>, gkey: Point -> string)
  {
    forall i :: 0 <= i < |layers| ==> AttributeName(layers[i].key).Ok? && LinesResolve(layers[i].items, edgeKeys, gkey)
  }

  /**
   * The attribute loop fails exactly when some layer key has no "::" or
   * some line's midpoint names no edge; the errors are IndexError and KeyError.
   */
  lemma {:induction false} LayersSucceed(t: Tables, layers: seq<Layer>, edgeKeys: map<string, NodePair>,
                                         vertexKeys: map<string, int>, gkey: Point -> string)
    ensures ApplyLayers(t, layers, edgeKeys, vertexKeys, gkey).Ok? <==> Resolvable(layers, edgeKeys, gkey)
    ensures ApplyLayers(t, layers, edgeKeys, vertexKeys, gkey).Err? ==>
      ApplyLayers(t, layers, edgeKeys, vertexKeys, gkey).error in {IndexError, KeyError}
    decreases |layers|
  {
    if layers != [] {
      assert Resolvable(layers, edgeKeys, gkey) <==>
        (AttributeName(layers[0].key).Ok? && LinesResolve(layers[0].items, edgeKeys, gkey) && Resolvable(layers[1..], edgeKeys, gkey)) by {
        assert forall i :: 1 <= i < |layers| ==> layers[i] == layers[1..][i - 1];
      }
      var name := AttributeName(layers[0].key);
      if name.Ok? {
        ItemsSucceed(t, name.value, layers[0].items, edgeKeys, vertexKeys, gkey);
        var items := ApplyItems(t, name.value, layers[0].items, edgeKeys, vertexKeys, gkey);
        if items.Ok? {
          LayersSucceed(items.value, layers[1..], edgeKeys, vertexKeys, gkey);
        }
      }
    }
  }

  lemma {:induction false} ItemsSucceed(t: Tables, name: string, items: seq<Geometry>, edgeKeys: map<string, NodePair>,
                                        vertexKeys: map<string, int>, gkey: Point -> string)
    ensures ApplyItems(t, name, items, edgeKeys, vertexKeys, gkey).Ok? <==> LinesResolve(items, edgeKeys, gkey)
    ensures ApplyItems(t, name, items, edgeKeys, vertexKeys, gkey).Err? ==>
      ApplyItems(t, name, items, edgeKeys, vertexKeys, gkey).error == KeyError
    decreases |items|
  {
    if items != [] {
      assert LinesResolve(items, edgeKeys, gkey) <==>
        ((items[0].LineGeometry? ==> gkey(Midpoint(items[0].line.start, items[0].line.end)) in edgeKeys)
         && LinesResolve(items[1..], edgeKeys, gkey)) by {
        assert forall j :: 1 <= j < |items| ==> items[j] == items[1..][j - 1];
      }
      var r := ApplyGeometry(t, name, items[0], edgeKeys, vertexKeys, gkey);
      if r.Ok? {
        ItemsSucceed(r.value, name, items[1..], edgeKeys, vertexKeys, gkey);
      }
    }
  }

  /** The network state the attribute loop reads and writes. */
  function TablesOf(network: CellNetwork): Tables
    reads network
  {
    Tables(network.edgeAttributes, network.faces, network.faceAttributes)
  }

  /** The attribute loop of the script, writing into the network. */
  method AssignAttributes(network: CellNetwork, layers: seq<Layer>, edgeKeys: map<string, NodePair>,
                          vertexKeys: map<string, int>, gkey: Point -> string) returns (result: Result<()>)
    requires network.Valid()
    modifies network
    ensures network.Valid()
    ensures result.Ok? <==> ApplyLayers(old(TablesOf(network)), layers, edgeKeys, vertexKeys, gkey).Ok?
    ensures result.Err? ==> result.error == ApplyLayers(old(TablesOf(network)), layers, edgeKeys, vertexKeys, gkey).error
    ensures result.Ok? ==> TablesOf(network) == ApplyLayers(old(TablesOf(network)), layers, edgeKeys, vertexKeys, gkey).value
    ensures network.vertices == old(network.vertices) && network.edges == old(network.edges)
    ensures network.vertexAttributes == old(network.vertexAttributes) && network.attributes == old(network.attributes)
  {
    ghost var spec := ApplyLayers(TablesOf(network), layers, edgeKeys, vertexKeys, gkey);
    for i := 0 to |layers|
      invariant network.Valid()
      invariant spec == ApplyLayers(TablesOf(network), layers[i..], edgeKeys, vertexKeys, gkey)
      invariant network.vertices == old(network.vertices) && network.edges == old(network.edges)
      invariant network.vertexAttributes == old(network.vertexAttributes) && network.attributes == old(network.attributes)
    {
      assert layers[i..][1..] == layers[i + 1..];
      var name := AttributeName(layers[i].key);
      if name.Err? {
        return Err(name.error);
      }
      var r := ApplyLayerItems(network, name.value, layers[i].items, edgeKeys, vertexKeys, gkey);
      if r.Err? {
        return r;
      }
    }
    return Ok(());
  }

  /** The item loop of one layer. */
  method ApplyLayerItems(network: CellNetwork, name: string, items: seq<Geometry>, edgeKeys: map<string, NodePair>,
                         vertexKeys: map<string, int>, gkey: Point -> string) returns (result: Result<()>)
    requires network.Valid()
    modifies network
    ensures network.Valid()
    ensures result.Ok? <==> ApplyItems(old(TablesOf(network)), name, items, edgeKeys, vertexKeys, gkey).Ok?
    ensures result.Err? ==> result.error == ApplyItems(old(TablesOf(network)), name, items, edgeKeys, vertexKeys, gkey).error
    ensures result.Ok? ==> TablesOf(network) == ApplyItems(old(TablesOf(network)), name, items, edgeKeys, vertexKeys, gkey).value
    ensures network.vertices == old(network.vertices) && network.edges == old(network.edges)
    ensures network.vertexAttributes == old(network.vertexAttributes) && network.attributes == old(network.attributes)
  {
    ghost var spec := ApplyItems(TablesOf(network), name, items, edgeKeys, vertexKeys, gkey);
    for j := 0 to |items|
      invariant network.Valid()
      invariant spec == ApplyItems(TablesOf(network), name, items[j..], edgeKeys, vertexKeys, gkey)
      invariant network.vertices == old(network.vertices) && network.edges == old(network.edges)
      invariant network.vertexAttributes == old(network.vertexAttributes) && network.attributes == old(network.attributes)
    {
      assert items[j..][1..] == items[j + 1..];
      match items[j]
      case LineGeometry(g) =>
        var k := gkey(Midpoint(g.start, g.end));
        if k !in edgeKeys {
          return Err(KeyError);
        }
        network.SetEdgeAttribute(edgeKeys[k], name, Flag(true));
      case MeshGeometry(g) =>
        var v := ResolveVertices(vertexKeys, g.points, gkey);
        if |v| == 4 {
          var key := network.AddFace(v, map[name := Flag(true)]);
        }
    }
    return Ok(());
  }

  /** The edge dictionary after the first n edges: the key of each edge's midpoint, a later edge overwriting an earlier one. */
  function EdgeKeyMap(g: Graph, gkey: Point -> string, n: nat): (m: map<string, NodePair>)
    requires n <= |g.edges|
    requires forall i :: 0 <= i < |g.edges| ==> IsNode(g, g.edges[i].0) && IsNode(g, g.edges[i].1)
  {
    if n == 0 then map[]
    else
      var e := g.edges[n - 1];
      EdgeKeyMap(g, gkey, n - 1)[gkey(Midpoint(g.xyz[e.0], g.xyz[e.1])) := e]
  }

  /** Every entry of the edge dictionary is a graph edge filed under its own midpoint key. */
  lemma {:induction false} EdgeKeysAreEdges(g: Graph, gkey: Point -> string, n: nat)
    requires n <= |g.edges|
    requires forall i :: 0 <= i < |g.edges| ==> IsNode(g, g.edges[i].0) && IsNode(g, g.edges[i].1)
    ensures forall k :: k in EdgeKeyMap(g, gkey, n) ==>
      var e := EdgeKeyMap(g, gkey, n)[k];
      e in g.edges[..n] && IsNode(g, e.0) && IsNode(g, e.1) && gkey(Midpoint(g.xyz[e.0], g.xyz[e.1])) == k
    ensures forall i :: 0 <= i < n ==> var e := g.edges[i];
      IsNode(g, e.0) && IsNode(g, e.1) && gkey(Midpoint(g.xyz[e.0], g.xyz[e.1])) in EdgeKeyMap(g, gkey, n)
  {
    if n > 0 {
      EdgeKeysAreEdges(g, gkey, n - 1);
      assert g.edges[..n] == g.edges[..n - 1] + [g.edges[n - 1]];
    }
  }

  /** The vertex and edge loops of the script: the network copies the graph and both key dictionaries are filled. */
  method NetworkOfGraph(graph: Graph, gkey: Point -> string)
    returns (network: CellNetwork, vertexKeys: map<string, int>, edgeKeys: map<string, NodePair>)
    requires GraphOK(graph)
    ensures fresh(network) && network.Valid()
    ensures network.vertices == graph.xyz && network.edges == graph.edges
    ensures network.faces == [] && network.vertexAttributes == map[] && network.edgeAttributes == map[]
    ensures network.attributes == map[]
    ensures vertexKeys == KeyMap(graph.xyz, gkey, |graph.xyz|)
    ensures edgeKeys == EdgeKeyMap(graph, gkey, |graph.edges|)
  {
    network := new CellNetwork();
    vertexKeys := AddNodes(network, graph, gkey);
    edgeKeys := map[];
    for i := 0 to |graph.edges|
      invariant network.Valid() && network.vertices == graph.xyz && network.edges == graph.edges[..i]
      invariant network.faces == [] && network.vertexAttributes == map[] && network.edgeAttributes == map[]
      invariant network.attributes == map[]
      invariant edgeKeys == EdgeKeyMap(graph, gkey, i)
    {
      var uv := graph.edges[i];
      network.AddEdge(uv.0, uv.1);
      edgeKeys := edgeKeys[gkey(Midpoint(graph.xyz[uv.0], graph.xyz[uv.1])) := uv];
      assert graph.edges[..i + 1] == graph.edges[..i] + [uv];
    }
    assert graph.edges[..|graph.edges|] == graph.edges;
  }
}
