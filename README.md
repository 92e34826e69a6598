# compas_grid in Dafny

compas_grid turns the column, beam and floor geometry of a building into a
structural grid model and cuts the model's elements against each other.
This project models the combinatorial core of that pipeline and proves what
the code promises about it:

- **Column heads.** `Directions`, `ColumnHeadRules`, `ColumnHeadMesh`,
  `ColumnHeadShape` and `ColumnHeadScript` cover the eight directions
  around a junction, the cardinal-to-diagonal table, and the snapping of a
  vector to a cardinal direction. They also cover the 8-flag rule vector
  of a junction, the column-head mesh synthesised from it, and the
  singleton that caches one mesh per rule vector. Proved: every reachable
  rule vector has a neighbouring cardinal flag beside each diagonal one,
  so the class's fix-up loop never runs. Also proved: every face index is
  below 16, exactly one face is tagged with each active direction, and the
  mesh is closed (each edge lies in exactly two faces). The working script
  in temp/ is modelled beside the class, with its worked example.
- **Topology.** `CellNetworkModel` covers CellNetwork.from_lines_and_surfaces.
  `CreaNetwork`, `CreaLevels` and `CreaModel` cover the CREA example script:
  canonical line orientation, is_<layer> flags, the u/v/w grid levels, and
  the model the script builds.
- **Grid model.** `ModelGraph`, `GridModelBuild` and `GridModelLoops` cover
  GridModel.from_lines_and_surfaces. The model is a list of elements and a
  record of directed (cutter, target, kind) interactions. Specification
  functions give the state after each nested add_* helper. A `GridBuilder`
  object runs the same loops on dictionaries and is proved to reach that
  state. The six templates default to None, and a missing one raises
  AttributeError where the builder first uses it. Two call patterns are
  proved to raise. With only lines and surfaces, as the examples call it,
  any column raises. Without a cutter model, as docs/examples/json_to_grid.py
  calls it, any column raises too.
- **Cut pipeline.** `CutPipeline`, `ElementState`, `InterfaceCutter` and
  `ColumnHeadElement` cover how an element's model geometry folds the
  incoming interface interactions, the is_dirty flag and the geometry
  caches, the interface cutter's in-place update, and the column-head
  element with its serialisation.
- **Extruded elements.** `Prism`, `Sections`, `SectionElements`,
  `PlateElements`, `TaperedBeams`, `BeamElements`, `CableElements`,
  `CableDispatch`, `PyStrings` and `CableShapes` cover the
  [reversed bottom] + [top] + side-quad face scheme, which is proved
  closed and consistently oriented. They also cover the section cuts with
  their ValueError, the T-profile clamping, the `extend` arithmetic, the
  cable's add_modifier dispatch, and the aliasing in element_cable.py.
- **Slab helpers.** `Loft` and `SlabScript` cover the loft, slicing,
  rib-line and smoothing helpers of docs/examples/triangular_slab.py.
  tests/triangular_slab.py:42-76 repeats loft_two_polygons and
  tests/triangular_slab.py:185-200 repeats the two-stage slicing inline,
  so `Loft.LoftTwoPolygons` and `SlabScript.BeamShapes` model those lines
  too.

Geometry is modelled with reals. Calls into the geometry library are
parameters of the members that make them: a record of functions or a
function argument. These calls are mesh slicing, the boolean difference,
ear clipping, line-plane intersection, transformations, bounding-box
volumes, Graph.from_lines and the geometric key. Python exceptions are the
`Err` case of a `Result`. Where the code mutates an object, the model is a
class whose methods are proved to leave the state a specification function
gives.

## Model

| member | source | states |
|---|---|---|
| Directions.Combine | src/compas_grid/shapes/shape_column_head.py:58-68 | defined exactly for two cardinal directions a quarter turn apart, in either order; the result is the diagonal between them; every other pair is a KeyError |
| Directions.CombineIsSymmetric | temp/connected_components.py:66-76 | the combination table gives the same answer for (d1, d2) and (d2, d1) |
| Directions.FirstMaxIndexIsFirstMax | src/compas_grid/shapes/shape_column_head.py:185 | `max(d, key=d.get)` returns a position holding the maximum, and no earlier position holds it |
| Directions.DirectionOf | temp/direction_check.py:36-46 | a zero vector raises ZeroDivisionError (unitize); any other vector gives the closest cardinal direction |
| Directions.ClosestRegions | temp/direction_check.py:12-17 | north iff y >= x and y >= -x, east iff x > y and x >= -y, south iff -y > x and y <= x, west iff -x > y and x < y: the largest dot product, ties going to the earlier of N, E, S, W |
| Directions.ClosestIsScaleInvariant | temp/direction_check.py:36-42 | scaling the vector by a positive factor (as unitize does) never changes the result |
| Directions.ClosestOfUnitVectors | temp/direction_check.py:49-57 | each cardinal unit vector maps to its own direction; a vertical vector maps to north |
| Directions.VectorCell.Unitize | src/compas_grid/shapes/shape_column_head.py:177 | the caller's vector is divided by its length in place; a zero vector raises ZeroDivisionError and is unchanged |
| Directions.ClosestDirection | src/compas_grid/shapes/shape_column_head.py:176-187 | the result is DirectionOf of the vector as passed in, and the caller's vector is left unitized |
| ColumnHeadRules.EdgeDirection | src/compas_grid/shapes/shape_column_head.py:219-222 | the direction recorded for an edge with two known distinct end points is a cardinal one |
| ColumnHeadRules.FaceDirection | src/compas_grid/shapes/shape_column_head.py:229-245 | a face whose known edges are not exactly two raises ValueError |
| ColumnHeadRules.ScanEdgesOutcome | src/compas_grid/shapes/shape_column_head.py:213-217 | the edge loop succeeds iff every edge can be handled; otherwise the first edge it cannot handle decides the error |
| ColumnHeadRules.ScanEdgesDirections | src/compas_grid/shapes/shape_column_head.py:225-227 | after the edge loop, edge_directions holds each edge in both orientations with its direction, later edges overwriting earlier ones |
| ColumnHeadRules.ScanEdgesRules | src/compas_grid/shapes/shape_column_head.py:222-223 | after the edge loop, a flag is set iff some edge points in that direction |
| ColumnHeadRules.DirectionMapValues | src/compas_grid/shapes/shape_column_head.py:226-227 | every value of edge_directions is the direction of some handled edge |
| ColumnHeadRules.ScanFacesOutcome | src/compas_grid/shapes/shape_column_head.py:229-245 | the face loop succeeds iff every face resolves to a direction |
| ColumnHeadRules.ScanFacesState | src/compas_grid/shapes/shape_column_head.py:244-245 | the face loop adds exactly the faces' directions to the flags the edges set |
| ColumnHeadRules.RulesCharacterised | src/compas_grid/shapes/shape_column_head.py:209-247 | on success a cardinal flag is set iff an edge points that way, and a diagonal flag iff a face lies between two edges in that diagonal |
| ColumnHeadRules.GenerateRulesSucceeds | src/compas_grid/shapes/shape_column_head.py:213-247 | _generate_rules succeeds iff every edge is handled and every face resolves; the only errors are ValueError, ZeroDivisionError and KeyError |
| ColumnHeadRules.GeneratedRulesAreConsistent | src/compas_grid/shapes/shape_column_head.py:296-299 | every diagonal flag the rules carry comes with both neighbouring cardinal flags, so the fix-up loop never changes anything and the tuple assignment at line 299 never runs |
| ColumnHeadRules.FoundAreRecorded | src/compas_grid/shapes/shape_column_head.py:231-238 | every direction collected around a face is a value of edge_directions |
| ColumnHeadRules.FixedUp | temp/connected_components.py:236-239 | the fix-up keeps every cardinal flag and keeps a diagonal flag iff both its neighbouring cardinals are set; its result is consistent |
| ColumnHeadRules.FixedUpIsIdentityOnConsistent | temp/connected_components.py:236-239 | the fix-up changes nothing iff the rules are already consistent |
| ColumnHeadScript.GenerateRulesList | temp/connected_components.py:140-201 | generate_rules raises exactly what the class version raises, and otherwise returns a fresh mutable list holding the same flags |
| ColumnHeadScript.FixUp | temp/connected_components.py:236-239 | the list is changed in place into FixedUp of its old contents |
| ColumnHeadScript.FixUpClears | temp/connected_components.py:236-239 | a diagonal flag missing a neighbouring cardinal is cleared, cardinal flags never change, and consistent lists are left alone |
| ColumnHeadScript.RunScript | temp/connected_components.py:203-308 | the script fails exactly when generate_rules does; otherwise its vertices and faces are those of the class's mesh for the same rules with dimensions 150/150/300/210, the tags dropped |
| ColumnHeadScript.ExampleEdgeDirections | temp/connected_components.py:119-132 | in the worked example the edge (7, 8) points south and (7, 2) east |
| ColumnHeadScript.ExampleEdgeScan | temp/connected_components.py:164-179 | the example's edge loop sets south and east and records both edges in both orientations |
| ColumnHeadScript.ExampleFaceDirection | temp/connected_components.py:182-198 | the example's face [2, 7, 8, 10] meets the east then the south edge and resolves to south-east |
| ColumnHeadScript.ExampleRules | temp/connected_components.py:203 | the worked example yields exactly SOUTH, SOUTH_EAST and EAST |
| ColumnHeadScript.ExampleFaces | temp/connected_components.py:241-305 | the example's faces are the two base quads, two faces each for south, south-east and east, the closing triangles at outer vertices 4 and 7, and the inner walls under north and west |
| ColumnHeadScript.ExampleHeadFaces | src/compas_grid/shapes/shape_column_head.py:304-368 | in the class version the example's tagged faces are the top faces of south, south-east and east |
| ColumnHeadMesh.Ceil | src/compas_grid/shapes/shape_column_head.py:349 | `ceil` of a real is the least integer not below it |
| ColumnHeadMesh.InnerVertex | src/compas_grid/shapes/shape_column_head.py:349 | `int(ceil(j * 0.5)) % 4 + 8` always names an inner-quad vertex, 8..11 |
| ColumnHeadMesh.InnerVertexIsSpoke | src/compas_grid/shapes/shape_column_head.py:349 | the ceil formula agrees with the integer formula Spoke for every outer vertex |
| ColumnHeadMesh.HeadVertices | src/compas_grid/shapes/shape_column_head.py:273-293 | there are sixteen vertices |
| ColumnHeadMesh.TopQuadIsLifted | src/compas_grid/shapes/shape_column_head.py:283-292 | the top quad 12..15 is the inner quad 8..11 lifted by the height, and every other vertex lies at -height |
| ColumnHeadMesh.OuterRingLayout | src/compas_grid/shapes/shape_column_head.py:274-282 | each outer vertex is its inner vertex pushed out by the offset towards the cardinal direction of its arm |
| ColumnHeadMesh.DirectionBlock | src/compas_grid/shapes/shape_column_head.py:308-338 | an active direction d adds its bottom face then its top face, and an inactive one adds nothing |
| ColumnHeadMesh.ClosingBlock | src/compas_grid/shapes/shape_column_head.py:343-359 | step i of the closing loop adds the triangle at i when i is inactive and i - 1 active, then the one at i + 1 when i is inactive and i + 1 active |
| ColumnHeadMesh.WallBlock | src/compas_grid/shapes/shape_column_head.py:362-368 | step k of the wall loop adds the wall under side k exactly when cardinal 2k is inactive |
| ColumnHeadMesh.RemoveUnused | src/compas_grid/shapes/shape_column_head.py:370 | remove_unused_vertices keeps exactly the vertices some face uses, with their points |
| ColumnHeadMesh.Keyed | src/compas_grid/shapes/shape_column_head.py:306 | from_vertices_and_faces numbers the vertex list from 0 |
| ColumnHeadMesh.MeshFor | src/compas_grid/shapes/shape_column_head.py:296-371 | the fix-up assignment on the rules tuple raises TypeError exactly when the rules are not consistent; otherwise the faces are HeadFaces in the order they are added |
| ColumnHeadMesh.HeadFacesClosed | src/compas_grid/shapes/shape_column_head.py:340-368 | with consistent rules every edge of every face lies in exactly two faces: the closing triangles and inner walls close the surface |
| ColumnHeadMesh.FacesWhere | src/compas_grid/shapes/shape_column_head.py:310 | faces_where returns, in increasing order, exactly the keys of the faces tagged with the direction |
| ColumnHeadMesh.TaggedFace | src/compas_grid/shapes/shape_column_head.py:308-338 | exactly one face carries direction d when d is active and none otherwise, and it is d's top face |
| ColumnHeadMesh.HeadFaceIndices | src/compas_grid/shapes/shape_column_head.py:301-368 | every face index lies in 0..15 |
| ColumnHeadMesh.UsedVertices | src/compas_grid/shapes/shape_column_head.py:370 | a vertex is used iff it belongs to the column (8..15) or is an end of an active direction's outer edge |
| ColumnHeadMesh.MeshVertices | src/compas_grid/shapes/shape_column_head.py:370-371 | the returned mesh keeps exactly the column vertices and the outer vertices of the active directions, with their points |
| ColumnHeadShape.ScanEdgesErrorStays | src/compas_grid/shapes/shape_column_head.py:213-217 | once the edge loop has raised, later edges change nothing |
| ColumnHeadShape.ScanFacesErrorStays | src/compas_grid/shapes/shape_column_head.py:241-242 | once the face loop has raised, later faces change nothing |
| ColumnHeadShape.ColumnHeadCrossShape.constructor | src/compas_grid/shapes/shape_column_head.py:121-128 | a new instance starts uninitialized, with an empty mesh cache and no last mesh |
| ColumnHeadShape.ColumnHeadCrossShape.Mesh | src/compas_grid/shapes/shape_column_head.py:373-375 | the mesh property is set iff something is cached, and it is the mesh of one of the cached rule keys |
| ColumnHeadShape.ColumnHeadCrossShape.GenerateRulesOf | src/compas_grid/shapes/shape_column_head.py:189-247 | the loops compute GenerateRules, and the rules they return are consistent |
| ColumnHeadShape.ColumnHeadCrossShape.GenerateMesh | src/compas_grid/shapes/shape_column_head.py:266-267 | rules already cached return the stored mesh; otherwise the mesh is MeshOf the rules and the current dimensions |
| ColumnHeadShape.ColumnHeadCrossShape.Init | src/compas_grid/shapes/shape_column_head.py:130-148 | dimensions are written only while not yet initialized; on success the rules' mesh is cached and becomes the last mesh; an exception leaves cache, last mesh and the initialized mark unchanged |
| ColumnHeadShape.ScanEdgesLoop | src/compas_grid/shapes/shape_column_head.py:213-227 | the edge loop computes ScanEdges over all edges |
| ColumnHeadShape.FaceEdgeDirectionsLoop | src/compas_grid/shapes/shape_column_head.py:230-238 | the inner loop collects the recorded directions of the face's known edges, in order |
| ColumnHeadShape.ScanFacesLoop | src/compas_grid/shapes/shape_column_head.py:229-245 | the face loop computes ScanFaces over all faces |
| ColumnHeadShape.BuildFaces | src/compas_grid/shapes/shape_column_head.py:301-368 | for consistent rules the faces added are exactly HeadFaces, in order |
| ColumnHeadShape.AddDirectionFaces | src/compas_grid/shapes/shape_column_head.py:308-338 | the eight direction blocks add the slot faces 2..17 |
| ColumnHeadShape.AddDirection | src/compas_grid/shapes/shape_column_head.py:308-310 | one direction block adds its bottom then its tagged top face when active |
| ColumnHeadShape.AddClosingFaces | src/compas_grid/shapes/shape_column_head.py:343-359 | the closing loop adds the slot faces 18..33 |
| ColumnHeadShape.AddClosing | src/compas_grid/shapes/shape_column_head.py:344-359 | one step of the closing loop adds the slot faces 18 + 2i and 19 + 2i |
| ColumnHeadShape.AddWallFaces | src/compas_grid/shapes/shape_column_head.py:362-368 | the wall loop adds the slot faces 34..37 |
| ColumnHeadShape.ColumnHeadCrossShapeClass.constructor | src/compas_grid/shapes/shape_column_head.py:121 | the class starts with no instance |
| ColumnHeadShape.ColumnHeadCrossShapeClass.Call | src/compas_grid/shapes/shape_column_head.py:125-148 | every call returns the one shared instance, created on the first call only; the dimensions are those of the first completed construction; the result and the cache follow Init |
| CellNetworkModel.CellNetwork.constructor | src/compas_grid/datastructures/cell_network.py:51 | `cls()` starts with no vertices, edges, faces or attributes |
| CellNetworkModel.CellNetwork.AddVertex | src/compas_grid/datastructures/cell_network.py:57 | add_vertex appends the point and returns the next key; nothing else changes |
| CellNetworkModel.CellNetwork.AddEdge | src/compas_grid/datastructures/cell_network.py:62 | add_edge appends the pair; nothing else changes |
| CellNetworkModel.CellNetwork.AddFace | src/compas_grid/datastructures/cell_network.py:92 | add_face appends the vertex list with its attribute dictionary and returns the next key; nothing else changes |
| CellNetworkModel.CellNetwork.SetVertexAttribute | src/compas_grid/datastructures/cell_network.py:76 | vertex_attribute sets one entry of one vertex's dictionary; nothing else changes |
| CellNetworkModel.CellNetwork.SetEdgeAttribute | src/compas_grid/datastructures/cell_network.py:86 | edge_attribute sets one entry of one edge's dictionary; nothing else changes |
| CellNetworkModel.CellNetwork.SetFaceAttribute | docs/examples/crea_json_to_cell_network.py:176 | face_attribute on an existing face sets one entry of its dictionary; nothing else changes |
| CellNetworkModel.CellNetwork.SetAttribute | docs/examples/crea_json_to_cell_network.py:178 | `attributes[name] = value` sets one entry of the network's own dictionary; nothing else changes |
| CellNetworkModel.Set | src/compas_grid/datastructures/cell_network.py:76 | after setting, the name maps to the value and every other entry of that dictionary is as before |
| CellNetworkModel.InputLinesLayout | src/compas_grid/datastructures/cell_network.py:39-44 | the graph input is the user's lines in order, then each floor's edges in order, none reoriented: line j of floor k sits after the user's lines and the earlier floors' edges |
| CellNetworkModel.FloorLineAt | src/compas_grid/datastructures/cell_network.py:42-44 | line j of floor k sits at the count of the earlier floors' lines plus j |
| CellNetworkModel.FloorLinesLayout | src/compas_grid/datastructures/cell_network.py:42-44 | the floor edges appear floor after floor, each at its computed position |
| CellNetworkModel.CollectLines | src/compas_grid/datastructures/cell_network.py:37-44 | the two collecting loops produce InputLines |
| CellNetworkModel.KeyMapIsLastNode | src/compas_grid/datastructures/cell_network.py:55-58 | a geometric key is present iff some node has it, and it maps to the last node with that key |
| CellNetworkModel.Threshold | src/compas_grid/datastructures/cell_network.py:74 | 1 / max(1, tolerance) lies in (0, 1] |
| CellNetworkModel.KeepHorizontal | src/compas_grid/datastructures/cell_network.py:73-75 | a candidate is kept iff its height differs from u's by less than the threshold |
| CellNetworkModel.NeighborsAreNodes | src/compas_grid/datastructures/cell_network.py:73 | every graph neighbour of a node is a node |
| CellNetworkModel.EdgeKind | src/compas_grid/datastructures/cell_network.py:83-86 | every edge gets exactly one of is_beam and is_column, is_beam iff the height difference is below the threshold |
| CellNetworkModel.NeighborsSymmetric | src/compas_grid/datastructures/cell_network.py:68-76 | w is a horizontal neighbour of u iff u is one of w |
| CellNetworkModel.NeighborIffBeam | src/compas_grid/datastructures/cell_network.py:74-86 | w is a horizontal neighbour of u iff an edge joins them and that edge is classified is_beam |
| CellNetworkModel.Resolved | src/compas_grid/datastructures/cell_network.py:90-91 | a floor face keeps only vertices whose geometric key resolves, never more than the mesh has, and no length check |
| CellNetworkModel.ResolveVertices | src/compas_grid/datastructures/cell_network.py:91 | the comprehension computes Resolved |
| CellNetworkModel.CollectNeighbors | src/compas_grid/datastructures/cell_network.py:69-75 | the neighbour loop collects exactly the horizontal neighbours, in graph order |
| CellNetworkModel.FromLinesAndSurfaces | src/compas_grid/datastructures/cell_network.py:37-94 | one vertex per node at its point, the graph's edges one-for-one, the key map, every vertex's neighbours, every edge classified, and one is_floor face per floor mesh |
| CellNetworkModel.AddNodes | src/compas_grid/datastructures/cell_network.py:55-58 | the vertex loop adds the nodes' points and builds KeyMap; nothing else changes |
| CellNetworkModel.AddGraphEdges | src/compas_grid/datastructures/cell_network.py:61-62 | the edge loop appends the graph's edges; nothing else changes |
| CellNetworkModel.SetNeighbors | src/compas_grid/datastructures/cell_network.py:68-76 | every vertex gets exactly its horizontal neighbours under "neighbors" |
| CellNetworkModel.ClassifyEdges | src/compas_grid/datastructures/cell_network.py:83-86 | every graph edge gets exactly one flag, is_beam or is_column |
| CellNetworkModel.AddFloors | src/compas_grid/datastructures/cell_network.py:89-92 | face k is floor k's resolved vertex list with is_floor set |
| CellNetworkModel.EdgesFlagged | src/compas_grid/models/model_grid.py:113-114 | edges_where returns exactly the edges whose flag is True, never more than there are edges |
| CellNetworkModel.FacesFlagged | src/compas_grid/models/model_grid.py:115 | faces_where returns exactly the face keys whose flag is True, ascending |
| CreaNetwork.CreateOrderedLine | docs/examples/crea_json_to_cell_network.py:37-65 | create_ordered_line keeps the two end points and orders them so the start is not after the end, comparing z, then x, then y |
| CreaNetwork.OrderedLineIsStable | docs/examples/crea_json_to_cell_network.py:37-65 | ordering an ordered line again gives the same line |
| CreaNetwork.OrderedLineIgnoresOrientation | docs/examples/crea_json_to_cell_network.py:35-65 | the line drawn either way round gives the same ordered line ("do not rely on the direction") |
| CreaNetwork.ItemLines | docs/examples/crea_json_to_cell_network.py:73-79 | an item fails iff its kind differs from the layer's first item; a line gives its ordered line, a mesh one line per mesh edge |
| CreaNetwork.OrderedLines | docs/examples/crea_json_to_cell_network.py:78-79 | every mesh edge is replaced by its ordered line, in order |
| Base.Then | docs/examples/crea_json_to_cell_network.py:69-79 | two results joined succeed iff both do, with the lists concatenated; otherwise the first error |
| Base.ThenEmpty | docs/examples/crea_json_to_cell_network.py:69 | starting from the empty list changes nothing |
| Base.ThenAppend | docs/examples/crea_json_to_cell_network.py:69-79 | appending in two steps equals appending once |
| CreaNetwork.ScriptLinesAreOrdered | docs/examples/crea_json_to_cell_network.py:69-81 | every line handed to Graph.from_lines runs upward in (z, x, y) order |
| CreaNetwork.LayerLinesAreOrdered | docs/examples/crea_json_to_cell_network.py:73-79 | every line one layer contributes runs upward in (z, x, y) order |
| CreaNetwork.UniformLayerSucceeds | docs/examples/crea_json_to_cell_network.py:73-79 | a layer whose items all share its first item's kind never fails |
| CreaNetwork.CollectScriptLines | docs/examples/crea_json_to_cell_network.py:69-79 | the layer loop, with its skip of empty layers, computes ScriptLines |
| CreaNetwork.CollectLayerLines | docs/examples/crea_json_to_cell_network.py:73-79 | the item loop of one layer computes LayerLines |
| CreaNetwork.OrderMeshLines | docs/examples/crea_json_to_cell_network.py:78-79 | the loop over mesh.to_lines() computes OrderedLines |
| CreaNetwork.FindSeparator | docs/examples/crea_json_to_cell_network.py:112 | the first "::" at or after a position, and none before it; None iff there is none |
| CreaNetwork.AttributeName | docs/examples/crea_json_to_cell_network.py:112-113 | the name is "is_" + the lower-cased second part; it fails with IndexError iff the key has no "::" |
| CreaNetwork.AttributeNameOfParts | docs/examples/crea_json_to_cell_network.py:112-113 | splitting undoes joining: "A::B" (and more parts) gives "is_" + lower(B) |
| CreaNetwork.NoSeparatorIn | docs/examples/crea_json_to_cell_network.py:112 | a stretch free of ':' has no separator starting inside it |
| CreaNetwork.FindSeparatorSkips | docs/examples/crea_json_to_cell_network.py:112 | the search can start past positions known to hold no separator |
| CreaNetwork.MidpointSymmetric | docs/examples/crea_json_to_cell_network.py:103-119 | the midpoint key of a line does not depend on its orientation, so edge_midpoint and midpoint_line agree |
| CreaNetwork.ApplyGeometry | docs/examples/crea_json_to_cell_network.py:115-129 | a line flags the edge its midpoint key names, failing with KeyError iff no edge has that key; a mesh adds a face iff exactly four of its vertex keys resolve, with only the layer flag |
| CreaNetwork.ResolvedAreKeys | docs/examples/crea_json_to_cell_network.py:126 | every resolved face vertex is a vertex of the network |
| CreaNetwork.ItemsGrowFaces | docs/examples/crea_json_to_cell_network.py:115-129 | the faces one layer adds are quads of resolved vertices with a single is_ flag; earlier faces stay |
| CreaNetwork.FacesGrowTransitive | docs/examples/crea_json_to_cell_network.py:111-129 | face growth composes across layers |
| CreaNetwork.FacesGrowReflexive | docs/examples/crea_json_to_cell_network.py:111-129 | a layer adding nothing keeps the faces |
| CreaNetwork.LayersGrowFaces | docs/examples/crea_json_to_cell_network.py:111-129 | every face the attribute loop adds is a quad of resolved vertices carrying one is_ flag |
| CreaNetwork.LayersSucceed | docs/examples/crea_json_to_cell_network.py:111-129 | the attribute loop succeeds iff every key has a "::" and every line's midpoint names an edge; otherwise IndexError or KeyError |
| CreaNetwork.ItemsSucceed | docs/examples/crea_json_to_cell_network.py:115-122 | one layer succeeds iff every line's midpoint names an edge; otherwise KeyError |
| CreaNetwork.AssignAttributes | docs/examples/crea_json_to_cell_network.py:111-129 | the attribute loop writes ApplyLayers' tables into the network, or raises its error; vertices, edges and the rest stay |
| CreaNetwork.ApplyLayerItems | docs/examples/crea_json_to_cell_network.py:115-129 | the item loop writes ApplyItems' tables into the network, or raises its error |
| CreaNetwork.EdgeKeysAreEdges | docs/examples/crea_json_to_cell_network.py:100-103 | every entry of the edge dictionary is a graph edge filed under its own midpoint key, and every edge's key is present |
| CreaNetwork.NetworkOfGraph | docs/examples/crea_json_to_cell_network.py:89-103 | the network copies the graph's nodes and edges with no attributes, and the two key dictionaries are KeyMap and EdgeKeyMap |
| CreaLevels.NodeValues | docs/examples/crea_json_to_cell_network.py:154-155 | one rounded coordinate per node |
| CreaLevels.ValueSet | docs/examples/crea_json_to_cell_network.py:153-158 | the distinct values are exactly the values present |
| CreaLevels.IndexOf | docs/examples/crea_json_to_cell_network.py:162 | the position of a value in a list holding it |
| CreaLevels.IndexOfIsUnique | docs/examples/crea_json_to_cell_network.py:162 | in a strictly increasing list the position of s[i] is i |
| CreaLevels.Insert | docs/examples/crea_json_to_cell_network.py:160 | inserting keeps the list strictly increasing and adds exactly x |
| CreaLevels.SortKeys | docs/examples/crea_json_to_cell_network.py:160 | sorted() of the dictionary's keys: strictly increasing and holding exactly the keys |
| CreaLevels.NodesWithMembers | docs/examples/crea_json_to_cell_network.py:154-158 | a node is listed under x iff it has value x |
| CreaLevels.NodesWithAbsent | docs/examples/crea_json_to_cell_network.py:156-157 | a value no node has lists no nodes |
| CreaLevels.GroupByValue | docs/examples/crea_json_to_cell_network.py:153-158 | coord_dict has exactly the values as keys, each mapped to its nodes in node order |
| CreaLevels.LevelOf | docs/examples/crea_json_to_cell_network.py:162-164 | a node's level is below the number of distinct values |
| CreaLevels.LevelsOrderValues | docs/examples/crea_json_to_cell_network.py:160-164 | a smaller value has a smaller level and equal values share a level, both directions |
| CreaLevels.EveryLevelIsHeld | docs/examples/crea_json_to_cell_network.py:162-164 | every level below the count is held by some node |
| CreaLevels.CountIsDistinctValues | docs/examples/crea_json_to_cell_network.py:178 | max_<attr> is the number of distinct rounded values |
| CreaLevels.DistinctCount | docs/examples/crea_json_to_cell_network.py:178 | a strictly increasing list has as many distinct values as entries |
| CreaLevels.Levels | docs/examples/crea_json_to_cell_network.py:162-164 | the level of every node, one per node |
| CreaLevels.EdgeLevelsAreMinima | docs/examples/crea_json_to_cell_network.py:167-170 | every edge gets min of its ends' levels; its other attributes and other edges stay |
| CreaLevels.MinOf | docs/examples/crea_json_to_cell_network.py:176 | min of a non-empty list is in it and below every entry |
| CreaLevels.FaceLevels | docs/examples/crea_json_to_cell_network.py:174-175 | the face's vertex levels in face order |
| CreaLevels.PartitionAndAssign | docs/examples/crea_json_to_cell_network.py:137-178 | nodes take the level of their rounded coordinate, edges the lower level of their ends, faces the lowest level of their vertices, max_<name> the number of levels |
| CreaLevels.NodeValuesLoop | docs/examples/crea_json_to_cell_network.py:154-155 | the node loop computes NodeValues |
| CreaLevels.AssignVertexLevels | docs/examples/crea_json_to_cell_network.py:162-164 | every node gets its level under the name; nothing else changes |
| CreaLevels.AssignOneLevel | docs/examples/crea_json_to_cell_network.py:163-164 | the nodes of one entry get that entry's level |
| CreaLevels.SetTwice | docs/examples/crea_json_to_cell_network.py:164 | setting the same value twice is setting it once |
| CreaLevels.AssignEdgeLevels | docs/examples/crea_json_to_cell_network.py:167-170 | the edge loop leaves EdgeLevels; nothing else changes |
| CreaLevels.AssignFaceLevels | docs/examples/crea_json_to_cell_network.py:173-176 | every face gets the lowest level of its vertices; nothing else changes |
| CreaLevels.AssignGridAttributes | docs/examples/crea_json_to_cell_network.py:182-184 | u, v and w number the x, y and z positions, every vertex holds all three, and max_u, max_v, max_w count them |
| CreaModel.HeadVertex | docs/examples/crea_json_to_cell_network.py:227-231 | the head is the higher end of the column edge, edge[1] on a tie |
| CreaModel.BaseVertex | docs/examples/crea_json_to_cell_network.py:285-291 | the base is the other end, not above the head |
| CreaModel.SideFaces | docs/examples/crea_json_to_cell_network.py:256-258 | for each i a quad then a triangle, all over the 12 vertices |
| CreaModel.HeadMeshShape | docs/examples/crea_json_to_cell_network.py:234-258 | the head mesh has 12 vertices and 10 faces: the octagon, the reversed square and four quad-triangle pairs |
| CreaModel.BuildHeadMesh | docs/examples/crea_json_to_cell_network.py:249-258 | the extend and append loop builds exactly those vertices and faces |
| CreaModel.HeadVertices | docs/examples/crea_json_to_cell_network.py:351-352 | the head vertex of every column edge, in order |
| CreaModel.IndexMapHolds | docs/examples/crea_json_to_cell_network.py:267 | the dictionary filled in a loop holds exactly the keys, each at its last position |
| CreaModel.IndexMapHasKeys | docs/examples/crea_json_to_cell_network.py:267 | every key is in the dictionary |
| CreaModel.ColumnInteractions | docs/examples/crea_json_to_cell_network.py:284-305 | an interaction from the head at the top (face_lowest) and one from the head at the base (face_highest) when present; KeyError iff a head is present and the column is not mapped |
| CreaModel.BeamInteractions | docs/examples/crea_json_to_cell_network.py:317-330 | one interaction per end that has a head; KeyError iff the beam is not mapped |
| CreaModel.FloorInteractionsCover | docs/examples/crea_json_to_cell_network.py:340-348 | every face vertex with a head gives an interaction to the plate, and nothing else does |
| Base.ThenAssociates | docs/examples/crea_json_to_cell_network.py:357-364 | joining interaction lists is associative |
| CreaModel.CreaScript.constructor | docs/examples/crea_json_to_cell_network.py:201-209 | an empty model with the four groups and three empty dictionaries |
| CreaModel.CreaScript.AddColumnHead | docs/examples/crea_json_to_cell_network.py:226-267 | add_column_head appends the head under column_heads and maps its vertex to it |
| CreaModel.CreaScript.AddColumn | docs/examples/crea_json_to_cell_network.py:270-281 | add_column appends the column under columns and maps its edge |
| CreaModel.CreaScript.AddBeam | docs/examples/crea_json_to_cell_network.py:308-314 | add_beam appends the beam under columns and maps its edge |
| CreaModel.CreaScript.AddColumnInteractions | docs/examples/crea_json_to_cell_network.py:284-305 | appends ColumnInteractions, or raises its KeyError with the interactions unchanged |
| CreaModel.CreaScript.AddBeamInteractions | docs/examples/crea_json_to_cell_network.py:317-330 | appends BeamInteractions, or raises its KeyError with the interactions unchanged |
| CreaModel.CreaScript.AddFloor | docs/examples/crea_json_to_cell_network.py:333-348 | add_floor appends a plate under columns and its FloorInteractions |
| CreaModel.CreaScript.AddColumnHeads | docs/examples/crea_json_to_cell_network.py:351-352 | the heads loop appends one head per column edge; a later edge with the same head vertex overwrites the map entry |
| CreaModel.CreaScript.AddColumns | docs/examples/crea_json_to_cell_network.py:354-355 | the columns loop appends one column per column edge |
| CreaModel.CreaScript.AddBeams | docs/examples/crea_json_to_cell_network.py:360-361 | the beams loop appends one beam per beam edge |
| CreaModel.CreaScript.AddAllColumnInteractions | docs/examples/crea_json_to_cell_network.py:357-358 | the loop appends every column's interactions |
| CreaModel.CreaScript.AddAllBeamInteractions | docs/examples/crea_json_to_cell_network.py:363-364 | the loop appends every beam's interactions |
| CreaModel.CreaScript.AddFloors | docs/examples/crea_json_to_cell_network.py:366-367 | the loop appends a plate and its interactions per floor face |
| CreaModel.UnionUpdate | docs/examples/crea_json_to_cell_network.py:267 | updating after a union is updating the right-hand map |
| CreaModel.Repeat | docs/examples/crea_json_to_cell_network.py:265 | n copies of the same parent |
| CreaModel.FlaggedEdgesIn | docs/examples/crea_json_to_cell_network.py:197-198 | the edges edges_where returns join vertices of the network |
| CreaModel.ColumnLoops | docs/examples/crea_json_to_cell_network.py:201-358 | after the three column loops the model holds heads then columns with their interactions |
| CreaModel.BeamLoops | docs/examples/crea_json_to_cell_network.py:360-364 | the two beam loops append the beams and their interactions |
| CreaModel.Run | docs/examples/crea_json_to_cell_network.py:351-367 | the model holds CreaElements in loop order, each under its group, with CreaInteractions |
| CreaModel.RunScript | docs/examples/crea_json_to_cell_network.py:197-367 | the model built from the is_column and is_beam edges and is_floor faces of the network |
| CreaModel.ScriptAsWrittenRaises | docs/examples/crea_json_to_cell_network.py:262 | the script as written raises AttributeError iff the network has a column edge (from_mesh is missing on the imported class); without columns it yields the beams and plates and no interaction |
| CreaModel.NoHeadBeams | docs/examples/crea_json_to_cell_network.py:317-330 | with no column head, every mapped beam adds no interaction |
| CreaModel.NoHeadFloors | docs/examples/crea_json_to_cell_network.py:333-348 | with no column head, the floors add no interaction |
| CreaModel.NoHeadCorners | docs/examples/crea_json_to_cell_network.py:340-348 | with no column head, no corner of a floor face gives an interaction |
| GridModelBuild.PointsFromHolds | src/compas_grid/models/model_grid.py:140-142 | the points dictionary holds the head and every neighbour at its own point, and fails with KeyError iff a neighbour is not a vertex |
| GridModelBuild.FloorKeys | src/compas_grid/models/model_grid.py:144-146 | exactly the incident faces with an is_floor attribute, each once, ascending |
| GridModelBuild.JunctionAt | src/compas_grid/models/model_grid.py:134-146 | v holds the head and its neighbours at their points, e one (head, neighbour) pair per neighbour in attribute order, f the incident floor faces; errors are KeyError or TypeError |
| GridModelBuild.HeadFor | src/compas_grid/models/model_grid.py:149 | rebuild(v, e, f) succeeds iff the junction's rules do, raising their error otherwise, and keeps v, e and f |
| GridModelBuild.HeadBuilder | src/compas_grid/models/model_grid.py:125-153 | the head each vertex would get, defined at every vertex |
| GridModelBuild.TemplateHeads | src/compas_grid/models/model_grid.py:125-149 | with a head template, the head each vertex would get; without one (the None default), every vertex raises, with AttributeError at `column_head.rebuild` or the error gathering its junction raised first |
| GridModelBuild.RegisterHolds | src/compas_grid/models/model_grid.py:181-185 | every face vertex lists the plate, earlier lists are kept as prefixes, other vertices are untouched, and new keys are appended to the insertion order |
| GridModelBuild.ColumnInteractionStep | src/compas_grid/models/model_grid.py:187-235 | two cutter elements and four interactions at a head on the upper end, one cutter and two interactions at a head on the lower end; at an end with a head, AttributeError without a cutter template, and at the upper end also without a cutter model; KeyError when the column is unmapped, IndexError when the cutter model has too few elements |
| GridModelBuild.IndexOf | src/compas_grid/models/model_grid.py:275 | face.index(vertex): the first position of the vertex |
| GridModelBuild.CuttersAddedTransitive | src/compas_grid/models/model_grid.py:311-319 | appending cutters composes across the interaction loops |
| GridModelBuild.Grown | src/compas_grid/models/model_grid.py:311-319 | appending elements and sound interactions keeps every registration and soundness |
| GridModelBuild.AddCutterSound | src/compas_grid/models/model_grid.py:245-252 | a cutter on a registered head aimed at a non-cutter keeps the model registered and sound |
| GridModelBuild.AddCutterPartsSound | src/compas_grid/models/model_grid.py:209-223 | the two cutter-model parts at a column top keep the model registered and sound |
| GridModelBuild.ColumnInteractionStepHolds | src/compas_grid/models/model_grid.py:187-235 | the column interactions only add cutters and sound interactions |
| GridModelBuild.ColumnInteractionsFoldHolds | src/compas_grid/models/model_grid.py:312-313 | the column interaction loop only adds cutters and sound interactions |
| GridModelBuild.KeptAt | src/compas_grid/models/model_grid.py:311-319 | elements already present stay at their indices |
| GridModelBuild.BeamEndHolds | src/compas_grid/models/model_grid.py:240-266 | one beam end only adds a cutter and sound interactions |
| GridModelBuild.BeamInteractionStepHolds | src/compas_grid/models/model_grid.py:237-266 | the beam interactions only add cutters and sound interactions |
| GridModelBuild.BeamInteractionsFoldHolds | src/compas_grid/models/model_grid.py:315-316 | the beam interaction loop only adds cutters and sound interactions |
| GridModelBuild.CornersFoldHolds | src/compas_grid/models/model_grid.py:274-296 | the plate loop of a head only adds cutters and sound interactions |
| GridModelBuild.FloorInteractionsFoldHolds | src/compas_grid/models/model_grid.py:318-319 | the floor interaction loop only adds cutters and sound interactions |
| GridModelBuild.PrefixTransitive | src/compas_grid/models/model_grid.py:298-309 | a prefix of a prefix is a prefix |
| GridModelBuild.HeadsFoldOk | src/compas_grid/models/model_grid.py:299-300 | the head loop fails iff the head of some column cannot be built |
| GridModelBuild.HeadsFoldShape | src/compas_grid/models/model_grid.py:299-300 | the head loop appends one element per column and changes no interaction or other dictionary |
| GridModelBuild.HeadsFoldElementAt | src/compas_grid/models/model_grid.py:299-300 | the head of column k sits at position k past the start, at the column's upper end, and that vertex is registered |
| GridModelBuild.HeadsFoldElements | src/compas_grid/models/model_grid.py:299-300 | every column gets its head at the upper end, registered under that vertex |
| GridModelBuild.HeadsFoldKeys | src/compas_grid/models/model_grid.py:153 | heads are registered only under the upper ends of columns |
| GridModelBuild.HeadsKept | src/compas_grid/models/model_grid.py:153 | a vertex with a head keeps one through the loop |
| GridModelBuild.HeadStepRegistered | src/compas_grid/models/model_grid.py:152-153 | add_column_head keeps every dictionary entry pointing at an element of its kind |
| GridModelBuild.HeadsFoldRegistered | src/compas_grid/models/model_grid.py:299-300 | the head loop keeps the registrations |
| GridModelBuild.ColumnStepRegistered | src/compas_grid/models/model_grid.py:164-165 | add_column keeps the registrations |
| GridModelBuild.ColumnsFoldLayout | src/compas_grid/models/model_grid.py:302-303 | the column loop appends one column per column edge, keeping earlier elements |
| GridModelBuild.ColumnsFoldRegistered | src/compas_grid/models/model_grid.py:302-303 | the column loop keeps the registrations |
| GridModelBuild.BeamStepRegistered | src/compas_grid/models/model_grid.py:172-173 | add_beam keeps the registrations |
| GridModelBuild.BeamsFoldLayout | src/compas_grid/models/model_grid.py:305-306 | the beam loop appends one beam per beam edge, keeping earlier elements |
| GridModelBuild.BeamsFoldRegistered | src/compas_grid/models/model_grid.py:305-306 | the beam loop keeps the registrations |
| GridModelBuild.FloorStepHolds | src/compas_grid/models/model_grid.py:175-185 | add_floor appends one plate, lists it with its face under every vertex of the face, keeps earlier lists, and changes nothing else |
| GridModelBuild.FloorsPlatesKept | src/compas_grid/models/model_grid.py:182-183 | the floor loop only appends to the lists it finds |
| GridModelBuild.FloorsFoldRegistered | src/compas_grid/models/model_grid.py:308-309 | the floor loop keeps the registrations |
| GridModelBuild.FloorsFoldLayout | src/compas_grid/models/model_grid.py:308-309 | the floor loop appends one plate per floor face, keeping earlier elements |
| GridModelBuild.FloorsFoldListed | src/compas_grid/models/model_grid.py:181-185 | each plate is listed, with its face, under every vertex of that face |
| GridModelBuild.EmptyRegistered | src/compas_grid/models/model_grid.py:102-120 | the empty model and dictionaries are registered and sound |
| GridModelBuild.InteractionPhaseHolds | src/compas_grid/models/model_grid.py:311-319 | the interaction loops only add cutters, and every interaction they add is sound |
| GridModelBuild.ElementLoopsRegistered | src/compas_grid/models/model_grid.py:298-309 | the element loops fail iff some head cannot be built; otherwise they add no interaction and register every element |
| GridModelBuild.ElementLoopsLayout | src/compas_grid/models/model_grid.py:298-309 | heads, then columns, beams and plates, each in input order |
| GridModelBuild.LaidOut | src/compas_grid/models/model_grid.py:298-309 | the four loops' layouts put together |
| GridModelBuild.ElementPhaseLayout | src/compas_grid/models/model_grid.py:298-309 | the element phase succeeds iff every template the four loops use was passed and every column's head can be built, and then lays the elements out in loop order with no interaction |
| GridModelBuild.GridLayout | src/compas_grid/models/model_grid.py:113-321 | the element loops' elements come first in their order, every later element is a cutter, every dictionary entry names an element of its kind, and every interaction targets one of the first elements |
| GridModelBuild.LinesAndSurfacesOnly | src/compas_grid/models/model_grid.py:70-153 | given only lines and surfaces (every template None), the first column raises, with AttributeError at `column_head.rebuild` unless its junction raises first; only a network with no column, beam or floor gives a model, the empty one |
| GridModelBuild.NoCutterModelRaises | src/compas_grid/models/model_grid.py:187-203 | without a cutter model, from_lines_and_surfaces raises for every network with a column, whatever the other templates |
| GridModelBuild.JunctionSeesNeighbour | src/compas_grid/models/model_grid.py:140-149 | the rules of a head's junction flag the direction towards each neighbour, which lies away from the head |
| GridModelBuild.JunctionEdgeFlagged | src/compas_grid/models/model_grid.py:141 | every edge of a junction sets its own direction's flag |
| GridModelBuild.BeamEndFindsFace | src/compas_grid/models/model_grid.py:240-257 | at a beam end whose head was built there, exactly one head face carries the beam's direction, so the `[0]` lookup succeeds and the cutter goes on it, or `cutter.copy()` raises AttributeError without a cutter template |
| GridModelLoops.JunctionOf | src/compas_grid/models/model_grid.py:134-146 | the neighbour and face loops compute JunctionAt |
| GridModelLoops.NeighbourPoints | src/compas_grid/models/model_grid.py:140-142 | the neighbour loop fails, with KeyError, iff PointsFrom does, and otherwise holds PointsFrom's points and one (head, neighbour) edge per neighbour |
| GridModelLoops.FloorFaces | src/compas_grid/models/model_grid.py:144-146 | the face loop keeps the incident is_floor faces in key order |
| GridModelLoops.GridBuilder.constructor | src/compas_grid/models/model_grid.py:102-120 | an empty model and empty dictionaries |
| GridModelLoops.GridBuilder.AddColumnHead | src/compas_grid/models/model_grid.py:125-153 | the state after add_column_head is HeadStep's, or its exception |
| GridModelLoops.GridBuilder.AddColumnHeads | src/compas_grid/models/model_grid.py:299-300 | the state is HeadsFold's, or its exception |
| GridModelLoops.GridBuilder.AddTemplateHeads | src/compas_grid/models/model_grid.py:299-300 | the state is HeadsFold's for the head template given or its None default, or its exception |
| GridModelLoops.GridBuilder.AddColumn | src/compas_grid/models/model_grid.py:155-165 | the state is ColumnStep's |
| GridModelLoops.GridBuilder.AddColumns | src/compas_grid/models/model_grid.py:302-303 | the state is ColumnsFold's |
| GridModelLoops.GridBuilder.AddBeam | src/compas_grid/models/model_grid.py:167-173 | the state is BeamStep's |
| GridModelLoops.GridBuilder.AddBeams | src/compas_grid/models/model_grid.py:305-306 | the state is BeamsFold's |
| GridModelLoops.GridBuilder.AddFloor | src/compas_grid/models/model_grid.py:175-185 | the state is FloorStep's |
| GridModelLoops.GridBuilder.AddFloors | src/compas_grid/models/model_grid.py:308-309 | the state is FloorsFold's |
| GridModelLoops.GridBuilder.AddAfterHeads | src/compas_grid/models/model_grid.py:302-309 | the state is that of the column, beam and floor loops, or AttributeError at the first element of a loop whose template is missing |
| GridModelLoops.GridBuilder.AddCutterOn | src/compas_grid/models/model_grid.py:245-252 | the state is AddCutter's |
| GridModelLoops.GridBuilder.AddCutterModel | src/compas_grid/models/model_grid.py:209-223 | AttributeError without a cutter model; otherwise succeeds iff the cutter model has two elements and the column is mapped, raising IndexError or KeyError otherwise, and then the state is AddCutterParts' |
| GridModelLoops.GridBuilder.AddColumnInteraction | src/compas_grid/models/model_grid.py:187-235 | the state is ColumnInteractionStep's, or its exception |
| GridModelLoops.GridBuilder.AddColumnInteractions | src/compas_grid/models/model_grid.py:312-313 | the state is ColumnInteractionsFold's, or its exception |
| GridModelLoops.GridBuilder.AddBeamEnd | src/compas_grid/models/model_grid.py:240-252 | the state is BeamEnd's, or its exception |
| GridModelLoops.GridBuilder.AddBeamInteraction | src/compas_grid/models/model_grid.py:237-266 | the state is BeamInteractionStep's, or its exception |
| GridModelLoops.GridBuilder.AddBeamInteractions | src/compas_grid/models/model_grid.py:315-316 | the state is BeamInteractionsFold's, or its exception |
| GridModelLoops.GridBuilder.AddCorners | src/compas_grid/models/model_grid.py:274-296 | the state is CornersFold's, or its exception |
| GridModelLoops.GridBuilder.AddFloorInteraction | src/compas_grid/models/model_grid.py:268-296 | the state is FloorInteractionStep's, or its exception |
| GridModelLoops.GridBuilder.AddFloorInteractions | src/compas_grid/models/model_grid.py:318-319 | the state is FloorInteractionsFold's over the keys in insertion order, or its exception |
| GridModelLoops.GridBuilder.Run | src/compas_grid/models/model_grid.py:298-321 | the state is GridBuild's for the templates given, a missing one raising AttributeError where its loop first uses it, or its exception |
| GridModelLoops.FromNetwork | src/compas_grid/models/model_grid.py:70-321 | from_lines_and_surfaces with its six optional templates returns GridBuild's model or raises its exception |
| ModelGraph.EdgeKinds | src/compas_grid/elements/element.py:158 | edge_interactions lists the interactions added on u -> w, never more than were added, and none iff there is no such edge |
| ModelGraph.EdgeKindsListed | src/compas_grid/elements/element.py:158 | a kind is listed under u -> w iff an interaction of that kind was added from u to w |
| ModelGraph.NeighborsBounded | src/compas_grid/elements/element.py:107 | every neighbour is an element of the model, so `elements[neighbor]` is in range |
| ModelGraph.NeighborsAreAdjacent | src/compas_grid/elements/element.py:149-150 | graph.neighbors lists every node joined to u in either direction, each exactly once |
| ModelGraph.Model.constructor | docs/examples/crea_json_to_cell_network.py:201 | Model(): no elements, groups or interactions |
| ModelGraph.Model.AddGroup | docs/examples/crea_json_to_cell_network.py:202-205 | add_group appends the group and changes nothing else |
| ModelGraph.Model.AddElement | src/compas_grid/models/model_grid.py:152 | add_element appends the element under its parent and returns its node number; nothing else changes |
| ModelGraph.Model.AddInteraction | src/compas_grid/models/model_grid.py:217 | add_interaction appends one interaction between two elements; nothing else changes |
| CutPipeline.Globals.constructor | src/compas_grid/interactions/interaction_interface_cutter.py:56-60 | the module globals: the debug flag and an empty global_property |
| CutPipeline.FirstPiece | src/compas_grid/interactions/interaction_interface_cutter.py:68-69 | some piece iff the slice gave any, and then the first |
| CutPipeline.CutterOutcome | src/compas_grid/interactions/interaction_interface_cutter.py:46-69 | raises iff Plane.from_frame raises, with its error; otherwise the first piece of the slice by the transformed plane, or None when the slice raises or gives nothing |
| CutPipeline.CutterLog | src/compas_grid/interactions/interaction_interface_cutter.py:55-60 | the plane then the mesh are logged iff debug is set and the slice raised |
| CutPipeline.ComputeCutterInteraction | src/compas_grid/interactions/interaction_interface_cutter.py:23-69 | compute_interaction returns CutterOutcome and appends CutterLog to global_property |
| CutPipeline.Interfaces | src/compas_grid/elements/element.py:159 | exactly the InteractionInterface instances, never more than were given |
| CutPipeline.Tag | src/compas_grid/elements/element.py:158-162 | each interaction paired with the neighbour it came from, in order |
| CutPipeline.CutsListed | src/compas_grid/elements/element.py:149-162 | a pair is applied iff its neighbour is listed and the interaction is among that neighbour's cuts |
| CutPipeline.AppliedCutsCharacterised | src/compas_grid/elements/element.py:149-164 | an element applies exactly the interface interactions filed under n -> self, for neighbours n with no edge self -> n |
| CutPipeline.Listed | src/compas_grid/elements/element.py:150 | an added interaction gives the graph its edge |
| CutPipeline.NeverSelf | src/compas_grid/elements/element.py:152-156 | an element never applies an interaction of its own ("the current element always modifies the other element, and never itself") |
| CutPipeline.ComputeInteraction | src/compas_grid/elements/element.py:162 | the dispatch returns the interaction's outcome and appends its log |
| CutPipeline.ApplyAppend | src/compas_grid/elements/element.py:149-164 | folding over a + b is folding over a, then over b from where a stopped |
| CutPipeline.ApplyKindsIsApply | src/compas_grid/elements/element.py:158-164 | the inner loop applies exactly the interface interactions of its edge |
| CutPipeline.ApplyNeighboursIsApply | src/compas_grid/elements/element.py:149-164 | the two nested loops compute the reference fold over the listed pairs |
| CutPipeline.ApplyReadsCutters | src/compas_grid/elements/element.py:162 | the result depends only on the base geometry of the cutting neighbours |
| CutPipeline.NoCutsKeep | src/compas_grid/elements/element.py:149-166 | an element no interface interaction is filed towards keeps its geometry and logs nothing |
| CutPipeline.ApplyOne | src/compas_grid/elements/element.py:159-164 | one pass of the inner body computes Step |
| CutPipeline.ApplyEdge | src/compas_grid/elements/element.py:158-164 | the inner loop computes ApplyKinds |
| CutPipeline.Advance | src/compas_grid/elements/element.py:149-164 | one fold step seen from the start: the log grows by the step's own, and an exception stops the fold |
| CutPipeline.PrependNothing | src/compas_grid/elements/element.py:149 | an empty log prefix changes nothing |
| CutPipeline.StepIs | src/compas_grid/elements/element.py:162-164 | a step keeps the current geometry when the result is falsy and takes it otherwise |
| CutPipeline.ApplyKindsUnfold | src/compas_grid/elements/element.py:158 | the inner fold advanced by one interaction |
| CutPipeline.NeighboursAdvance | src/compas_grid/elements/element.py:149 | the outer fold advanced past one neighbour |
| CutPipeline.ApplyNeighbour | src/compas_grid/elements/element.py:150-164 | one pass of the outer body computes NeighbourOutcome |
| CutPipeline.ApplyInteractions | src/compas_grid/elements/element.py:149-164 | the neighbour loop over graph.neighbors computes ApplyNeighbours |
| CutPipeline.ApplyEach | src/compas_grid/elements/element.py:149 | the loop over a given neighbour list computes ApplyNeighbours |
| CutPipeline.ComputeGeometryModel | src/compas_grid/elements/element.py:131-166 | compute_geometry_model returns the world-transformed geometry with every AppliedCuts interaction applied, and logs what they log |
| CutPipeline.ComputeInteractions | src/compas_grid/elements/element.py:181-224 | compute_interactions returns the geometry moved by the inverse world transformation (or the identity) with the same interactions applied |
| CutPipeline.NoIndexError | src/compas_grid/elements/element.py:162 | in a well-formed model an exception comes from an interaction itself, never from the neighbour lookup |
| ElementState.SetDirtyAsWritten | src/compas_grid/elements/element.py:101-108 | the setter as written, with the interpreter's recursion depth: when it returns, one flag per element |
| ElementState.DirtyNeighboursAsWritten | src/compas_grid/elements/element.py:106-108 | the setter's neighbour loop as written: when it returns, one flag per element |
| ElementState.DirtyRecursesForever | src/compas_grid/elements/element.py:101-108 | setting is_dirty to True on any element with a neighbour raises RecursionError, whatever the flags and depth |
| ElementState.ClearAsWritten | src/compas_grid/elements/element.py:101-105 | setting is_dirty to False only clears that flag |
| ElementState.CleanMark | src/compas_grid/elements/element.py:108 | marking a clean element dirty lowers the count of clean elements by one |
| ElementState.CleanMonotone | src/compas_grid/elements/element.py:105-108 | marking never raises the count of clean elements |
| ElementState.SetDirty | src/compas_grid/elements/element.py:101-108 | the flag is set; setting False changes nothing else; setting True marks every neighbour dirty, keeps earlier marks and closes the invalidation over every element it marks |
| ElementState.MarkAll | src/compas_grid/elements/element.py:106-108 | the corrected loop marks every listed neighbour, keeps earlier marks and is closed |
| ElementState.SetDirtyStops | src/compas_grid/elements/element.py:105-108 | on a dirty element whose neighbours are all dirty, setting True changes nothing |
| ElementState.AllDirtyKept | src/compas_grid/elements/element.py:106-108 | marking already dirty neighbours changes nothing |
| ElementState.SetIsDirty | src/compas_grid/elements/element.py:101-108 | the corrected setter on the array of flags computes SetDirty |
| ElementState.Caches.constructor | src/compas_grid/elements/element.py:83-87 | a new element is dirty with empty caches |
| ElementState.Caches.GeometryElementAsWritten | src/compas_grid/elements/element.py:92-95 | the getter as written returns None and leaves the caches as they are |
| ElementState.Caches.GeometryElement | src/compas_grid/elements/element.py:92-95 | the corrected getter returns its cache, filling it once from the computation |
| ElementState.Caches.GeometryModelAsWritten | src/compas_grid/elements/element.py:110-113 | the getter as written recomputes when the cache is empty or the element is dirty, stores compute_geometry_model's result, and returns None |
| ElementState.Caches.GeometryModel | src/compas_grid/elements/element.py:110-113 | the corrected getter returns the cached geometry, recomputed by compute_geometry_model when empty or dirty |
| ElementState.Caches.GeometryWorldAsWritten | src/compas_grid/elements/element.py:115-118 | with an empty cache the getter as written raises the exception of the model recomputation when the model cache is empty or dirty and that computation raises, and otherwise AttributeError, because compute_geometry_world (element.py:177) calls `self.geometry_model.copy()` on the None that getter returns; with a filled cache it returns None |
| ElementState.Caches.GeometryWorld | src/compas_grid/elements/element.py:115-118 | the corrected getter returns the model geometry moved to WorldXY, cached |
| ColumnHeadElement.ElementName | src/compas_grid/elements/element_column_head_cross.py:124 | the class name iff the name is None, "None" or the class name itself; any other name is kept; never "None" |
| ColumnHeadElement.ElementNameIdempotent | src/compas_grid/elements/element_column_head_cross.py:124 | a name the constructor produced is kept when passed back in |
| ColumnHeadElement.NewColumnHead | src/compas_grid/elements/element_column_head_cross.py:92-143 | the constructor stores the fields, keeps the shared shape's dimensions once initialised, and succeeds iff the junction's rules do, with the mesh of those rules |
| ColumnHeadElement.Rebuild | src/compas_grid/elements/element_column_head_cross.py:204-226 | rebuild gives a new element for v, e, f with this element's dimensions and name, failing iff the rules do |
| ColumnHeadElement.FromData | src/compas_grid/elements/element_column_head_cross.py:77-90 | __from_data__ passes the stored values back to the constructor: the data read back is the data given, with the name normalised |
| ColumnHeadElement.DataRoundTrip | src/compas_grid/elements/element_column_head_cross.py:77-124 | serialising an element and reading it back gives the same data |
| Prism.TriFaces | docs/examples/triangular_slab.py:83-84 | the ear-clipped triangles become one three-index face each, in order |
| Prism.Next | src/compas_grid/element_beam.py:137 | the vertex after i on a closed polygon is (i + 1) % n, always a vertex of it |
| Prism.Prev | docs/examples/triangular_slab.py:440 | the vertex before i (Python's points[i - 1]) is a vertex whose successor is i |
| Prism.Sides | src/compas_grid/element_beam.py:137-138 | one side quad [a, b, d, c] per edge of the section, in edge order |
| Prism.EndIs | src/compas_grid/element_beam.py:137 | a face's edge at i ends at the next index, wrapping to the first |
| Prism.PrismFacesShape | src/compas_grid/element_beam.py:132-138 | n + 2 faces: two caps of n indices, then n quads |
| Prism.PrismFacesBounded | src/compas_grid/element_beam.py:132-138 | every face index names one of the 2n vertices bottom + top |
| Prism.WalkedAt | src/compas_grid/element_beam.py:136-138 | a face holding a then b at consecutive positions walks the edge from a to b |
| Prism.BottomPaired | src/compas_grid/element_beam.py:136-138 | each edge of the reversed bottom cap is walked the other way by a side quad |
| Prism.TopPaired | src/compas_grid/element_beam.py:136-138 | each edge of the top cap is walked the other way by a side quad |
| Prism.SidePaired | src/compas_grid/element_beam.py:136-138 | each edge of a side quad is walked the other way by a cap or a neighbouring quad |
| Prism.PrismPaired | src/compas_grid/element_beam.py:132-139 | the extruded element's faces close up with one consistent orientation |
| Prism.ComputePrismMesh | src/compas_grid/element_beam.py:122-140 | the face-building loop of compute_shape computes PrismMesh: bottom then top points, reversed bottom cap, top cap, side quads |
| Prism.PrismMeshValid | src/compas_grid/element_beam.py:122-140 | for equal-length polygons the shape has 2n vertices and n + 2 faces, every index a vertex and every edge walked both ways |
| Loft.ShiftFace | docs/examples/triangular_slab.py:86 | every index of the face is moved by the same offset and the length is kept |
| Loft.SideTriangles | docs/examples/triangular_slab.py:101-104 | two triangles per section edge |
| Loft.CapTriangles | docs/examples/triangular_slab.py:83-88 | two cap faces per ear-clipped triangle |
| Loft.QuadCaps | docs/examples/triangular_slab.py:89-97 | the untriangulated caps are [0 .. n-1] and the reversed [n .. 2n-1] |
| Loft.TriangleCaps | docs/examples/triangular_slab.py:82-88 | the triangulated caps are the triangles, then each shifted by n and reversed, as CapTriangles states |
| Loft.LoftSides | docs/examples/triangular_slab.py:99-106 | the side loop appends two triangles or one quad per edge after the caps |
| Loft.LoftTwoPolygons | docs/examples/triangular_slab.py:75-108 | loft_two_polygons builds LoftTwo: the points of both polygons, the caps and the side faces |
| Loft.LoftFacesShape | docs/examples/triangular_slab.py:89-106 | the untriangulated loft has n + 2 faces over the 2n vertices |
| Loft.LoftTrianglesShape | docs/examples/triangular_slab.py:82-104 | the triangulated loft has 2t + 2n faces, side faces are triangles and every index is a vertex |
| Loft.LoftNeedsUnifying | docs/examples/triangular_slab.py:96-109 | the untriangulated faces are not consistently oriented: the top cap and the first side quad both walk from 0 to 1, which is why unify_cycles is called |
| Loft.Band | docs/examples/triangular_slab.py:142-150 | one band between polygon i and i + 1 has n quads, or 2n triangles |
| Loft.AppendBand | docs/examples/triangular_slab.py:142-150 | the inner loop appends exactly one band |
| Loft.LoftMultiplePolygons | docs/examples/triangular_slab.py:113-154 | loft_multiple_polygons computes LoftMany: IndexError on an empty list, otherwise all points and the bands between consecutive polygons |
| Loft.BandsShape | docs/examples/triangular_slab.py:141-150 | k bands hold k * n quads (or 2kn triangles) over the first (k + 1) * n vertices |
| Loft.LoftManyShape | docs/examples/triangular_slab.py:113-154 | for a non-empty list the loft succeeds with (m - 1) bands whose indices are all vertices |
| Loft.ConcatLength | docs/examples/triangular_slab.py:118-119 | m polygons of n points contribute m * n vertices |
| SlabScript.SliceAndSelectLargest | docs/examples/triangular_slab.py:67-73 | the mesh is kept when the plane misses it; otherwise the piece whose box volume is not smaller |
| SlabScript.BeamShapes | docs/examples/triangular_slab.py:224-316 | one rib shape per division point, each the loft sliced by both border planes keeping the larger piece |
| SlabScript.RibOffsetLines | docs/examples/triangular_slab.py:224-253 | the offset-line appends of the rib loop compute RibLines |
| SlabScript.RibLinesLayout | docs/examples/triangular_slab.py:248-253 | after k steps: offset1 of step i at 2i, offset0 of step i at 2i - 1 |
| SlabScript.RibLinesCount | docs/examples/triangular_slab.py:224-253 | the whole loop appends 2 * divisions lines |
| SlabScript.SmoothOnce | docs/examples/triangular_slab.py:438-449 | one pass keeps the number of points |
| SlabScript.SmoothPass | docs/examples/triangular_slab.py:438-449 | the inner loop computes SmoothOnce |
| SlabScript.SmoothPolygon | docs/examples/triangular_slab.py:417-451 | smooth_polygon applies iterations passes, none when iterations is negative |
| SlabScript.SmoothLength | docs/examples/triangular_slab.py:437-449 | smoothing keeps the number of points |
| SlabScript.SmoothZeroAlpha | docs/examples/triangular_slab.py:443-447 | with alpha 0 smoothing returns the points unchanged |
| SlabScript.SumAppend | docs/examples/triangular_slab.py:437-449 | the sum of joined point lists is the sum of their sums |
| SlabScript.SmoothPointAdditive | docs/examples/triangular_slab.py:443-447 | the smoothing formula is additive in its three points |
| SlabScript.SmoothPointFixed | docs/examples/triangular_slab.py:443-447 | smoothing three equal points gives that point |
| SlabScript.SumSmoothPoints | docs/examples/triangular_slab.py:439-448 | the sum of smoothed points is the smoothing of the sums |
| SlabScript.SumPrevious | docs/examples/triangular_slab.py:440 | the previous-point list is a rotation with the same sum |
| SlabScript.SumFollowing | docs/examples/triangular_slab.py:442 | the next-point list is a rotation with the same sum |
| SlabScript.SmoothOnceKeepsSum | docs/examples/triangular_slab.py:438-449 | one pass keeps the sum of the points, so the centroid |
| SlabScript.SmoothKeepsSum | docs/examples/triangular_slab.py:437-449 | any number of passes keeps the sum, so the centroid |
| Sections.PlaneOfFrame | src/compas_grid/element_beam.py:108-109 | Plane.from_frame passes through the frame's origin with a normal perpendicular to both frame axes |
| Sections.ExtrusionLines | src/compas_grid/element_beam.py:113 | one line per section point, starting at the point and running along the axis vector |
| Sections.CutPolygons | src/compas_grid/element_beam.py:100-120 | ValueError iff some extrusion line misses the bottom or the top plane; otherwise one bottom and one top point per line, each its intersection with that plane |
| Sections.IntersectLines | src/compas_grid/element_beam.py:111-119 | the intersection loop computes CutPolygons |
| Sections.CutPrefixFails | src/compas_grid/element_beam.py:116-117 | any missing line makes the whole computation raise ValueError, whatever the other lines do |
| Sections.ComputeAxisPolygons | src/compas_grid/elements/beam.py:360-381 | compute_elementgeometry raises ZeroDivisionError on a zero-length axis (axis.direction), otherwise cuts the extrusion lines by the planes through the two ends of the axis |
| Sections.AxisPolygonsOutcome | src/compas_grid/elements/beam.py:368-377 | ZeroDivisionError iff the axis has zero length, ValueError iff it has not and some extrusion line misses an end plane, no other error; on success one point per section point in each polygon |
| Sections.Translated | src/compas_grid/element_plate.py:159-163 | every point moved by the same vector, the length kept |
| Sections.TranslateInPlace | src/compas_grid/element_plate.py:158-163 | the loop moving the points of a copy computes Translated |
| Sections.SquareSectionShape | src/compas_grid/element_beam.py:264-268 | the square section has four corners in z = 0, centred on the origin, counter-clockwise, with area width * depth |
| Sections.RectangleShape | src/compas_grid/element_plate.py:187 | Polygon.from_rectangle has four corners, counter-clockwise, with area width * height |
| Sections.ExtendMovesBothEnds | src/compas_grid/elements/beam.py:423-434 | extend(d) moves each end of the axis out by d in world coordinates |
| SectionElements.TopFrame | src/compas_grid/element_beam.py:91 | the given top frame, or the bottom frame moved by the axis vector with the same axes |
| SectionElements.ComputeTopAndBottomPolygons | src/compas_grid/element_beam.py:100-120 | compute_top_and_bottom_polygons cuts the extrusion lines by the planes of the two frames |
| SectionElements.NewBeamElement | src/compas_grid/element_beam.py:79-95 | BeamElement.__init__ computes Extrude: default axis, default top frame, both polygons, the prism shape |
| SectionElements.NewColumnElement | src/compas_grid/element_column.py:79-95 | ColumnElement.__init__ computes the same, with the name always "ColumnElement" |
| SectionElements.BeamFromSquareSection | src/compas_grid/element_beam.py:229-272 | from_square_section extrudes the square section along a vertical axis of the given height |
| SectionElements.ColumnFromSquareSection | src/compas_grid/element_column.py:230-273 | the column factory does the same, named "ColumnElement" |
| SectionElements.ColumnFromRoundSection | src/compas_grid/element_column.py:276-315 | from_round_section extrudes a 24-sided polygon whatever sides says |
| SectionElements.ExtrudeShape | src/compas_grid/element_beam.py:79-140 | __init__ raises ValueError iff an extrusion line misses a frame plane; otherwise both polygons have one point per section point, the default top frame is moved along the axis, and the shape is a closed, consistently oriented prism |
| SectionElements.BeamDataMislabelsBottomFrame | src/compas_grid/element_beam.py:59-66 | __data__ as written stores the top frame under "frame_bottom", which differs from the bottom frame whenever the two frames differ |
| SectionElements.BeamDataRoundTrip | src/compas_grid/element_beam.py:68-77 | __from_data__ reads the bottom frame from the inherited "frame" key, so the data, corrected or as written, rebuilds the same beam from its axis, section and both frames |
| SectionElements.BeamDataKeepsFrames | src/compas_grid/element_beam.py:59-66 | the corrected data determines axis, section and both frames |
| PlateElements.PlateShape | src/compas_grid/element_plate.py:78-99 | the plate shape has the vertices of both polygons and one face per bottom edge plus two caps |
| PlateElements.NewPlate | src/compas_grid/element_plate.py:65-73 | __init__ keeps the polygons, keeps a given shape or computes it, and replaces a missing or empty name with the class name |
| PlateElements.PlateShapeClosed | src/compas_grid/element_plate.py:78-99 | for polygons of equal length the computed shape is closed and consistently oriented |
| PlateElements.CopyPoints | src/compas_grid/element_plate.py:158 | polygon.copy() gives fresh storage holding the same points |
| PlateElements.FromPolygonAndThickness | src/compas_grid/element_plate.py:140-165 | from_polygon_and_thickness builds the plate from the polygon moved by 0 * thickness and by 1 * thickness along its normal |
| PlateElements.PlateFromPolygon | src/compas_grid/element_plate.py:155-163 | the bottom is the polygon itself and each top point is its bottom point moved by thickness along the normal |
| PlateElements.FromWidthDepthThickness | src/compas_grid/element_plate.py:168-188 | from_width_depth_thickness is from_polygon_and_thickness on the width-by-depth rectangle at the origin |
| PlateElements.WidthDepthPlate | src/compas_grid/element_plate.py:168-188 | that plate's bottom is the rectangle of area width * depth, its top the rectangle moved along the normal, and its shape a closed box of six faces |
| TaperedBeams.SectionLines | src/compas_grid/element_beam_tapered.py:124-125 | one line per point pair, from the bottom section point to the top one |
| TaperedBeams.TaperedOutcome | src/compas_grid/element_beam_tapered.py:79-101 | __init__ raises ValueError when the sections differ in length or a line misses a frame plane, IndexError when there is no axis and the sections are empty; otherwise the sections keep their common length and the shape is a closed prism |
| TaperedBeams.BeamTaperedElement.Init | src/compas_grid/element_beam_tapered.py:94-101 | the fields take the computed state and the name is always "BeamTaperedElement" |
| TaperedBeams.BeamTaperedElement.New | src/compas_grid/element_beam_tapered.py:79-101 | the constructor succeeds iff Tapered does, with that state |
| TaperedBeams.BeamTaperedElement.ComputeTopAndBottomPolygons | src/compas_grid/element_beam_tapered.py:111-134 | the lines between the sections are cut by the given frames' planes or the element's own; on success the sections are replaced, on a miss nothing changes |
| TaperedBeams.BeamTaperedElement.ComputeShape | src/compas_grid/element_beam_tapered.py:136-158 | the prism over the current sections, closed and consistently oriented |
| TaperedBeams.BeamTaperedElement.Recompute | src/compas_grid/element_beam_tapered.py:107-109 | recompute cuts the sections by the element's own frames and rebuilds a closed shape; a miss raises and changes nothing |
| TaperedBeams.TaperedDataMislabelsBottomFrame | src/compas_grid/element_beam_tapered.py:57-66 | __data__ as written stores the top frame under "frame_bottom", which differs from the bottom frame whenever the two frames differ |
| TaperedBeams.TaperedDataRoundTrip | src/compas_grid/element_beam_tapered.py:68-77 | the corrected data stores the bottom frame under "frame_bottom"; __from_data__ reads the bottom frame from "frame", so either data hands back the axis, both sections and both frames |
| TaperedBeams.CrossSectionsShape | src/compas_grid/element_beam_tapered.py:286-302 | after the recentring both sections end flush at y = 0: the bottom reaches back to -depth_0 at z = 0, the top to -depth_1 at z = height |
| TaperedBeams.ToArray | src/compas_grid/element_beam_tapered.py:299-302 | the points are copied into fresh storage before being translated in place |
| TaperedBeams.FromCrossSections | src/compas_grid/element_beam_tapered.py:243-307 | from_cross_sections builds the two recentred sections and the element on the vertical axis of that height |
| BeamElements.BoxOfLength | src/compas_grid/elements/beam.py:84-85 | the box has the given width, height and length and stands on z = 0, centred on the z axis |
| BeamElements.ExtendBox | src/compas_grid/elements/beam.py:129-139 | the intended extend: each end of the box moves out by d, the other sizes and the centre kept |
| BeamElements.ExtendFromGroundAgrees | src/compas_grid/elements/beam.py:129-139 | on a box standing on z = 0 the code as written and the intended extend agree |
| BeamElements.ExtendTwiceAsWritten | src/compas_grid/elements/beam.py:129-139 | extending twice as written reaches only down to -d2, not -d1 - d2: the second call undoes the first one's downward move |
| BeamElements.BeamElement.constructor | src/compas_grid/elements/beam.py:74-85 | a width by height by length box standing on z = 0, with the given transformation |
| BeamElements.BeamElement.SetLength | src/compas_grid/elements/beam.py:111-114 | the box takes the new length and stands on z = 0 again; nothing else changes |
| BeamElements.BeamElement.Extend | src/compas_grid/elements/beam.py:129-139 | extend moves both ends of the box out by distance (the corrected ExtendBox) |
| BeamElements.TProfileDimsOf | src/compas_grid/elements/beam.py:327-339 | absolute sizes; a missing right step equals the left one; step widths clamped to [0, 0.4995 width], step heights to [0, height] |
| BeamElements.TProfileDimsAgree | src/compas_grid/elements/beam.py:327-339 | with no negative argument the dimensions as written and as intended agree |
| BeamElements.NegativeWidthAsWritten | src/compas_grid/elements/beam.py:327-337 | a width of -0.1 makes the step width -0.04995 as written, 0.02 as intended |
| BeamElements.TSection | src/compas_grid/elements/beam.py:341-354 | the T section has eight points |
| BeamElements.TSectionInBox | src/compas_grid/elements/beam.py:341-354 | with the intended dimensions every section point lies in the width by height rectangle in z = 0, mirrored or not, and the web keeps a positive width |
| BeamElements.BottomTriangles | src/compas_grid/elements/beam.py:392-400 | each ear-clipped triangle reversed, one per triangle |
| BeamElements.TopTriangles | src/compas_grid/elements/beam.py:392-400 | each triangle with its corners moved up by the offset, one per triangle |
| BeamElements.TSides | src/compas_grid/elements/beam.py:403-406 | one side quad [c, d, b, a] per section edge |
| BeamElements.TProfileFacesShape | src/compas_grid/elements/beam.py:386-406 | 2t + n faces: t bottom and t top triangles then n side quads, each the prism's side quad reversed, every index below 2n |
| BeamElements.TProfileGeometryShape | src/compas_grid/elements/beam.py:360-408 | compute_elementgeometry raises ZeroDivisionError when the axis has zero length and ValueError when it has not and a section line misses an end plane, and only then; otherwise 2n vertices and 2t + n faces, all indices in range |
| BeamElements.TriangleFaces | src/compas_grid/elements/beam.py:390-401 | the triangle loop computes the bottom triangles followed by the top triangles |
| BeamElements.SideFaces | src/compas_grid/elements/beam.py:403-406 | the side loop appends TSides |
| BeamElements.ComputeTProfileGeometry | src/compas_grid/elements/beam.py:360-408 | compute_elementgeometry computes TProfileGeometry, whose outcome TProfileGeometryShape states |
| BeamElements.TAxisDegenerate | src/compas_grid/elements/beam.py:415-421 | the axis the length setter builds has zero length exactly when the length is 0 |
| BeamElements.BeamTProfileElement.constructor | src/compas_grid/elements/beam.py:308-358 | the intended dimensions, their section, the absolute length and the axis along the length as given |
| BeamElements.BeamTProfileElement.SetLength | src/compas_grid/elements/beam.py:414-421 | the length, section and axis are set; a length of 0 raises ZeroDivisionError, any other error is the ValueError of compute_elementgeometry, and its mesh is dropped |
| BeamElements.BeamTProfileElement.Extend | src/compas_grid/elements/beam.py:423-434 | the length grows by 2 * distance and, unless the geometry raises (ZeroDivisionError when the new length is 0, ValueError otherwise), the transformation is post-multiplied by a translation of -distance along z |
| CableElements.CableElement.Init | src/compas_grid/elements/cable.py:96-105 | the fields take radius, sides, length, support flag, section, the axis up z by length and the two cut polygons |
| CableElements.CableElement.New | src/compas_grid/elements/cable.py:86-141 | the constructor cuts the regular section of sides sides at both ends of the axis; it raises ZeroDivisionError when the length is 0, otherwise ValueError iff a line misses |
| CableElements.CablePolygonsOutcome | src/compas_grid/elements/cable.py:129-138 | a cable of length 0 raises ZeroDivisionError; any other error is a ValueError |
| CableElements.CableElement.SetLength | src/compas_grid/elements/cable.py:115-141 | the setter writes length and axis, then recuts the polygons; a length of 0 raises ZeroDivisionError and a miss ValueError, after the first two writes, leaving the polygons as they were |
| CableElements.CableElement.Extend | src/compas_grid/elements/cable.py:226-236 | the length grows by 2 * distance through the setter, and unless that raises (ZeroDivisionError when the new length is 0, ValueError otherwise) the transformation is post-multiplied by a translation of -distance along z |
| CableElements.CableElement.ComputeElementGeometry | src/compas_grid/elements/cable.py:143-163 | the closed, consistently oriented prism over the two polygons |
| CableElements.CableElement.AddModifier | src/compas_grid/elements/cable.py:238-263 | add_modifier dispatches as Dispatch states |
| CableDispatch.ElementSubclass | src/compas_grid/elements/cable.py:253-255 | the walk stops at the first class whose base is Element; it raises IndexError iff no later class in the chain is Element |
| CableDispatch.FindElementSubclass | src/compas_grid/elements/cable.py:253-255 | the while loop computes ElementSubclass |
| CableDispatch.Dispatch | src/compas_grid/elements/cable.py:253-263 | success iff the walk finds a class whose handler the cable has, giving the boolean modifier of the cable's geometry; otherwise IndexError or the intended ValueError |
| CableDispatch.DispatchDiffers | src/compas_grid/elements/cable.py:260-261 | as written and as intended agree except with no handler, where the code as written raises TypeError |
| CableDispatch.LowerIs | src/compas_grid/elements/cable.py:257 | lower-casing works character by character |
| CableDispatch.BeamHandlerName | src/compas_grid/elements/cable.py:257-258 | BeamElement names the handler _add_modifier_with_beam |
| CableDispatch.BlockHandlerName | src/compas_grid/elements/cable.py:257-259 | BlockElement names _add_modifier_with_block, which a cable does not have |
| CableDispatch.BlockTargetAsWritten | src/compas_grid/elements/cable.py:253-261 | a block target raises TypeError as written, ValueError as intended |
| CableDispatch.TProfileTarget | src/compas_grid/elements/cable.py:253-268 | a T-profile beam target stops at BeamElement and gets the boolean modifier |
| PyStrings.RemoveAll | src/compas_grid/elements/cable.py:257 | str.replace(pat, "") never lengthens the string |
| PyStrings.AtTail | src/compas_grid/elements/cable.py:257 | an occurrence in the tail is an occurrence one further on in the whole string |
| PyStrings.RemoveAllAbsent | src/compas_grid/elements/cable.py:257 | a string without the pattern is unchanged |
| PyStrings.RemoveAllFront | src/compas_grid/elements/cable.py:257 | a leading occurrence is removed and the rest is processed on |
| PyStrings.RemoveAllKeeps | src/compas_grid/elements/cable.py:257 | a leading character that cannot start an occurrence is kept |
| PyStrings.RemoveAllKeepsPrefix | src/compas_grid/elements/cable.py:257 | a prefix none of whose characters starts the pattern is kept in front |
| PyStrings.RemoveAllSelf | src/compas_grid/elements/cable.py:257 | the pattern alone becomes empty |
| PyStrings.RemoveElementFromBeam | src/compas_grid/elements/cable.py:257 | "beam" followed by the pattern becomes "beam" |
| PyStrings.RemoveElementFromBlock | src/compas_grid/elements/cable.py:257 | "block" followed by the pattern becomes "block" |
| CableShapes.Polygon.constructor | src/compas_grid/element_cable.py:69 | the polygon holds the given points |
| CableShapes.AppendTranslated | src/compas_grid/element_cable.py:83-86 | the loop as written appends the translated copy of the original points to the same list |
| CableShapes.Grown | src/compas_grid/element_cable.py:83-86 | after k calls as written the section has n * 2^k points and still starts with the original ones |
| CableShapes.SweptShape | src/compas_grid/element_cable.py:73-93 | 2n vertices, the section then its translate by the axis vector, n + 2 faces, closed and consistently oriented |
| CableShapes.SecondShapeAsWritten | src/compas_grid/element_cable.py:83-92 | a second compute_shape as written sees 2n points and builds a different mesh with 4n vertices and 2n + 2 faces |
| CableShapes.CableShapeElement.constructor | src/compas_grid/element_cable.py:57-71 | the default axis, the regular section and the swept shape over it |
| CableShapes.CableShapeElement.ComputeShapeAsWritten | src/compas_grid/element_cable.py:73-93 | as written the section's own list grows by the translated points while the mesh is the swept shape of the old section |
| CableShapes.CableShapeElement.ComputeShape | src/compas_grid/element_cable.py:73-93 | the corrected compute_shape returns the swept shape and leaves the section alone |
| CableShapes.LengthAxis | src/compas_grid/element_cable.py:208 | from the origin to (0, 0, length) |
| CableShapes.FromLengthAndRadius | src/compas_grid/element_cable.py:181-210 | a hexagonal section of that radius swept along the length axis |
| InterfaceCutter.CutterSquareShape | src/compas_grid/elements/element_interface_cutter.py:48-51 | the cutter square has four corners in z = 0, centred on the origin, counter-clockwise, with sides size |
| InterfaceCutter.CutterShape | src/compas_grid/elements/element_interface_cutter.py:48-51 | the shape holds the four corners and one face through them |
| InterfaceCutter.Interfaced | src/compas_grid/elements/element_interface_cutter.py:81-103 | IndexError iff the list is empty; otherwise only the first geometry may change, to the first slice piece when slicing succeeds with pieces |
| InterfaceCutter.InterfaceLog | src/compas_grid/elements/element_interface_cutter.py:89-99 | the plane and the first geometry are logged iff slicing raises |
| InterfaceCutter.InterfaceCutterElement.constructor | src/compas_grid/elements/element_interface_cutter.py:42-46 | the size, the given frame or WorldXY, and the square shape |
| InterfaceCutter.InterfaceCutterElement.ComputeInterface | src/compas_grid/elements/element_interface_cutter.py:81-103 | compute_interface updates the geometry list as Interfaced states and appends InterfaceLog to global_property |
| InterfaceCutter.OnlyFirstChanges | src/compas_grid/elements/element_interface_cutter.py:101-103 | every geometry after the first is untouched |
| MeshTopology.Range | src/compas_grid/element_beam.py:134 | list(range(lo, hi)): hi - lo consecutive indices from lo |
| MeshTopology.Reverse | src/compas_grid/element_beam.py:136 | s[::-1]: the same length, read backwards |
| MeshTopology.ReverseInvolution | src/compas_grid/element_beam.py:136 | reading backwards twice gives the list back, and a concatenation reads back as its parts swapped |
| MeshTopology.RangeSplit | src/compas_grid/element_beam.py:134 | a range splits at any point between its ends, holds no index twice, and holds exactly the integers lo <= x < hi |
| Base.Lower | src/compas_grid/elements/cable.py:257 | str.lower() keeps the length and lower-cases each character |

## Left out

- The geometry library is not modelled. Mesh slicing, the CGAL boolean difference, ear clipping, intersection_line_plane, Plane.from_frame normalisation, Polygon.from_sides_and_radius_xy, Polygon.normal, transformations, Box and aabb/obb volumes all arrive as function parameters. The model knows only the shapes of their results.
- Graph.from_lines and TOL.geometric_key are function parameters. The model assumes only that they are deterministic.
- Loft.LoftTwoPolygons: returns the faces as the code builds them. The library's unify_cycles, which then reorients faces, is not modelled. Loft.LoftNeedsUnifying shows why it is needed.
- Mesh.from_polygons, Mesh.from_vertices_and_faces and remove_unused_vertices are taken at face value: vertex lists and face index lists as given. Vertex merging by position is not modelled.
- compute_geometry, compute_aabb, compute_obb, compute_collision_mesh, compute_point, face_polygons and the features lists of the element classes are left out. They are geometry-library calls.
- BeamElement._add_modifier_with_beam, _add_modifier_with_block and _create_slicer_modifier in elements/beam.py are left out. Their output is geometry built by the library.
- The __data__ / __from_data__ schemas are left out, except in three places: ColumnHeadCrossElement's round trip, the frame, axis and section keys of BeamElement and BeamTaperedElement, and the stored T-profile dimensions. Of the inherited Element.__data__ keys only "frame" is modelled ("transformation" and "name" are not), and "features" is not modelled; a value of the wrong kind stands in as TypeError.
- Base.Lower: maps only the ASCII letters A-Z; the Unicode case mapping of str.lower() on other characters is not modelled.
- Printing, json_dump and the error.json file written by the interface cutter are left out as I/O. A failure of json_dump itself is not modelled.
- InterfaceCutter.InterfaceCutterElement.ComputeInterface: takes compas_grid.global_property and the debug flag as parameters, because they are module attributes of the compas_grid package and no source file modelled here defines them.
- CableShapes.CableShapeElement.constructor and CableShapes.FromLengthAndRadius: they build their shape with the corrected CableShapeElement.ComputeShape. With the code as written, the constructor's own call would already double the section (see Findings).
- BeamElements.BeamTProfileElement.constructor: stores the intended dimensions (TProfileDimsOf). The dimensions as written are BeamElements.TProfileDimsAsWritten, and the two agree on non-negative arguments (BeamElements.TProfileDimsAgree).
- BeamElements.BeamElement.Extend: implements the intended extend (ExtendBox). The code as written is BeamElements.BoxExtendAsWritten (see Findings).
- BeamElements.TProfileFacesShape: states the face counts, the index bounds and that each side quad is the prism's side quad reversed. It does not state that the faces are consistently oriented: the T-profile caps depend on the ear-clipping order, which is a library call.
- Python set iteration order (list(set(...)) in model_grid.py) is taken to be ascending, as CPython iterates small integers.
- round(_, 3) in the CREA script is a function parameter.
- Directions.VectorCell.Unitize: takes the vector's length as an argument, because Dafny has no square root. It uses only that the length is positive for a non-zero vector and zero for the zero vector.
- ColumnHeadShape: cached meshes are values. Object identity between the singleton's cache and the element's copy is not modelled; the element always takes a copy.
- The names CrossBlockShape and CardinalDirections, imported from compas_grid.shapes at models/model_grid.py:20-21, elements/element_column_head_cross.py:9 and elements/element_column_head.py:9, are not defined in shapes/shape_column_head.py, the only file of that package here. The model assumes they stand for its ColumnHeadCrossShape (:71) and ColumnHeadDirection (:8) classes. That is an assumption: the package's __init__, which would bind the names, is not part of this model.
- CreaModel.CreaScript.AddColumnHead: builds the head with the from_mesh of src/compas_grid/elements/element_column_head.py:159. The class the script imports at line 13 has no from_mesh, so as written the call raises AttributeError; that path is CreaModel.ScriptAsWritten (see Findings).
- CreaModel.CreaScript.AddColumnHeads: uses the corrected AddColumnHead, so it does not promise the AttributeError the script as written raises at the first column.
- CreaModel.ColumnInteractions: the cutter polygons are the symbols FaceLowest and FaceHighest. face_lowest (line 297) and face_highest (line 304) are defined in no source file here, so the model takes them as the intended faces of the head and does not promise the AttributeError the calls would raise.
- CreaModel.CreaScript.AddColumnInteractions: the same assumption about face_lowest and face_highest as CreaModel.ColumnInteractions.
- CreaModel.CreaScript.AddAllColumnInteractions: the same assumption about face_lowest and face_highest as CreaModel.ColumnInteractions.
- CreaModel.BeamInteractions: the polygon is the symbol FaceNearest. face_nearest (lines 323 and 329) is defined in no source file here, so the model takes it as the intended face and does not promise the AttributeError the call would raise.
- CreaModel.CreaScript.AddBeamInteractions: the same assumption about face_nearest as CreaModel.BeamInteractions.
- CreaModel.CreaScript.AddAllBeamInteractions: the same assumption about face_nearest as CreaModel.BeamInteractions.
- CreaModel.FloorInteractionsCover: face_nearest (line 347) is taken as the intended face, as in CreaModel.BeamInteractions.
- CreaModel.CreaScript.AddFloor: the same assumption about face_nearest as CreaModel.BeamInteractions.
- CreaModel.CreaScript.AddFloors: the same assumption about face_nearest as CreaModel.BeamInteractions.
- CreaModel.ColumnLoops: runs the corrected head, column and interaction steps above, so it does not promise the script's AttributeError.
- CreaModel.BeamLoops: runs the beam steps with face_nearest taken as intended, so it does not promise the AttributeError the call would raise.
- CreaModel.Run: the corrected script. from_mesh, face_lowest, face_highest and face_nearest are taken as intended. CutterInterface, imported at line 14 from compas_grid.elements.interface_cutter, which is not part of this model, is taken to be the class of src/compas_grid/interface_cutter.py:7.
- CreaModel.RunScript: the same assumptions as CreaModel.Run.
- Viewer code, the Rhino scripts, the other example scripts and the stub files are not part of this model. They are I/O or only wire library calls together.

## Findings

| source | as written | input that shows it | evidently intended | confidence | as-written member | corrected member |
|---|---|---|---|---|---|---|
| docs/examples/crea_json_to_cell_network.py:262 | add_column_head calls ColumnHeadElement.from_mesh, but the class imported at line 13 (src/compas_grid/element_column_head.py) defines from_box (:166) and no from_mesh | any network with an is_column edge: AttributeError at the first add_column_head | the from_mesh of src/compas_grid/elements/element_column_head.py:159 | medium, not executed (the base class comes from compas_model, which is not part of this model) | CreaModel.ScriptAsWrittenRaises | CreaModel.Run |
| src/compas_grid/elements/element.py:101-108 | setting is_dirty to True marks every neighbour through the same setter, with no visited set | two elements joined by an interaction: each marks the other again, without end (RecursionError) | mark each element reachable through the interaction graph once | high, not executed | ElementState.DirtyRecursesForever | ElementState.SetDirty |
| src/compas_grid/elements/element.py:110-113 | geometry_model fills its cache but returns None | any element: the getter's result is None | return the cached geometry | high, not executed | ElementState.Caches.GeometryModelAsWritten | ElementState.Caches.GeometryModel |
| src/compas_grid/elements/element.py:92-95 | geometry_element returns None | any element | return the cached geometry | high, not executed | ElementState.Caches.GeometryElementAsWritten | ElementState.Caches.GeometryElement |
| src/compas_grid/elements/element.py:115-118 | geometry_world calls compute_geometry_world, which calls `self.geometry_model.copy()` (element.py:177) on the None that geometry_model returns | an element with an empty world cache: the recomputation's exception if it raises, otherwise AttributeError | return the model geometry moved to WorldXY | high, not executed | ElementState.Caches.GeometryWorldAsWritten | ElementState.Caches.GeometryWorld |
| src/compas_grid/element_beam.py:64 | __data__ stores frame_top under "frame_bottom" (__from_data__ reads the inherited "frame" instead, so the round trip still holds) | any beam whose top frame differs from its bottom frame: its "frame_bottom" entry is the top frame | store self.frame under "frame_bottom" | high, not executed | SectionElements.BeamDataMislabelsBottomFrame | SectionElements.BeamDataRoundTrip |
| src/compas_grid/element_beam_tapered.py:63 | __data__ stores frame_top under "frame_bottom" | any tapered beam whose top frame differs from its bottom frame | store self.frame under "frame_bottom" | high, not executed | TaperedBeams.TaperedDataMislabelsBottomFrame | TaperedBeams.TaperedDataRoundTrip |
| src/compas_grid/elements/beam.py:138-139 | extend puts the box frame at zsize / 2 - distance, as if the box still stood on z = 0 | a length 3 beam extended by 0.5 twice spans [-0.5, 4.5] instead of [-1, 4] | move each end out by distance around the current centre | medium, not executed | BeamElements.ExtendTwiceAsWritten | BeamElements.BeamElement.Extend |
| src/compas_grid/elements/beam.py:330-339 | a missing right step copies the raw left argument, and the clamps use the raw width and height | width -0.1 with the default steps: the left step width becomes -0.04995, outside the section | take absolute values before copying and clamping | medium, not executed | BeamElements.NegativeWidthAsWritten | BeamElements.TSectionInBox |
| src/compas_grid/elements/cable.py:261 | the raise line calls `type(...)`, but `type` is the string parameter | a BlockElement target: TypeError instead of ValueError | raise ValueError naming the target's type | high, not executed | CableDispatch.BlockTargetAsWritten | CableDispatch.Dispatch |
| src/compas_grid/element_cable.py:84-86 | `vertices` is the section's own point list, so the translated points are appended to the section | any cable: after one compute_shape the section has 2n points and a second call builds a different mesh | build the vertices on a copy of the points | high, not executed | CableShapes.SecondShapeAsWritten | CableShapes.CableShapeElement.ComputeShape |
