# Hex terrain mesh triangulation, modelled in Dafny

This project models the triangulation engine of a hexagonal terrain map.
Given a list of cells, each with a position, an elevation, a colour and up to
six neighbours, the `HexMesh` component fills three lists: vertex positions,
vertex colours and triangle indices. It emits these shapes:

- one fan triangle per cell and direction;
- a bridge across each seam to a neighbour: a flat quad, or stacked terrace
  quads on a one-step slope;
- for three cells meeting at a corner, a terrace or cliff-boundary fan chosen
  by the edge types from the lowest cell.

Modules, leaf first:

- `HexDirections` (`hex_direction.dfy`): the `HexDirection` and `HexEdgeType`
  enumerations; `Opposite`, `Previous`, `Next` written as the source's
  conditional expressions over the enumeration's integer values; their
  rotational laws.
- `HexMetrics` (`hex_metrics.dfy`): the geometry table as a `Metrics` record of
  uninterpreted values. It holds the solid corners, the bridges, the terrace
  step count (at least 1), the stair-step and linear interpolations, vector
  addition, and "put this point at the height of that elevation". `Vector3` and
  `Color` are opaque types. The edge classifier `GetEdgeType` and the boundary
  factor `1 / elevation difference` also live here.
- `HexCells` (`hex_cell.dfy`): `HexCell`, a snapshot of a cell. Its neighbours
  are a map from direction to cell; a missing direction means a null neighbour.
- `MeshBuffers` (`mesh_buffers.dfy`): the three lists as a value. It says what
  appending one triangle or quad does, and gives the lemmas for the
  buffer-alignment invariant.
- `Triangulation` (`triangulation.dfy`): one specification function per routine
  of `HexMesh.cs`. Each returns the shapes that routine emits, in order, and its
  contract states counts, shared edges and dispatch. Lemmas cover pivots,
  divisors, flat corners and well-formedness.
- `HexMeshes` (`hex_mesh.dfy`): `class HexMesh`, with fields `vertices`,
  `colors` and `triangles` and the source's methods. The methods append step by
  step, and the source's loops shift running variables. The six buffer methods
  (`AddTriangle`, `AddQuad` and the colour adders) state their new fields
  exactly. Every triangulation routine from `TriangulateCell` down is proved to
  leave `Data() == AppendAll(old(Data()), <its specification function>)`.
  `Triangulate` clears the buffers first, so it ends at
  `AppendAll(Empty, CellsTriangles(...))`.

C# overloads get distinct names here:

- `AddTriangleColor(c)` stays `AddTriangleColor`; `AddTriangleColor(c1, c2, c3)`
  becomes `AddTriangleColors`.
- `AddQuadColor(c1, c2)` stays `AddQuadColor`; `AddQuadColor(c1, c2, c3, c4)`
  becomes `AddQuadColors`.
- The three `Triangulate` overloads become `Triangulate` (cells),
  `TriangulateCell` (one cell) and `TriangulateDirection` (one direction).

`Triangulate(cells)` ends with a state that is a function of the cells and the
geometry table alone, so re-running it on unchanged cells yields identical
lists. The pass also leaves the lists well formed:

- positions and colours are equally long;
- the index count is a multiple of 3;
- every index is below the vertex count.

Assumptions:

- `HexMetrics` and `HexCell` are not part of this model.
- The edge classification is ASSUMED: Flat when the two elevations are equal,
  Slope when they differ by one, Cliff otherwise. The source calls it at
  `Assets/Scripts/HexMesh.cs` lines 71, 107-108 and 209 but does not define it.
- `cell.GetEdgeType(direction)` is modelled as the classification of the cell
  and that neighbour.

Observations:

- When no side of a corner is a Slope, `TriangulateCorner` emits nothing. This
  covers Flat/Flat, Flat/Cliff, Cliff/Flat and Cliff/Cliff, and the model keeps
  that behaviour. The corner triangle (bottom, left, right) is commented out in
  the source, so in those cases nothing covers it.
- Within this core, the only real requirement on a caller is a non-zero divisor
  for the two cliff routines. When the pivot is the lowest cell, the divisor is
  at least 2 (`PivotedCliffDivisor`).

## Model

| member | source | states |
|---|---|---|
| `HexDirections.Ord` | Assets/Scripts/HexDirection.cs:1-3 | every direction stands for one of the six integers 0..5 |
| `HexDirections.FromOrd` | Assets/Scripts/HexDirection.cs:1-3 | an integer names a direction only inside 0..5, and names the one that stands for it; each caller of the C# enum arithmetic has to prove it stays in this domain |
| `HexDirections.FromOrdOrd` | Assets/Scripts/HexDirection.cs:1-3 | going from a direction to its integer and back gives the same direction |
| `HexDirections.OrdInjective` | Assets/Scripts/HexDirection.cs:1-3 | distinct enumeration values stand for distinct integers |
| `HexDirections.Opposite` | Assets/Scripts/HexDirection.cs:23-25 | the conditional +3 / -3 always lands in the domain and equals d + 3 mod 6 |
| `HexDirections.Previous` | Assets/Scripts/HexDirection.cs:27-29 | the NE-wrapping decrement always lands in the domain and equals d + 5 mod 6 |
| `HexDirections.Next` | Assets/Scripts/HexDirection.cs:31-33 | the NW-wrapping increment always lands in the domain and equals d + 1 mod 6 |
| `HexDirections.OppositeInvolutive` | Assets/Scripts/HexDirection.cs:23-25 | Opposite(Opposite(d)) == d and Opposite(d) != d for every direction |
| `HexDirections.NextPreviousInverse` | Assets/Scripts/HexDirection.cs:27-33 | Next and Previous undo each other in both orders |
| `HexDirections.NextPreviousWrap` | Assets/Scripts/HexDirection.cs:27-33 | Next(NW) == NE and Previous(NE) == NW; every other direction moves by exactly +1 / -1 |
| `HexDirections.RotateOrd` | Assets/Scripts/HexDirection.cs:31-33 | applying Next k times adds k modulo 6 |
| `HexDirections.NextThriceIsOpposite` | Assets/Scripts/HexDirection.cs:23-33 | three Next steps equal Opposite |
| `HexDirections.NextSixIsIdentity` | Assets/Scripts/HexDirection.cs:31-33 | six Next steps return to the start |
| `HexMetrics.EdgeTypeSymmetric` | Assets/Scripts/HexDirection.cs:5-19 | the assumed classifier is symmetric, and Cliff holds exactly when the elevations are two or more apart |
| `HexMetrics.BoundaryFactor` | Assets/Scripts/HexMesh.cs:204 | the float b of lines 174 and 204 is the reciprocal of the elevation difference, defined only for a non-zero difference |
| `HexMetrics.CliffBoundaryFactor` | Assets/Scripts/HexMesh.cs:199-206 | across a Cliff rising from the begin cell the divisor is at least 2 and b lies in (0, 1/2] |
| `MeshBuffers.TriangleLayout` | Assets/Scripts/HexMesh.cs:273-293 | an appended triangle's three new indices name v1, v2, v3 in order, with their colours when the lists were aligned, and all earlier entries are unchanged |
| `MeshBuffers.QuadLayout` | Assets/Scripts/HexMesh.cs:295-321 | an appended quad's six new indices form the triangles (v1, v3, v2) and (v2, v3, v4), each vertex with its own colour, and all earlier entries are unchanged |
| `MeshBuffers.AppendWellFormed` | Assets/Scripts/HexMesh.cs:273-321 | a primitive followed by its matching colour call keeps positions and colours aligned, whole triangles and every index in range |
| `MeshBuffers.AppendAllWellFormed` | Assets/Scripts/HexMesh.cs:25-30 | any sequence of primitive-plus-colour appends keeps the buffers well formed |
| `MeshBuffers.AppendAllConcat` | Assets/Scripts/HexMesh.cs:28-30 | appending two runs of shapes one after the other equals appending their concatenation (the buffers are append-only) |
| `MeshBuffers.AppendAllSizes` | Assets/Scripts/HexMesh.cs:273-321 | each shape adds 3 or 4 vertices and colours and 3 or 6 indices; nothing already in the lists changes |
| `Triangulation.EdgeTerraces` | Assets/Scripts/HexMesh.cs:237-265 | exactly terraceSteps quads; the first starts at (beginLeft, beginRight) in beginCell's colour; each far edge and colour is the next quad's near edge; the last ends at stair point terraceSteps of both columns, in terrace colour terraceSteps of the begin..end blend |
| `Triangulation.Bridge` | Assets/Scripts/HexMesh.cs:65-76 | a Slope seam is terraceSteps chained quads whose last far edge is stair point terraceSteps towards the neighbour's edge, in terrace colour terraceSteps of the cell..neighbour blend; a Flat or Cliff seam is the single quad (v1, v2, v3, v4) coloured (cell, cell, neighbour, neighbour), its far edge moved across the bridge to the neighbour's height |
| `Triangulation.CornerTerraces` | Assets/Scripts/HexMesh.cs:137-166 | one triangle at begin in beginCell's colour, then terraceSteps - 1 quads; the triangle's far edge is the first quad's near edge; consecutive quads share edges; with more than one step the last quad ends at stair point terraceSteps towards left and towards right, in terrace colour terraceSteps of the begin..left and begin..right blends |
| `Triangulation.BoundaryTriangle` | Assets/Scripts/HexMesh.cs:218-233 | exactly terraceSteps triangles, each with the boundary point and boundary colour third, starting at begin in beginCell's colour, each second vertex the next one's first, the last second vertex at stair point terraceSteps towards left in terrace colour terraceSteps of the beginCell..leftCell blend |
| `Triangulation.CornerCliffTerraces` | Assets/Scripts/HexMesh.cs:169-194 | one boundary fan of terraceSteps triangles from the right cell to the point at factor 1/(left - begin) on the cliff, consecutive triangles sharing an edge, the last ending at stair point terraceSteps from right towards begin, in terrace colour terraceSteps of the rightCell..beginCell blend |
| `Triangulation.CornerTerracesCliff` | Assets/Scripts/HexMesh.cs:199-215 | a boundary fan begin..left, then a second fan left..right when left and right form a Slope, else the one triangle (left, right, boundary); every triangle ends at the boundary point |
| `Triangulation.Corner` | Assets/Scripts/HexMesh.cs:101-134 | emits something exactly when a side is a Slope; Slope/Slope, Slope/Cliff start at the bottom, Slope/Flat re-pivots on left, Flat/Slope and Cliff/Slope start at right; each Slope case is exactly its routine with the source's argument order: Slope/Slope CornerTerraces(bottom, left, right), Slope/Flat CornerTerraces(left, right, bottom), Flat/Slope CornerTerraces(right, bottom, left), Slope/Cliff CornerTerracesCliff, Cliff/Slope CornerCliffTerraces |
| `Triangulation.Pivot` | Assets/Scripts/HexMesh.cs:84-94 | the cell handed to TriangulateCorner as bottom is never higher than the other two, and (bottom, left, right) is a cyclic rotation of (cell, neighbor, nextNeighbor) |
| `Triangulation.PivotedCliffDivisor` | Assets/Scripts/HexMesh.cs:107-130 | in every pivoted corner that reaches a cliff routine, the divisor of lines 174 / 204 is at least 2, so b is in (0, 1/2] |
| `Triangulation.FlatCornerIsEmpty` | Assets/Scripts/HexMesh.cs:107-130 | three cells at one elevation get no corner fan |
| `Triangulation.FlatConnection` | Assets/Scripts/HexMesh.cs:57-99 | between cells at one elevation a connection is exactly the one flat bridge quad |
| `Triangulation.Connection` | Assets/Scripts/HexMesh.cs:57-99 | nothing without a neighbour; otherwise the bridge comes first; without NE/E and a next neighbour, the bridge is all; for NE and E with both neighbours, what follows the bridge is exactly the pivoted corner of (v2, cell), (v2 across the bridge, neighbour), (v2 across the next bridge, next neighbour) |
| `Triangulation.DirectionTriangles` | Assets/Scripts/HexMesh.cs:44-55 | first the fan triangle (centre, v1, v2) in the cell's colour; SW, W, NW or a missing neighbour add nothing more; NE, E, SE add the connection |
| `Triangulation.IsolatedCell` | Assets/Scripts/HexMesh.cs:38-55 | a cell without neighbours emits exactly its six fan triangles, NE first |
| `Triangulation.IsolatedCellPrefix` | Assets/Scripts/HexMesh.cs:38-42 | the first n directions of a cell without neighbours emit exactly n fan triangles |
| `Triangulation.TriangulationWellFormed` | Assets/Scripts/HexMesh.cs:23-30 | the lists produced from any cells are well formed |
| `HexMeshes.HexMesh.constructor` | Assets/Scripts/HexMesh.cs:14-21 | the component starts with three empty lists |
| `HexMeshes.HexMesh.AddTriangle` | Assets/Scripts/HexMesh.cs:273-281 | appends exactly v1, v2, v3 and indices n, n+1, n+2 (n the old vertex count); colours unchanged |
| `HexMeshes.HexMesh.AddTriangleColor` | Assets/Scripts/HexMesh.cs:283-287 | appends the colour exactly three times and changes nothing else |
| `HexMeshes.HexMesh.AddTriangleColors` | Assets/Scripts/HexMesh.cs:289-293 | appends exactly c1, c2, c3 and changes nothing else |
| `HexMeshes.HexMesh.AddQuad` | Assets/Scripts/HexMesh.cs:295-307 | appends exactly v1..v4 and indices n, n+2, n+1, n+1, n+2, n+3; colours unchanged |
| `HexMeshes.HexMesh.AddQuadColor` | Assets/Scripts/HexMesh.cs:309-314 | appends exactly c1, c1, c2, c2 and changes nothing else |
| `HexMeshes.HexMesh.AddQuadColors` | Assets/Scripts/HexMesh.cs:316-321 | appends exactly c1, c2, c3, c4 and changes nothing else |
| `HexMeshes.HexMesh.Triangulate` | Assets/Scripts/HexMesh.cs:23-36 | starts from empty lists and ends holding exactly the shapes of all cells in order, well formed, independent of the previous contents |
| `HexMeshes.HexMesh.TriangulateCell` | Assets/Scripts/HexMesh.cs:38-42 | appends the six directions NE..NW in order |
| `HexMeshes.HexMesh.TriangulateDirection` | Assets/Scripts/HexMesh.cs:44-55 | appends exactly DirectionTriangles |
| `HexMeshes.HexMesh.TriangulateConnection` | Assets/Scripts/HexMesh.cs:57-99 | appends exactly Connection, with the source's four-way pivot choice shown to be Pivot |
| `HexMeshes.HexMesh.TriangulateCorner` | Assets/Scripts/HexMesh.cs:101-134 | the nested ifs with early returns run at most one routine and append exactly Corner |
| `HexMeshes.HexMesh.TriangulateCornerTerraces` | Assets/Scripts/HexMesh.cs:137-166 | the shifting loop appends exactly CornerTerraces |
| `HexMeshes.HexMesh.TriangulateCornerCliffTerraces` | Assets/Scripts/HexMesh.cs:169-194 | appends exactly CornerCliffTerraces |
| `HexMeshes.HexMesh.TriangulateCornerTerracesCliff` | Assets/Scripts/HexMesh.cs:199-215 | appends exactly CornerTerracesCliff |
| `HexMeshes.HexMesh.TriangulateBoundaryTriangle` | Assets/Scripts/HexMesh.cs:218-233 | the shifting loop appends exactly BoundaryTriangle |
| `HexMeshes.HexMesh.TriangulateEdgeTerraces` | Assets/Scripts/HexMesh.cs:237-265 | the shifting loop appends exactly EdgeTerraces |

## Left out

- Unity plumbing is not modelled: the `Mesh` and `MeshCollider` objects, `hexMesh.Clear`, handing the lists over with `ToArray`, `RecalculateNormals` and `sharedMesh`. This is engine I/O with no logic.
- Floating-point geometry is not modelled. `Vector3` and `Color` are opaque; addition, `Vector3.Lerp`, `Color.Lerp`, `TerraceLerp` and `Elevation * elevationStep` are uninterpreted fields of `Metrics`. So nothing is proved about heights or watertightness, or about exact landing at the neighbour's height.
- `HexMetrics` and `HexCell` are not part of this model. Their corners, bridges, interpolations, `terraceSteps` and `GetEdgeType` are parameters or assumptions, not verified code. A cell is a value snapshot, so neighbour symmetry is neither represented nor needed.
- `HexMetrics.BoundaryFactor`: the factor is exact real division. It does not model float rounding. A zero divisor, which C# float division turns into infinity, is excluded by the `requires` of the two cliff routines. Every call in the file meets that requirement.
- `HexGridChunk.cs` is a Unity component wrapper (`Awake`, `LateUpdate`, `AddCell` parenting) with no triangulation logic. It is not modelled.
- Commented-out code in `HexMesh.cs` is not behaviour and is not modelled.
- The C# `List` capacity growth and `int` overflow of indices are not modelled. Indices are unbounded integers.
