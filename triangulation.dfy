/** What each triangulation routine of the hex mesh emits, as a list of
    shapes in emission order, and the properties of those lists. */
module Triangulation {
  import opened Wrappers
  import opened HexDirections
  import opened HexMetrics
  import opened HexCells
  import opened MeshBuffers

  /** Point i of the stair-step path from a towards b; step 0 is a itself. */
  function TerracePoint(g: Metrics, a: Vector3, b: Vector3, i: nat): Vector3
  {
    if i == 0 then a else g.terraceLerp(a, b, i)
  }

  /** Colour i of the stair-step blend from a towards b; step 0 is a itself. */
  function TerraceColor(g: Metrics, a: Color, b: Color, i: nat): Color
  {
    if i == 0 then a else g.terraceColorLerp(a, b, i)
  }

  /** Consecutive quads share an edge: each far edge, with its colours, is
      the next quad's near edge. */
  ghost predicate QuadChain(r: seq<Primitive>)
  {
    forall k :: 0 <= k < |r| - 1 && r[k].Quad? && r[k + 1].Quad? ==>
      r[k].v3 == r[k + 1].v1 && r[k].v4 == r[k + 1].v2 &&
      r[k].c3 == r[k + 1].c1 && r[k].c4 == r[k + 1].c2
  }

  /** Consecutive fan triangles share an edge: each one's second vertex,
      with its colour, is the next one's first. */
  ghost predicate FanChain(r: seq<Primitive>)
  {
    forall k :: 0 <= k < |r| - 1 ==> r[k].v2 == r[k + 1].v1 && r[k].c2 == r[k + 1].c1
  }

  // ---------------------------------------------------------------- edges

  /** Terrace step i + 1 of a sloped edge: from stair point i to stair point
      i + 1 on both columns, with one colour per edge. */
  function EdgeTerraceQuad(g: Metrics, beginLeft: Vector3, beginRight: Vector3, beginColor: Color,
                           endLeft: Vector3, endRight: Vector3, endColor: Color, i: nat): Primitive
  {
    Quad(TerracePoint(g, beginLeft, endLeft, i), TerracePoint(g, beginRight, endRight, i),
         TerracePoint(g, beginLeft, endLeft, i + 1), TerracePoint(g, beginRight, endRight, i + 1),
         TerraceColor(g, beginColor, endColor, i), TerraceColor(g, beginColor, endColor, i),
         TerraceColor(g, beginColor, endColor, i + 1), TerraceColor(g, beginColor, endColor, i + 1))
  }

  /** The stepped ramp between a lower and a higher edge: exactly
      terraceSteps quads, the first starting at the begin edge in the begin
      cell's colour, each far edge shared with the next near edge, the last
      ending at the last stair point. */
  function EdgeTerraces(g: Metrics, beginLeft: Vector3, beginRight: Vector3, beginCell: HexCell,
                        endLeft: Vector3, endRight: Vector3, endCell: HexCell): (r: seq<Primitive>)
    ensures |r| == g.terraceSteps
    ensures forall k :: 0 <= k < |r| ==> r[k].Quad? && r[k].c1 == r[k].c2 && r[k].c3 == r[k].c4
    ensures r[0].v1 == beginLeft && r[0].v2 == beginRight && r[0].c1 == beginCell.color
    ensures QuadChain(r)
    ensures r[|r| - 1].v3 == g.terraceLerp(beginLeft, endLeft, g.terraceSteps)
    ensures r[|r| - 1].v4 == g.terraceLerp(beginRight, endRight, g.terraceSteps)
    ensures r[|r| - 1].c3 == g.terraceColorLerp(beginCell.color, endCell.color, g.terraceSteps)
  {
    seq(g.terraceSteps, k requires 0 <= k =>
      EdgeTerraceQuad(g, beginLeft, beginRight, beginCell.color, endLeft, endRight, endCell.color, k))
  }

  /** The far edge of a connection: the near edge moved across the bridge
      and lifted to the neighbour's elevation. */
  function BridgeEnd(g: Metrics, direction: HexDirection, v: Vector3, neighbor: HexCell): Vector3
  {
    g.atElevation(g.add(v, g.bridge(direction)), neighbor.elevation)
  }

  /** The seam between a cell and its neighbour: terraces on a Slope, one
      quad blending the two cells' colours on Flat and Cliff. Either way it
      starts at the cell's solid edge (v1, v2) in the cell's colour and is a
      chain of quads. */
  function Bridge(g: Metrics, direction: HexDirection, cell: HexCell, neighbor: HexCell,
                  v1: Vector3, v2: Vector3): (r: seq<Primitive>)
    ensures GetEdgeType(cell.elevation, neighbor.elevation) == Slope ==>
              && |r| == g.terraceSteps && r[|r| - 1].Quad?
              && r[|r| - 1].v3 == g.terraceLerp(v1, BridgeEnd(g, direction, v1, neighbor), g.terraceSteps)
              && r[|r| - 1].v4 == g.terraceLerp(v2, BridgeEnd(g, direction, v2, neighbor), g.terraceSteps)
              && r[|r| - 1].c3 == g.terraceColorLerp(cell.color, neighbor.color, g.terraceSteps)
    ensures GetEdgeType(cell.elevation, neighbor.elevation) != Slope ==>
              r == [Quad(v1, v2, BridgeEnd(g, direction, v1, neighbor), BridgeEnd(g, direction, v2, neighbor),
                         cell.color, cell.color, neighbor.color, neighbor.color)]
    ensures |r| >= 1 && r[0].v1 == v1 && r[0].v2 == v2 && r[0].c1 == cell.color
    ensures forall k :: 0 <= k < |r| ==> r[k].Quad?
    ensures QuadChain(r)
  {
    var v3 := BridgeEnd(g, direction, v1, neighbor);
    var v4 := BridgeEnd(g, direction, v2, neighbor);
    if GetEdgeType(cell.elevation, neighbor.elevation) == Slope then
      EdgeTerraces(g, v1, v2, cell, v3, v4, neighbor)
    else
      [Quad(v1, v2, v3, v4, cell.color, cell.color, neighbor.color, neighbor.color)]
  }

  // -------------------------------------------------------------- corners

  /** Terrace quad i of a corner: from stair point i to i + 1 towards left
      and towards right. */
  function CornerTerraceQuad(g: Metrics, begin: Vector3, beginCell: HexCell, left: Vector3, leftCell: HexCell,
                             right: Vector3, rightCell: HexCell, i: nat): Primitive
  {
    Quad(TerracePoint(g, begin, left, i), TerracePoint(g, begin, right, i),
         TerracePoint(g, begin, left, i + 1), TerracePoint(g, begin, right, i + 1),
         TerraceColor(g, beginCell.color, leftCell.color, i), TerraceColor(g, beginCell.color, rightCell.color, i),
         TerraceColor(g, beginCell.color, leftCell.color, i + 1),
         TerraceColor(g, beginCell.color, rightCell.color, i + 1))
  }

  /** A corner terraced on both sides: one triangle at the begin vertex,
      then terraceSteps - 1 quads, each piece's far edge the next one's
      near edge. */
  function CornerTerraces(g: Metrics, begin: Vector3, beginCell: HexCell, left: Vector3, leftCell: HexCell,
                          right: Vector3, rightCell: HexCell): (r: seq<Primitive>)
    ensures |r| == g.terraceSteps
    ensures r[0].Triangle? && r[0].v1 == begin && r[0].c1 == beginCell.color
    ensures r[0].v2 == g.terraceLerp(begin, left, 1) && r[0].v3 == g.terraceLerp(begin, right, 1)
    ensures forall k :: 1 <= k < |r| ==> r[k].Quad?
    ensures |r| > 1 ==> r[0].v2 == r[1].v1 && r[0].v3 == r[1].v2 && r[0].c2 == r[1].c1 && r[0].c3 == r[1].c2
    ensures QuadChain(r)
    ensures |r| > 1 ==>
              && r[|r| - 1].v3 == g.terraceLerp(begin, left, g.terraceSteps)
              && r[|r| - 1].v4 == g.terraceLerp(begin, right, g.terraceSteps)
              && r[|r| - 1].c3 == g.terraceColorLerp(beginCell.color, leftCell.color, g.terraceSteps)
              && r[|r| - 1].c4 == g.terraceColorLerp(beginCell.color, rightCell.color, g.terraceSteps)
  {
    [Triangle(begin, TerracePoint(g, begin, left, 1), TerracePoint(g, begin, right, 1),
              beginCell.color, TerraceColor(g, beginCell.color, leftCell.color, 1),
              TerraceColor(g, beginCell.color, rightCell.color, 1))]
    + seq(g.terraceSteps - 1, k requires 0 <= k =>
        CornerTerraceQuad(g, begin, beginCell, left, leftCell, right, rightCell, k + 1))
  }

  /** A triangle fan from the stair path begin..left to one boundary point:
      exactly terraceSteps triangles, each with the boundary point and its
      colour third, each second vertex the next one's first. */
  function BoundaryTriangle(g: Metrics, begin: Vector3, beginCell: HexCell, left: Vector3, leftCell: HexCell,
                            boundary: Vector3, boundaryColor: Color): (r: seq<Primitive>)
    ensures |r| == g.terraceSteps
    ensures forall k :: 0 <= k < |r| ==> r[k].Triangle? && r[k].v3 == boundary && r[k].c3 == boundaryColor
    ensures r[0].v1 == begin && r[0].c1 == beginCell.color
    ensures r[|r| - 1].v2 == g.terraceLerp(begin, left, g.terraceSteps)
    ensures r[|r| - 1].c2 == g.terraceColorLerp(beginCell.color, leftCell.color, g.terraceSteps)
    ensures FanChain(r)
  {
    seq(g.terraceSteps, k requires 0 <= k =>
      Triangle(TerracePoint(g, begin, left, k), TerracePoint(g, begin, left, k + 1), boundary,
               TerraceColor(g, beginCell.color, leftCell.color, k),
               TerraceColor(g, beginCell.color, leftCell.color, k + 1), boundaryColor))
  }

  /** A corner whose left side is a cliff: a boundary point on the cliff one
      step up, and one fan from the sloped right side to it. */
  function CornerCliffTerraces(g: Metrics, begin: Vector3, beginCell: HexCell, left: Vector3, leftCell: HexCell,
                               right: Vector3, rightCell: HexCell): (r: seq<Primitive>)
    requires leftCell.elevation != beginCell.elevation
    ensures var b := BoundaryFactor(beginCell.elevation, leftCell.elevation);
      && |r| == g.terraceSteps
      && r[0].v1 == right && r[0].c1 == rightCell.color
      && r[|r| - 1].v2 == g.terraceLerp(right, begin, g.terraceSteps)
      && r[|r| - 1].c2 == g.terraceColorLerp(rightCell.color, beginCell.color, g.terraceSteps)
      && FanChain(r)
      && forall k :: 0 <= k < |r| ==>
           r[k].Triangle? && r[k].v3 == g.lerp(begin, left, b) &&
           r[k].c3 == g.colorLerp(beginCell.color, leftCell.color, b)
  {
    var b := BoundaryFactor(beginCell.elevation, leftCell.elevation);
    var boundary := g.lerp(begin, left, b);
    var boundaryColor := g.colorLerp(beginCell.color, leftCell.color, b);
    BoundaryTriangle(g, right, rightCell, begin, beginCell, boundary, boundaryColor)
  }

  /** A corner whose right side is a cliff: a boundary point on the cliff one
      step up, a fan from the begin..left slope to it, then either a second
      fan from left to right (when those two form a Slope) or one closing
      triangle (left, right, boundary). Every triangle ends at the boundary. */
  function CornerTerracesCliff(g: Metrics, begin: Vector3, beginCell: HexCell, left: Vector3, leftCell: HexCell,
                               right: Vector3, rightCell: HexCell): (r: seq<Primitive>)
    requires rightCell.elevation != beginCell.elevation
    ensures var b := BoundaryFactor(beginCell.elevation, rightCell.elevation);
      var boundary, boundaryColor := g.lerp(begin, right, b), g.colorLerp(beginCell.color, rightCell.color, b);
      && |r| == g.terraceSteps + (if GetEdgeType(leftCell.elevation, rightCell.elevation) == Slope
                                  then g.terraceSteps else 1)
      && r[..g.terraceSteps] == BoundaryTriangle(g, begin, beginCell, left, leftCell, boundary, boundaryColor)
      && (GetEdgeType(leftCell.elevation, rightCell.elevation) == Slope ==>
            r[g.terraceSteps..] == BoundaryTriangle(g, left, leftCell, right, rightCell, boundary, boundaryColor))
      && (GetEdgeType(leftCell.elevation, rightCell.elevation) != Slope ==>
            r[g.terraceSteps..] == [Triangle(left, right, boundary, leftCell.color, rightCell.color, boundaryColor)])
      && forall k :: 0 <= k < |r| ==> r[k].Triangle? && r[k].v3 == boundary && r[k].c3 == boundaryColor
  {
    var b := BoundaryFactor(beginCell.elevation, rightCell.elevation);
    var boundary := g.lerp(begin, right, b);
    var boundaryColor := g.colorLerp(beginCell.color, rightCell.color, b);
    var first := BoundaryTriangle(g, begin, beginCell, left, leftCell, boundary, boundaryColor);
    if GetEdgeType(leftCell.elevation, rightCell.elevation) == Slope then
      first + BoundaryTriangle(g, left, leftCell, right, rightCell, boundary, boundaryColor)
    else
      first + [Triangle(left, right, boundary, leftCell.color, rightCell.color, boundaryColor)]
  }

  /** The corner between a pivot and two neighbours, dispatched on the edge
      types from the pivot to each side. It emits something exactly when one
      of the two sides is a Slope. */
  function Corner(g: Metrics, bottom: Vector3, bottomCell: HexCell, left: Vector3, leftCell: HexCell,
                  right: Vector3, rightCell: HexCell): (r: seq<Primitive>)
    ensures r != [] <==> (GetEdgeType(bottomCell.elevation, leftCell.elevation) == Slope ||
                          GetEdgeType(bottomCell.elevation, rightCell.elevation) == Slope)
    ensures var leftEdge, rightEdge := GetEdgeType(bottomCell.elevation, leftCell.elevation),
                                       GetEdgeType(bottomCell.elevation, rightCell.elevation);
      && (leftEdge == Slope && rightEdge != Flat ==> r[0].v1 == bottom && r[0].c1 == bottomCell.color)
      && (leftEdge == Slope && rightEdge == Flat ==> r[0].v1 == left && r[0].c1 == leftCell.color)
      && (leftEdge != Slope && rightEdge == Slope ==> r[0].v1 == right && r[0].c1 == rightCell.color)
    ensures var leftEdge, rightEdge := GetEdgeType(bottomCell.elevation, leftCell.elevation),
                                       GetEdgeType(bottomCell.elevation, rightCell.elevation);
      && (leftEdge == Slope && rightEdge == Slope ==>
            r == CornerTerraces(g, bottom, bottomCell, left, leftCell, right, rightCell))
      && (leftEdge == Slope && rightEdge == Flat ==>
            r == CornerTerraces(g, left, leftCell, right, rightCell, bottom, bottomCell))
      && (leftEdge == Flat && rightEdge == Slope ==>
            r == CornerTerraces(g, right, rightCell, bottom, bottomCell, left, leftCell))
      && (leftEdge == Slope && rightEdge == Cliff ==>
            r == CornerTerracesCliff(g, bottom, bottomCell, left, leftCell, right, rightCell))
      && (leftEdge == Cliff && rightEdge == Slope ==>
            r == CornerCliffTerraces(g, bottom, bottomCell, left, leftCell, right, rightCell))
  {
    match (GetEdgeType(bottomCell.elevation, leftCell.elevation),
           GetEdgeType(bottomCell.elevation, rightCell.elevation))
    case (Slope, Slope) => CornerTerraces(g, bottom, bottomCell, left, leftCell, right, rightCell)
    case (Slope, Flat) => CornerTerraces(g, left, leftCell, right, rightCell, bottom, bottomCell)
    case (Slope, Cliff) => CornerTerracesCliff(g, bottom, bottomCell, left, leftCell, right, rightCell)
    case (Flat, Slope) => CornerTerraces(g, right, rightCell, bottom, bottomCell, left, leftCell)
    case (Cliff, Slope) => CornerCliffTerraces(g, bottom, bottomCell, left, leftCell, right, rightCell)
    case _ => []
  }

  /** A corner vertex with the cell it belongs to. */
  datatype CornerVertex = CornerVertex(position: Vector3, cell: HexCell)

  /** The order in which the three cells of a corner are handed to Corner:
      always a rotation of (a, b, c), and always starting with a lowest cell. */
  function Pivot(a: CornerVertex, b: CornerVertex, c: CornerVertex): (r: (CornerVertex, CornerVertex, CornerVertex))
    ensures r.0.cell.elevation <= r.1.cell.elevation && r.0.cell.elevation <= r.2.cell.elevation
    ensures r == (a, b, c) || r == (c, a, b) || r == (b, c, a)
  {
    if a.cell.elevation <= b.cell.elevation then
      if a.cell.elevation <= c.cell.elevation then (a, b, c) else (c, a, b)
    else if b.cell.elevation <= c.cell.elevation then (b, c, a)
    else (c, a, b)
  }

  /** The pivoted corner of a cell, its neighbour and the next neighbour. */
  function PivotedCorner(g: Metrics, a: CornerVertex, b: CornerVertex, c: CornerVertex): seq<Primitive>
  {
    var (bottom, left, right) := Pivot(a, b, c);
    Corner(g, bottom.position, bottom.cell, left.position, left.cell, right.position, right.cell)
  }

  /** Whatever the three elevations, a cliff fan in a pivoted corner divides
      by a difference of at least two elevation steps. */
  lemma PivotedCliffDivisor(a: CornerVertex, b: CornerVertex, c: CornerVertex)
    ensures var (bottom, left, right) := Pivot(a, b, c);
      var leftEdge := GetEdgeType(bottom.cell.elevation, left.cell.elevation);
      var rightEdge := GetEdgeType(bottom.cell.elevation, right.cell.elevation);
      && (leftEdge == Slope && rightEdge == Cliff ==>
            right.cell.elevation - bottom.cell.elevation >= 2 &&
            0.0 < BoundaryFactor(bottom.cell.elevation, right.cell.elevation) <= 0.5)
      && (leftEdge == Cliff && rightEdge == Slope ==>
            left.cell.elevation - bottom.cell.elevation >= 2 &&
            0.0 < BoundaryFactor(bottom.cell.elevation, left.cell.elevation) <= 0.5)
  {
  }

  /** Three cells at one elevation need no corner fan. */
  lemma FlatCornerIsEmpty(g: Metrics, a: CornerVertex, b: CornerVertex, c: CornerVertex)
    requires a.cell.elevation == b.cell.elevation == c.cell.elevation
    ensures PivotedCorner(g, a, b, c) == []
  {
  }

  /** A connection between three cells at one elevation is the single
      flat bridge quad, blending the two cells' colours. */
  lemma FlatConnection(g: Metrics, direction: HexDirection, cell: HexCell, v1: Vector3, v2: Vector3)
    requires direction in cell.neighbors && cell.neighbors[direction].elevation == cell.elevation
    requires Next(direction) in cell.neighbors ==> cell.neighbors[Next(direction)].elevation == cell.elevation
    ensures var neighbor := cell.neighbors[direction];
      Connection(g, direction, cell, v1, v2) ==
        [Quad(v1, v2, BridgeEnd(g, direction, v1, neighbor), BridgeEnd(g, direction, v2, neighbor),
              cell.color, cell.color, neighbor.color, neighbor.color)]
  {
  }

  // ------------------------------------------------------------ per cell

  /** The corner handled by the connection in a direction: only for NE and
      E, and only when the next neighbour exists too. */
  function ConnectionCorner(g: Metrics, direction: HexDirection, cell: HexCell, neighbor: HexCell,
                            v2: Vector3): seq<Primitive>
  {
    match GetNeighbor(cell, Next(direction))
    case None => []
    case Some(nextNeighbor) =>
      if Ord(direction) <= Ord(E) then
        var v4 := BridgeEnd(g, direction, v2, neighbor);
        var v5 := BridgeEnd(g, Next(direction), v2, nextNeighbor);
        PivotedCorner(g, CornerVertex(v2, cell), CornerVertex(v4, neighbor), CornerVertex(v5, nextNeighbor))
      else []
  }

  /** The connection across the edge of a direction: nothing without a
      neighbour, otherwise the bridge followed by the corner. */
  function Connection(g: Metrics, direction: HexDirection, cell: HexCell, v1: Vector3, v2: Vector3): (r: seq<Primitive>)
    ensures GetNeighbor(cell, direction).None? ==> r == []
    ensures GetNeighbor(cell, direction).Some? ==>
              var neighbor := GetNeighbor(cell, direction).value;
              |r| >= |Bridge(g, direction, cell, neighbor, v1, v2)| &&
              r[..|Bridge(g, direction, cell, neighbor, v1, v2)|] == Bridge(g, direction, cell, neighbor, v1, v2)
    ensures (Ord(direction) > Ord(E) || GetNeighbor(cell, Next(direction)).None?) && GetNeighbor(cell, direction).Some? ==>
              r == Bridge(g, direction, cell, GetNeighbor(cell, direction).value, v1, v2)
    ensures Ord(direction) <= Ord(E) && direction in cell.neighbors && Next(direction) in cell.neighbors ==>
              var neighbor, nextNeighbor := cell.neighbors[direction], cell.neighbors[Next(direction)];
              var bridge := Bridge(g, direction, cell, neighbor, v1, v2);
              r[|bridge|..] == PivotedCorner(g, CornerVertex(v2, cell), CornerVertex(BridgeEnd(g, direction, v2, neighbor), neighbor),
                                             CornerVertex(BridgeEnd(g, Next(direction), v2, nextNeighbor), nextNeighbor))
  {
    match GetNeighbor(cell, direction)
    case None => []
    case Some(neighbor) =>
      Bridge(g, direction, cell, neighbor, v1, v2) + ConnectionCorner(g, direction, cell, neighbor, v2)
  }

  /** The solid corners of a cell in a direction. */
  function SolidCorners(g: Metrics, direction: HexDirection, cell: HexCell): (Vector3, Vector3)
  {
    (g.add(cell.position, g.firstSolidCorner(direction)), g.add(cell.position, g.secondSolidCorner(direction)))
  }

  /** One direction of a cell: first its fan triangle (centre, v1, v2) in the
      cell's colour, then, for NE, E and SE only, the connection. */
  function DirectionTriangles(g: Metrics, direction: HexDirection, cell: HexCell): (r: seq<Primitive>)
    ensures var (v1, v2) := SolidCorners(g, direction, cell);
      && |r| >= 1
      && r[0] == Triangle(cell.position, v1, v2, cell.color, cell.color, cell.color)
      && (Ord(direction) > Ord(SE) || GetNeighbor(cell, direction).None? ==> |r| == 1)
      && (Ord(direction) <= Ord(SE) ==> r[1..] == Connection(g, direction, cell, v1, v2))
  {
    var (v1, v2) := SolidCorners(g, direction, cell);
    [Triangle(cell.position, v1, v2, cell.color, cell.color, cell.color)]
    + (if Ord(direction) <= Ord(SE) then Connection(g, direction, cell, v1, v2) else [])
  }

  /** The first n directions of a cell, in the order NE, E, SE, SW, W, NW. */
  function CellDirections(g: Metrics, cell: HexCell, n: nat): seq<Primitive>
    requires n <= 6
  {
    if n == 0 then [] else CellDirections(g, cell, n - 1) + DirectionTriangles(g, FromOrd(n - 1), cell)
  }

  /** Everything one cell emits. */
  function CellTriangles(g: Metrics, cell: HexCell): seq<Primitive>
  {
    CellDirections(g, cell, 6)
  }

  /** Everything a list of cells emits, cell after cell. */
  function CellsTriangles(g: Metrics, cells: seq<HexCell>): seq<Primitive>
    decreases |cells|
  {
    if cells == [] then [] else CellsTriangles(g, cells[..|cells| - 1]) + CellTriangles(g, cells[|cells| - 1])
  }

  /** A cell without neighbours emits exactly its six fan triangles. */
  lemma IsolatedCell(g: Metrics, cell: HexCell)
    requires cell.neighbors == map[]
    ensures |CellTriangles(g, cell)| == 6
    ensures forall k :: 0 <= k < 6 ==>
      var (v1, v2) := SolidCorners(g, FromOrd(k), cell);
      CellTriangles(g, cell)[k] == Triangle(cell.position, v1, v2, cell.color, cell.color, cell.color)
  {
    var r := CellTriangles(g, cell);
    forall n | 0 <= n <= 6
      ensures |CellDirections(g, cell, n)| == n
    {
      IsolatedCellPrefix(g, cell, n);
    }
    forall k | 0 <= k < 6
      ensures var (v1, v2) := SolidCorners(g, FromOrd(k), cell);
        r[k] == Triangle(cell.position, v1, v2, cell.color, cell.color, cell.color)
    {
      IsolatedCellPrefix(g, cell, 6);
    }
  }

  lemma {:induction false} IsolatedCellPrefix(g: Metrics, cell: HexCell, n: nat)
    requires n <= 6
    requires cell.neighbors == map[]
    ensures |CellDirections(g, cell, n)| == n
    ensures forall k :: 0 <= k < n ==>
      var (v1, v2) := SolidCorners(g, FromOrd(k), cell);
      CellDirections(g, cell, n)[k] == Triangle(cell.position, v1, v2, cell.color, cell.color, cell.color)
  {
    if n > 0 {
      IsolatedCellPrefix(g, cell, n - 1);
      var d := FromOrd(n - 1);
      assert GetNeighbor(cell, d).None?;
      assert |DirectionTriangles(g, d, cell)| == 1;
    }
  }

  /** The buffers a full pass over any list of cells produces are well
      formed: positions and colours aligned, whole triangles, indices in range. */
  lemma TriangulationWellFormed(g: Metrics, cells: seq<HexCell>)
    ensures WellFormed(AppendAll(Empty, CellsTriangles(g, cells)))
  {
    AppendAllWellFormed(Empty, CellsTriangles(g, cells));
  }
}
