/** A terrain cell as the triangulation reads it. HexCell itself is not part
    of this model; this is a snapshot of the members the mesh uses. */
module HexCells {
  import opened Wrappers
  import opened HexDirections
  import opened HexMetrics

  /** A cell's local position, elevation, colour and the neighbours that
      exist; a direction missing from the map has no neighbour. */
  datatype HexCell = HexCell(
    position: Vector3,
    elevation: int,
    color: Color,
    neighbors: map<HexDirection, HexCell>)

  /** The neighbour in a direction, or None at the edge of the grid. */
  function GetNeighbor(cell: HexCell, direction: HexDirection): Option<HexCell>
  {
    if direction in cell.neighbors then Some(cell.neighbors[direction]) else None
  }
}
