/** The geometry table the triangulation reads. HexMetrics is not part of
    this model: its corner offsets, bridges, interpolation functions and step
    count are parameters, and its elevation classifier is an assumed
    definition stated below. */
module HexMetrics {
  import opened HexDirections

  /** A point or offset in space; its floating-point arithmetic is not modelled. */
  type Vector3

  /** A vertex colour; only its identity matters to the triangulation. */
  type Color

  /** The number of terrace steps on a slope: at least one. */
  type StepCount = n: int | 1 <= n witness 1

  /** The values and functions of the geometry table, uninterpreted. */
  datatype Metrics = Metrics(
    /** Inner-hexagon corner on the counter-clockwise side of a direction. */
    firstSolidCorner: HexDirection -> Vector3,
    /** Inner-hexagon corner on the clockwise side of a direction. */
    secondSolidCorner: HexDirection -> Vector3,
    /** Offset across the edge of a direction to the neighbour's solid edge. */
    bridge: HexDirection -> Vector3,
    terraceSteps: StepCount,
    /** Stair-step interpolation from a towards b at step i. */
    terraceLerp: (Vector3, Vector3, int) -> Vector3,
    terraceColorLerp: (Color, Color, int) -> Color,
    /** Linear interpolation with a real factor (Vector3.Lerp, Color.Lerp). */
    lerp: (Vector3, Vector3, real) -> Vector3,
    colorLerp: (Color, Color, real) -> Color,
    /** Vector addition. */
    add: (Vector3, Vector3) -> Vector3,
    /** The point with its height replaced by elevation times the elevation step. */
    atElevation: (Vector3, int) -> Vector3)

  /** ASSUMED classification of two elevations: equal is Flat, one apart is
      Slope, anything else is Cliff. */
  function GetEdgeType(elevation1: int, elevation2: int): HexEdgeType
  {
    if elevation1 == elevation2 then Flat
    else if elevation1 - elevation2 == 1 || elevation2 - elevation1 == 1 then Slope
    else Cliff
  }

  /** The classification does not depend on the order of the two cells, and
      a Cliff always spans at least two elevation steps. */
  lemma EdgeTypeSymmetric(elevation1: int, elevation2: int)
    ensures GetEdgeType(elevation1, elevation2) == GetEdgeType(elevation2, elevation1)
    ensures GetEdgeType(elevation1, elevation2) == Cliff <==>
              (elevation1 - elevation2 >= 2 || elevation2 - elevation1 >= 2)
  {
  }

  /** The factor 1 / (cliffElevation - beginElevation) placing a cliff
      boundary point one elevation step above the begin cell. */
  function BoundaryFactor(beginElevation: int, cliffElevation: int): (b: real)
    requires beginElevation != cliffElevation
    ensures b * (cliffElevation - beginElevation) as real == 1.0
  {
    1.0 / (cliffElevation - beginElevation) as real
  }

  /** Across a Cliff that rises from the begin cell, the divisor is at least
      two, so the boundary factor lies in (0, 1/2]. */
  lemma CliffBoundaryFactor(beginElevation: int, cliffElevation: int)
    requires beginElevation <= cliffElevation
    requires GetEdgeType(beginElevation, cliffElevation) == Cliff
    ensures cliffElevation - beginElevation >= 2
    ensures 0.0 < BoundaryFactor(beginElevation, cliffElevation) <= 0.5
  {
  }
}
