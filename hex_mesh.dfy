/** The mesh component: three growable lists filled by a triangulation pass,
    and the routines that fill them. Every routine is proved to append
    exactly the shapes its specification function in Triangulation lists. */
module HexMeshes {
  import opened Wrappers
  import opened HexDirections
  import opened HexMetrics
  import opened HexCells
  import opened MeshBuffers
  import opened Triangulation

  class HexMesh {
    /** The geometry table the routines read. */
    const metrics: Metrics
    var vertices: seq<Vector3>
    var colors: seq<Color>
    var triangles: seq<int>

    /** The three lists as one value. */
    function Data(): MeshData
      reads this
    {
      MeshData(vertices, colors, triangles)
    }

    /** Creates the component with three empty lists. */
    constructor (metrics: Metrics)
      ensures this.metrics == metrics && Data() == Empty
    {
      this.metrics := metrics;
      vertices := [];
      colors := [];
      triangles := [];
    }

    // ------------------------------------------------------ buffer builder

    /** Appends v1, v2, v3 and the indices n, n + 1, n + 2, where n is the
        old vertex count; the colours are left to the colour call. */
    method AddTriangle(v1: Vector3, v2: Vector3, v3: Vector3)
      modifies this
      ensures vertices == old(vertices) + [v1, v2, v3]
      ensures colors == old(colors)
      ensures triangles == old(triangles) + [|old(vertices)|, |old(vertices)| + 1, |old(vertices)| + 2]
    {
      var vertexIndex := |vertices|;
      vertices := vertices + [v1];
      vertices := vertices + [v2];
      vertices := vertices + [v3];
      triangles := triangles + [vertexIndex];
      triangles := triangles + [vertexIndex + 1];
      triangles := triangles + [vertexIndex + 2];
    }

    /** Colours the last triangle uniformly: appends color three times. */
    method AddTriangleColor(color: Color)
      modifies this
      ensures colors == old(colors) + [color, color, color]
      ensures vertices == old(vertices) && triangles == old(triangles)
    {
      colors := colors + [color];
      colors := colors + [color];
      colors := colors + [color];
    }

    /** Colours the last triangle per vertex: appends c1, c2, c3. */
    method AddTriangleColors(c1: Color, c2: Color, c3: Color)
      modifies this
      ensures colors == old(colors) + [c1, c2, c3]
      ensures vertices == old(vertices) && triangles == old(triangles)
    {
      colors := colors + [c1];
      colors := colors + [c2];
      colors := colors + [c3];
    }

    /** Appends v1..v4 and the indices n, n + 2, n + 1, n + 1, n + 2, n + 3,
        where n is the old vertex count. */
    method AddQuad(v1: Vector3, v2: Vector3, v3: Vector3, v4: Vector3)
      modifies this
      ensures vertices == old(vertices) + [v1, v2, v3, v4]
      ensures colors == old(colors)
      ensures var n := |old(vertices)|; triangles == old(triangles) + [n, n + 2, n + 1, n + 1, n + 2, n + 3]
    {
      var vertexIndex := |vertices|;
      vertices := vertices + [v1];
      vertices := vertices + [v2];
      vertices := vertices + [v3];
      vertices := vertices + [v4];
      triangles := triangles + [vertexIndex];
      triangles := triangles + [vertexIndex + 2];
      triangles := triangles + [vertexIndex + 1];
      triangles := triangles + [vertexIndex + 1];
      triangles := triangles + [vertexIndex + 2];
      triangles := triangles + [vertexIndex + 3];
    }

    /** Colours the last quad by column pair: appends c1, c1, c2, c2. */
    method AddQuadColor(c1: Color, c2: Color)
      modifies this
      ensures colors == old(colors) + [c1, c1, c2, c2]
      ensures vertices == old(vertices) && triangles == old(triangles)
    {
      colors := colors + [c1];
      colors := colors + [c1];
      colors := colors + [c2];
      colors := colors + [c2];
    }

    /** Colours the last quad per corner: appends c1, c2, c3, c4. */
    method AddQuadColors(c1: Color, c2: Color, c3: Color, c4: Color)
      modifies this
      ensures colors == old(colors) + [c1, c2, c3, c4]
      ensures vertices == old(vertices) && triangles == old(triangles)
    {
      colors := colors + [c1];
      colors := colors + [c2];
      colors := colors + [c3];
      colors := colors + [c4];
    }

    // ---------------------------------------------------------- the pass

    /** Clears the lists and triangulates every cell in order. The result
        depends only on the cells, and the lists are well formed. */
    method Triangulate(cells: seq<HexCell>)
      modifies this
      ensures Data() == AppendAll(Empty, CellsTriangles(metrics, cells))
      ensures WellFormed(Data())
    {
      vertices := [];
      colors := [];
      triangles := [];
      for i := 0 to |cells|
        invariant Data() == AppendAll(Empty, CellsTriangles(metrics, cells[..i]))
      {
        TriangulateCell(cells[i]);
        assert cells[..i + 1][..i] == cells[..i];
        AppendAllConcat(Empty, CellsTriangles(metrics, cells[..i]), CellTriangles(metrics, cells[i]));
      }
      assert cells[..|cells|] == cells;
      TriangulationWellFormed(metrics, cells);
    }

    /** The six directions of one cell, NE first. */
    method TriangulateCell(cell: HexCell)
      modifies this
      ensures Data() == AppendAll(old(Data()), CellTriangles(metrics, cell))
    {
      for d := 0 to 6
        invariant Data() == AppendAll(old(Data()), CellDirections(metrics, cell, d))
      {
        TriangulateDirection(FromOrd(d), cell);
        AppendAllConcat(old(Data()), CellDirections(metrics, cell, d), DirectionTriangles(metrics, FromOrd(d), cell));
      }
    }

    /** The fan triangle of one direction, then the connection for NE, E, SE. */
    method TriangulateDirection(direction: HexDirection, cell: HexCell)
      modifies this
      ensures Data() == AppendAll(old(Data()), DirectionTriangles(metrics, direction, cell))
    {
      var center := cell.position;
      var v1 := metrics.add(center, metrics.firstSolidCorner(direction));
      var v2 := metrics.add(center, metrics.secondSolidCorner(direction));
      AddTriangle(center, v1, v2);
      AddTriangleColor(cell.color);
      ghost var fan := Triangle(center, v1, v2, cell.color, cell.color, cell.color);
      assert Data() == AppendAll(old(Data()), [fan]);
      if Ord(direction) <= Ord(SE) {
        TriangulateConnection(direction, cell, v1, v2);
        AppendAllConcat(old(Data()), [fan], Connection(metrics, direction, cell, v1, v2));
      } else {
        assert [fan] + [] == [fan];
      }
    }

    /** The bridge to the neighbour in a direction and, for NE and E, the
        corner with the next neighbour, pivoted on the lowest cell. */
    method TriangulateConnection(direction: HexDirection, cell: HexCell, v1: Vector3, v2: Vector3)
      modifies this
      ensures Data() == AppendAll(old(Data()), Connection(metrics, direction, cell, v1, v2))
    {
      var neighborRef := GetNeighbor(cell, direction);
      if neighborRef.None? {
        return;
      }
      var neighbor := neighborRef.value;

      var bridge := metrics.bridge(direction);
      var v3 := metrics.add(v1, bridge);
      var v4 := metrics.add(v2, bridge);
      v3 := metrics.atElevation(v3, neighbor.elevation);
      v4 := metrics.atElevation(v4, neighbor.elevation);

      ghost var bridgeSpec := Bridge(metrics, direction, cell, neighbor, v1, v2);
      if GetEdgeType(cell.elevation, neighbor.elevation) == Slope {
        TriangulateEdgeTerraces(v1, v2, cell, v3, v4, neighbor);
        assert bridgeSpec == EdgeTerraces(metrics, v1, v2, cell, v3, v4, neighbor);
      } else {
        AddQuad(v1, v2, v3, v4);
        AddQuadColor(cell.color, neighbor.color);
        assert bridgeSpec == [Quad(v1, v2, v3, v4, cell.color, cell.color, neighbor.color, neighbor.color)];
      }
      assert Data() == AppendAll(old(Data()), bridgeSpec);
      ghost var mid := Data();
      ghost var cornerSpec := ConnectionCorner(metrics, direction, cell, neighbor, v2);

      var nextNeighbor := GetNeighbor(cell, Next(direction));
      if Ord(direction) <= Ord(E) && nextNeighbor.Some? {
        var next := nextNeighbor.value;
        var v5 := metrics.add(v2, metrics.bridge(Next(direction)));
        v5 := metrics.atElevation(v5, next.elevation);
        ghost var a, b, c := CornerVertex(v2, cell), CornerVertex(v4, neighbor), CornerVertex(v5, next);
        assert cornerSpec == PivotedCorner(metrics, a, b, c);

        if cell.elevation <= neighbor.elevation {
          if cell.elevation <= next.elevation {
            assert Pivot(a, b, c) == (a, b, c);
            TriangulateCorner(v2, cell, v4, neighbor, v5, next);
          } else {
            assert Pivot(a, b, c) == (c, a, b);
            TriangulateCorner(v5, next, v2, cell, v4, neighbor);
          }
        } else if neighbor.elevation <= next.elevation {
          assert Pivot(a, b, c) == (b, c, a);
          TriangulateCorner(v4, neighbor, v5, next, v2, cell);
        } else {
          assert Pivot(a, b, c) == (c, a, b);
          TriangulateCorner(v5, next, v2, cell, v4, neighbor);
        }
      } else {
        assert cornerSpec == [];
      }
      assert Data() == AppendAll(mid, cornerSpec);
      AppendAllConcat(old(Data()), bridgeSpec, cornerSpec);
    }

    /** The corner dispatch on the edge types from the pivot to each side;
        at most one routine runs. */
    method TriangulateCorner(bottom: Vector3, bottomCell: HexCell, left: Vector3, leftCell: HexCell,
                             right: Vector3, rightCell: HexCell)
      modifies this
      ensures Data() == AppendAll(old(Data()), Corner(metrics, bottom, bottomCell, left, leftCell, right, rightCell))
    {
      var leftEdgeType := GetEdgeType(bottomCell.elevation, leftCell.elevation);
      var rightEdgeType := GetEdgeType(bottomCell.elevation, rightCell.elevation);

      if leftEdgeType == Slope {
        if rightEdgeType == Slope {
          TriangulateCornerTerraces(bottom, bottomCell, left, leftCell, right, rightCell);
          return;
        } else if rightEdgeType == Flat {
          TriangulateCornerTerraces(left, leftCell, right, rightCell, bottom, bottomCell);
          return;
        }
        TriangulateCornerTerracesCliff(bottom, bottomCell, left, leftCell, right, rightCell);
      }
      if leftEdgeType == Flat {
        if rightEdgeType == Slope {
          TriangulateCornerTerraces(right, rightCell, bottom, bottomCell, left, leftCell);
        }
      }
      if leftEdgeType == Cliff {
        if rightEdgeType == Slope {
          TriangulateCornerCliffTerraces(bottom, bottomCell, left, leftCell, right, rightCell);
        }
      }
    }

    /** A corner terraced on both sides: one triangle, then the quads of
        steps 2..terraceSteps, shifting the previous step's edge forward. */
    method TriangulateCornerTerraces(begin: Vector3, beginCell: HexCell, left: Vector3, leftCell: HexCell,
                                     right: Vector3, rightCell: HexCell)
      modifies this
      ensures Data() == AppendAll(old(Data()), CornerTerraces(metrics, begin, beginCell, left, leftCell, right, rightCell))
    {
      ghost var spec := CornerTerraces(metrics, begin, beginCell, left, leftCell, right, rightCell);
      var v1 := metrics.terraceLerp(begin, left, 1);
      var v2 := metrics.terraceLerp(begin, right, 1);
      var c1 := metrics.terraceColorLerp(beginCell.color, leftCell.color, 1);
      var c2 := metrics.terraceColorLerp(beginCell.color, rightCell.color, 1);
      AddTriangle(begin, v1, v2);
      AddTriangleColors(beginCell.color, c1, c2);
      assert Data() == AppendAll(old(Data()), spec[..1]);

      var v3 := v1;
      var v4 := v2;
      var c3 := c1;
      var c4 := c2;
      for i := 2 to metrics.terraceSteps + 1
        invariant v3 == TerracePoint(metrics, begin, left, i - 1)
        invariant v4 == TerracePoint(metrics, begin, right, i - 1)
        invariant c3 == TerraceColor(metrics, beginCell.color, leftCell.color, i - 1)
        invariant c4 == TerraceColor(metrics, beginCell.color, rightCell.color, i - 1)
        invariant Data() == AppendAll(old(Data()), spec[..i - 1])
      {
        v1 := v3;
        v2 := v4;
        c1 := c3;
        c2 := c4;
        v3 := metrics.terraceLerp(begin, left, i);
        v4 := metrics.terraceLerp(begin, right, i);
        c3 := metrics.terraceColorLerp(beginCell.color, leftCell.color, i);
        c4 := metrics.terraceColorLerp(beginCell.color, rightCell.color, i);
        ghost var before := Data();
        AddQuad(v1, v2, v3, v4);
        AddQuadColors(c1, c2, c3, c4);
        assert spec[i - 1] == Quad(v1, v2, v3, v4, c1, c2, c3, c4);
        assert Data() == AppendAll(before, [spec[i - 1]]);
        assert spec[..i] == spec[..i - 1] + [spec[i - 1]];
        AppendAllConcat(old(Data()), spec[..i - 1], [spec[i - 1]]);
      }
      assert spec[..|spec|] == spec;
    }

    /** A corner with a cliff on the left: one fan from the right slope to
        the boundary point on the cliff. */
    method TriangulateCornerCliffTerraces(begin: Vector3, beginCell: HexCell, left: Vector3, leftCell: HexCell,
                                          right: Vector3, rightCell: HexCell)
      requires leftCell.elevation != beginCell.elevation
      modifies this
      ensures Data() == AppendAll(old(Data()), CornerCliffTerraces(metrics, begin, beginCell, left, leftCell, right, rightCell))
    {
      var b := 1.0 / (leftCell.elevation - beginCell.elevation) as real;
      var boundary := metrics.lerp(begin, left, b);
      var boundaryColor := metrics.colorLerp(beginCell.color, leftCell.color, b);
      TriangulateBoundaryTriangle(right, rightCell, begin, beginCell, boundary, boundaryColor);
    }

    /** A corner with a cliff on the right: a fan from the left slope to the
        boundary point, then a second fan or one closing triangle. */
    method TriangulateCornerTerracesCliff(begin: Vector3, beginCell: HexCell, left: Vector3, leftCell: HexCell,
                                          right: Vector3, rightCell: HexCell)
      requires rightCell.elevation != beginCell.elevation
      modifies this
      ensures Data() == AppendAll(old(Data()), CornerTerracesCliff(metrics, begin, beginCell, left, leftCell, right, rightCell))
    {
      var b := 1.0 / (rightCell.elevation - beginCell.elevation) as real;
      var boundary := metrics.lerp(begin, right, b);
      var boundaryColor := metrics.colorLerp(beginCell.color, rightCell.color, b);

      ghost var first := BoundaryTriangle(metrics, begin, beginCell, left, leftCell, boundary, boundaryColor);
      TriangulateBoundaryTriangle(begin, beginCell, left, leftCell, boundary, boundaryColor);
      ghost var second: seq<Primitive>;
      if GetEdgeType(leftCell.elevation, rightCell.elevation) == Slope {
        second := BoundaryTriangle(metrics, left, leftCell, right, rightCell, boundary, boundaryColor);
        TriangulateBoundaryTriangle(left, leftCell, right, rightCell, boundary, boundaryColor);
      } else {
        second := [Triangle(left, right, boundary, leftCell.color, rightCell.color, boundaryColor)];
        AddTriangle(left, right, boundary);
        AddTriangleColors(leftCell.color, rightCell.color, boundaryColor);
      }
      AppendAllConcat(old(Data()), first, second);
    }

    /** A fan of terraceSteps triangles from the stair path begin..left to
        the boundary point, shifting the previous stair point forward. */
    method TriangulateBoundaryTriangle(begin: Vector3, beginCell: HexCell, left: Vector3, leftCell: HexCell,
                                       boundary: Vector3, boundaryColor: Color)
      modifies this
      ensures Data() == AppendAll(old(Data()), BoundaryTriangle(metrics, begin, beginCell, left, leftCell, boundary, boundaryColor))
    {
      ghost var spec := BoundaryTriangle(metrics, begin, beginCell, left, leftCell, boundary, boundaryColor);
      var v2 := begin;
      var c2 := beginCell.color;
      for i := 1 to metrics.terraceSteps + 1
        invariant v2 == TerracePoint(metrics, begin, left, i - 1)
        invariant c2 == TerraceColor(metrics, beginCell.color, leftCell.color, i - 1)
        invariant Data() == AppendAll(old(Data()), spec[..i - 1])
      {
        var v1 := v2;
        var c1 := c2;
        v2 := metrics.terraceLerp(begin, left, i);
        c2 := metrics.terraceColorLerp(beginCell.color, leftCell.color, i);
        ghost var before := Data();
        AddTriangle(v1, v2, boundary);
        AddTriangleColors(c1, c2, boundaryColor);
        assert spec[i - 1] == Triangle(v1, v2, boundary, c1, c2, boundaryColor);
        assert Data() == AppendAll(before, [spec[i - 1]]);
        assert spec[..i] == spec[..i - 1] + [spec[i - 1]];
        AppendAllConcat(old(Data()), spec[..i - 1], [spec[i - 1]]);
      }
      assert spec[..|spec|] == spec;
    }

    /** A sloped edge: terraceSteps quads, each starting where the previous
        one ended, coloured one step of the blend at a time. */
    method TriangulateEdgeTerraces(beginLeft: Vector3, beginRight: Vector3, beginCell: HexCell,
                                   endLeft: Vector3, endRight: Vector3, endCell: HexCell)
      modifies this
      ensures Data() == AppendAll(old(Data()), EdgeTerraces(metrics, beginLeft, beginRight, beginCell, endLeft, endRight, endCell))
    {
      ghost var spec := EdgeTerraces(metrics, beginLeft, beginRight, beginCell, endLeft, endRight, endCell);
      var v1 := beginLeft;
      var v2 := beginRight;
      var v3 := beginLeft;
      var v4 := beginRight;
      var c1 := beginCell.color;
      var c2 := beginCell.color;

      for i := 1 to metrics.terraceSteps + 1
        invariant v3 == TerracePoint(metrics, beginLeft, endLeft, i - 1)
        invariant v4 == TerracePoint(metrics, beginRight, endRight, i - 1)
        invariant c2 == TerraceColor(metrics, beginCell.color, endCell.color, i - 1)
        invariant Data() == AppendAll(old(Data()), spec[..i - 1])
      {
        v1 := v3;
        v2 := v4;
        v3 := metrics.terraceLerp(beginLeft, endLeft, i);
        v4 := metrics.terraceLerp(beginRight, endRight, i);
        c1 := c2;
        c2 := metrics.terraceColorLerp(beginCell.color, endCell.color, i);
        ghost var before := Data();
        AddQuad(v1, v2, v3, v4);
        AddQuadColor(c1, c2);
        assert spec[i - 1] == Quad(v1, v2, v3, v4, c1, c1, c2, c2);
        assert Data() == AppendAll(before, [spec[i - 1]]);
        assert spec[..i] == spec[..i - 1] + [spec[i - 1]];
        AppendAllConcat(old(Data()), spec[..i - 1], [spec[i - 1]]);
      }
      assert spec[..|spec|] == spec;
    }
  }
}
