/** The three buffers a triangulation pass fills, as values, and the effect
    of appending one triangle or quad with its colours. */
module MeshBuffers {
  import opened HexMetrics

  /** One shape with its vertex colours, as the mesh appends it: a triangle
      (v1, v2, v3) or a quad with near edge (v1, v2) and far edge (v3, v4). */
  datatype Primitive =
    | Triangle(v1: Vector3, v2: Vector3, v3: Vector3, c1: Color, c2: Color, c3: Color)
    | Quad(v1: Vector3, v2: Vector3, v3: Vector3, v4: Vector3,
           c1: Color, c2: Color, c3: Color, c4: Color)

  /** Vertex positions, vertex colours and triangle indices. */
  datatype MeshData = MeshData(vertices: seq<Vector3>, colors: seq<Color>, triangles: seq<int>)

  const Empty := MeshData([], [], [])

  /** Positions and colours are index-aligned, the indices form whole
      triangles, and every index names an existing vertex. */
  ghost predicate WellFormed(m: MeshData)
  {
    && |m.vertices| == |m.colors|
    && |m.triangles| % 3 == 0
    && forall i :: 0 <= i < |m.triangles| ==> 0 <= m.triangles[i] < |m.vertices|
  }

  function Positions(p: Primitive): seq<Vector3>
  {
    match p
    case Triangle(v1, v2, v3, _, _, _) => [v1, v2, v3]
    case Quad(v1, v2, v3, v4, _, _, _, _) => [v1, v2, v3, v4]
  }

  function Colors(p: Primitive): seq<Color>
  {
    match p
    case Triangle(_, _, _, c1, c2, c3) => [c1, c2, c3]
    case Quad(_, _, _, _, c1, c2, c3, c4) => [c1, c2, c3, c4]
  }

  /** The index layout of a shape whose first vertex lands at index n: a
      triangle in order, a quad as the triangles (1, 3, 2) and (2, 3, 4). */
  function Indices(p: Primitive, n: int): seq<int>
  {
    match p
    case Triangle(_, _, _, _, _, _) => [n, n + 1, n + 2]
    case Quad(_, _, _, _, _, _, _, _) => [n, n + 2, n + 1, n + 1, n + 2, n + 3]
  }

  /** The buffers after appending one shape and its colours. */
  function Append(m: MeshData, p: Primitive): MeshData
  {
    MeshData(m.vertices + Positions(p), m.colors + Colors(p),
             m.triangles + Indices(p, |m.vertices|))
  }

  /** The buffers after appending the shapes in order. */
  function AppendAll(m: MeshData, ps: seq<Primitive>): MeshData
    decreases |ps|
  {
    if ps == [] then m else AppendAll(Append(m, ps[0]), ps[1..])
  }

  /** Number of triangles a list of shapes contributes (a quad is two). */
  function TriangleCount(ps: seq<Primitive>): nat
    decreases |ps|
  {
    if ps == [] then 0 else (if ps[0].Triangle? then 1 else 2) + TriangleCount(ps[1..])
  }

  /** Number of vertices a list of shapes contributes. */
  function VertexCount(ps: seq<Primitive>): nat
    decreases |ps|
  {
    if ps == [] then 0 else (if ps[0].Triangle? then 3 else 4) + VertexCount(ps[1..])
  }

  /** The three new indices of an appended triangle name its own vertices
      v1, v2, v3 in that order, with their colours; nothing before changes. */
  lemma TriangleLayout(m: MeshData, p: Primitive)
    requires p.Triangle?
    ensures var r, n, t := Append(m, p), |m.vertices|, |m.triangles|;
      && |r.triangles| == t + 3 && |r.vertices| == n + 3 && |r.colors| == |m.colors| + 3
      && r.vertices[..n] == m.vertices && r.colors[..|m.colors|] == m.colors
      && r.triangles[..t] == m.triangles
      && r.vertices[r.triangles[t]] == p.v1
      && r.vertices[r.triangles[t + 1]] == p.v2
      && r.vertices[r.triangles[t + 2]] == p.v3
      && (|m.colors| == n ==>
            && r.colors[r.triangles[t]] == p.c1
            && r.colors[r.triangles[t + 1]] == p.c2
            && r.colors[r.triangles[t + 2]] == p.c3)
  {
  }

  /** The six new indices of an appended quad form the triangles
      (v1, v3, v2) and (v2, v3, v4), each vertex keeping its own colour. */
  lemma QuadLayout(m: MeshData, p: Primitive)
    requires p.Quad?
    ensures var r, n, t := Append(m, p), |m.vertices|, |m.triangles|;
      && |r.triangles| == t + 6 && |r.vertices| == n + 4 && |r.colors| == |m.colors| + 4
      && r.vertices[..n] == m.vertices && r.colors[..|m.colors|] == m.colors
      && r.triangles[..t] == m.triangles
      && r.vertices[r.triangles[t]] == p.v1
      && r.vertices[r.triangles[t + 1]] == p.v3
      && r.vertices[r.triangles[t + 2]] == p.v2
      && r.vertices[r.triangles[t + 3]] == p.v2
      && r.vertices[r.triangles[t + 4]] == p.v3
      && r.vertices[r.triangles[t + 5]] == p.v4
      && (|m.colors| == n ==>
            && r.colors[r.triangles[t]] == p.c1
            && r.colors[r.triangles[t + 1]] == p.c3
            && r.colors[r.triangles[t + 2]] == p.c2
            && r.colors[r.triangles[t + 5]] == p.c4)
  {
  }

  /** Appending a shape keeps the buffers well formed. */
  lemma AppendWellFormed(m: MeshData, p: Primitive)
    requires WellFormed(m)
    ensures WellFormed(Append(m, p))
  {
  }

  /** Appending any list of shapes keeps the buffers well formed. */
  lemma {:induction false} AppendAllWellFormed(m: MeshData, ps: seq<Primitive>)
    requires WellFormed(m)
    ensures WellFormed(AppendAll(m, ps))
    decreases |ps|
  {
    if ps != [] {
      AppendWellFormed(m, ps[0]);
      AppendAllWellFormed(Append(m, ps[0]), ps[1..]);
    }
  }

  /** Appending two lists one after the other is appending their concatenation. */
  lemma {:induction false} AppendAllConcat(m: MeshData, a: seq<Primitive>, b: seq<Primitive>)
    ensures AppendAll(m, a + b) == AppendAll(AppendAll(m, a), b)
    decreases |a|
  {
    if a != [] {
      assert (a + b)[0] == a[0];
      assert (a + b)[1..] == a[1..] + b;
      AppendAllConcat(Append(m, a[0]), a[1..], b);
    } else {
      assert a + b == b;
    }
  }

  /** Appending grows each buffer by exactly the shapes' vertices, colours
      and three indices per triangle, and never changes what was there. */
  lemma {:induction false} AppendAllSizes(m: MeshData, ps: seq<Primitive>)
    ensures var r := AppendAll(m, ps);
      && |r.vertices| == |m.vertices| + VertexCount(ps)
      && |r.colors| == |m.colors| + VertexCount(ps)
      && |r.triangles| == |m.triangles| + 3 * TriangleCount(ps)
      && r.vertices[..|m.vertices|] == m.vertices
      && r.colors[..|m.colors|] == m.colors
      && r.triangles[..|m.triangles|] == m.triangles
    decreases |ps|
  {
    if ps != [] {
      var m' := Append(m, ps[0]);
      AppendAllSizes(m', ps[1..]);
      var r := AppendAll(m', ps[1..]);
      assert r.vertices[..|m.vertices|] == m'.vertices[..|m.vertices|];
      assert r.colors[..|m.colors|] == m'.colors[..|m.colors|];
      assert r.triangles[..|m.triangles|] == m'.triangles[..|m.triangles|];
    }
  }
}
