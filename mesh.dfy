/** Triangle and line meshes built by the 3D scene (graph::d3::mesh):
    the parametric-surface grid, the coordinate axes and the ground plane.
    The quad layout `CellQuad` is shared with the tube mesher. */
module Mesh {
  import opened Geometry
  import opened Grids

  /** A GPU vertex: position and normal (the f32 cast is not modelled). */
  datatype Vertex3D = Vertex3D(position: Vec3, normal: Vec3)

  /** A vertex buffer and an index buffer into it. */
  datatype MeshData = MeshData(vertices: seq<Vertex3D>, indices: seq<nat>)

  /** Every index names an existing vertex. */
  predicate IndicesInRange(m: MeshData) {
    forall k :: 0 <= k < |m.indices| ==> m.indices[k] < |m.vertices|
  }

  /** A well-formed triangle list. */
  predicate IsTriangleList(m: MeshData) {
    |m.indices| % 3 == 0 && IndicesInRange(m)
  }

  /** A well-formed line list. */
  predicate IsLineList(m: MeshData) {
    |m.indices| % 2 == 0 && IndicesInRange(m)
  }

  /** Position of vertex (i, j) in a grid with cols segments, that is
      cols + 1 vertices, per row. */
  function GridPos(i: nat, j: nat, cols: nat): nat {
    i * (cols + 1) + j
  }

  /** With one vertex per grid point, Offset is the row-major position. */
  lemma OffsetGridPos(i: nat, j: nat, cols: nat)
    ensures Offset(1, i, j, cols + 1, 0) == GridPos(i, j, cols)
  {
  }

  /** The two triangles [a, d, b] and [b, d, c] of grid cell (i, j) in a
      vertex grid whose rows hold cols + 1 vertices: a and b on row i,
      d and c below them on row i + 1. */
  function CellQuad(i: nat, j: nat, cols: nat): (q: seq<nat>)
    ensures |q| == 6
    ensures q[0] == GridPos(i, j, cols) && q[2] == q[0] + 1 && q[3] == q[2]
    ensures q[1] == GridPos(i + 1, j, cols) && q[5] == q[1] + 1 && q[4] == q[1]
  {
    var a := GridPos(i, j, cols);
    var d := GridPos(i + 1, j, cols);
    [a, d, a + 1, a + 1, d, d + 1]
  }

  function QuadCells(cols: nat): (nat, nat) -> seq<nat> {
    (i: nat, j: nat) => CellQuad(i, j, cols)
  }

  /** The index buffer of a rows x cols grid of quads, row by row. */
  function QuadIndices(rows: nat, cols: nat): seq<nat> {
    Rows<nat>(QuadCells(cols), rows, cols)
  }

  lemma MulMono(a: nat, b: nat, w: nat)
    requires a <= b
    ensures a * w <= b * w
  {
  }

  /** All six indices of a cell inside a rows x cols grid of quads stay
      below the (rows + 1) * (cols + 1) vertices. */
  lemma CellQuadBound(i: nat, j: nat, rows: nat, cols: nat)
    requires i < rows && j < cols
    ensures forall k :: 0 <= k < 6 ==> CellQuad(i, j, cols)[k] < GridPoints(rows, cols)
  {
    var w := cols + 1;
    MulMono(i + 1, rows, w);
    MulMono(i, i + 1, w);
    assert (rows + 1) * w == rows * w + w;
    var q := CellQuad(i, j, cols);
    assert q[5] == (i + 1) * w + j + 1 < (rows + 1) * w;
  }

  lemma QuadGridLen(rows: nat, cols: nat)
    ensures |QuadIndices(rows, cols)| == 6 * (rows * cols)
    ensures |QuadIndices(rows, cols)| % 3 == 0
  {
    assert Uniform(QuadCells(cols), rows, cols, 6);
    RowsLen<nat>(QuadCells(cols), rows, cols, 6);
    var n := rows * cols;
    assert 6 * n == 3 * (2 * n);
  }

  /** The number of vertices of a rows x cols grid of quads. */
  function GridPoints(rows: nat, cols: nat): nat {
    (rows + 1) * (cols + 1)
  }

  predicate Below(n: nat, x: nat) {
    x < n
  }

  lemma QuadCellsBelow(rows: nat, cols: nat)
    ensures CellsAll(QuadCells(cols), rows, cols, (x: nat) => Below(GridPoints(rows, cols), x))
  {
    forall i: nat, j: nat, k: nat | i < rows && j < cols && k < |CellQuad(i, j, cols)|
      ensures Below(GridPoints(rows, cols), CellQuad(i, j, cols)[k])
    {
      CellQuadBound(i, j, rows, cols);
    }
  }

  /** Every index of a rows x cols grid of quads names one of its
      (rows + 1) * (cols + 1) vertices. */
  lemma QuadGridBound(rows: nat, cols: nat)
    ensures forall k :: 0 <= k < |QuadIndices(rows, cols)| ==>
      QuadIndices(rows, cols)[k] < GridPoints(rows, cols)
  {
    QuadCellsBelow(rows, cols);
    RowsAll<nat>(QuadCells(cols), rows, cols, (x: nat) => Below(GridPoints(rows, cols), x));
  }

  /** Cell (i, j) of a grid of quads sits at offset 6 * (i * cols + j). */
  lemma QuadGridLayout(rows: nat, cols: nat)
    ensures forall i: nat, j: nat, k: nat :: i < rows && j < cols && k < 6 ==>
      Offset(6, i, j, cols, k) < |QuadIndices(rows, cols)| &&
      QuadIndices(rows, cols)[Offset(6, i, j, cols, k)] == CellQuad(i, j, cols)[k]
  {
    assert Uniform(QuadCells(cols), rows, cols, 6);
    RowsUniform<nat>(QuadCells(cols), rows, cols, 6);
  }

  const Eps: real := 0.000000001

  /** One surface sample: the position func(u, v) and the normal of the
      forward-difference tangents du, dv. */
  function SurfacePoint(f: (real, real) -> Vec3, m: Libm, u: real, v: real): Vertex3D {
    var pos := f(u, v);
    var du := Scale(Sub(f(u + Eps, v), pos), 1.0 / Eps);
    var dv := Scale(Sub(f(u, v + Eps), pos), 1.0 / Eps);
    Vertex3D(pos, m.unit(Cross(du, dv)))
  }

  /** The surface sampler the vertex loop calls at every grid point. */
  function Sampler(f: (real, real) -> Vec3, m: Libm): (real, real) -> Vertex3D {
    (u: real, v: real) => SurfacePoint(f, m, u, v)
  }

  /** Grid point (i, j) holds the sample at (uMin + i * uStep, vMin + j * vStep). */
  function SurfaceCells(g: (real, real) -> Vertex3D, uMin: real, uStep: real, vMin: real, vStep: real)
    : (nat, nat) -> seq<Vertex3D>
  {
    (i: nat, j: nat) => [g(Tick(uMin, uStep, i), Tick(vMin, vStep, j))]
  }

  /** The mesh new_parametric_surface builds: the samples row by row, then
      the two triangles of every cell. */
  function ParametricSurface(f: (real, real) -> Vec3, m: Libm, uMin: real, uMax: real,
                             vMin: real, vMax: real, uSegments: nat, vSegments: nat): MeshData
  {
    MeshData(Rows(SurfaceCells(Sampler(f, m), uMin, Step(uMin, uMax, uSegments), vMin, Step(vMin, vMax, vSegments)),
                  uSegments + 1, vSegments + 1),
             QuadIndices(uSegments, vSegments))
  }

  /** One pass of the inner vertex loop of new_parametric_surface: for j
      in 0..=vSegments, push the sample at (u_i, v_j). */
  method SampleRow(g: (real, real) -> Vertex3D, uMin: real, uStep: real,
                   vMin: real, vStep: real, i: nat, vSegments: nat)
    returns (row: seq<Vertex3D>)
    ensures row == Row(SurfaceCells(g, uMin, uStep, vMin, vStep), i, vSegments + 1)
  {
    ghost var cell := SurfaceCells(g, uMin, uStep, vMin, vStep);
    row := [];
    var j: nat := 0;
    while j <= vSegments
      invariant j <= vSegments + 1
      invariant row == Row(cell, i, j)
    {
      var u := Tick(uMin, uStep, i);
      var v := Tick(vMin, vStep, j);
      assert cell(i, j) == [g(u, v)];
      row := row + [g(u, v)];
      j := j + 1;
    }
  }

  /** The vertex loops of new_parametric_surface: for i in 0..=uSegments,
      for j in 0..=vSegments, push the sample at (u_i, v_j). */
  method SampleSurface(g: (real, real) -> Vertex3D, uMin: real, uStep: real,
                       vMin: real, vStep: real, uSegments: nat, vSegments: nat)
    returns (vertices: seq<Vertex3D>)
    ensures vertices == Rows(SurfaceCells(g, uMin, uStep, vMin, vStep), uSegments + 1, vSegments + 1)
  {
    vertices := [];
    var i: nat := 0;
    while i <= uSegments
      invariant i <= uSegments + 1
      invariant vertices == Rows(SurfaceCells(g, uMin, uStep, vMin, vStep), i, vSegments + 1)
    {
      var row := SampleRow(g, uMin, uStep, vMin, vStep, i, vSegments);
      vertices := vertices + row;
      i := i + 1;
    }
  }

  /** One pass of the inner index loop: for j in 0..cols, push the two
      triangles [a, d, b] and [b, d, c] of cell (i, j). */
  method EmitQuadRow(i: nat, cols: nat) returns (row: seq<nat>)
    ensures row == Row<nat>(QuadCells(cols), i, cols)
  {
    row := [];
    var j: nat := 0;
    while j < cols
      invariant j <= cols
      invariant row == Row<nat>(QuadCells(cols), i, j)
    {
      var row1 := GridPos(i, 0, cols);
      var row2 := GridPos(i + 1, 0, cols);
      var a := row1 + j;
      var b := row1 + j + 1;
      var c := row2 + j + 1;
      var d := row2 + j;
      assert QuadCells(cols)(i, j) == [a, d, b, b, d, c];
      row := row + [a, d, b, b, d, c];
      j := j + 1;
    }
  }

  /** The index loops shared by new_parametric_surface and the tube
      mesher: for i in 0..rows, for j in 0..cols, push cell (i, j). */
  method EmitQuadIndices(rows: nat, cols: nat) returns (indices: seq<nat>)
    ensures indices == QuadIndices(rows, cols)
  {
    indices := [];
    var i: nat := 0;
    while i < rows
      invariant i <= rows
      invariant indices == Rows<nat>(QuadCells(cols), i, cols)
    {
      var row := EmitQuadRow(i, cols);
      indices := indices + row;
      i := i + 1;
    }
  }

  /** MeshData::new_parametric_surface. */
  method NewParametricSurface(f: (real, real) -> Vec3, m: Libm, uMin: real, uMax: real,
                              vMin: real, vMax: real, uSegments: nat, vSegments: nat)
    returns (mesh: MeshData)
    ensures mesh == ParametricSurface(f, m, uMin, uMax, vMin, vMax, uSegments, vSegments)
  {
    var uStep := Step(uMin, uMax, uSegments);
    var vStep := Step(vMin, vMax, vSegments);
    var vertices := SampleSurface(Sampler(f, m), uMin, uStep, vMin, vStep, uSegments, vSegments);
    var indices := EmitQuadIndices(uSegments, vSegments);
    mesh := MeshData(vertices, indices);
  }

  /** One vertex per grid point. */
  lemma SurfaceCellsLen(g: (real, real) -> Vertex3D, uMin: real, uStep: real, vMin: real, vStep: real,
                        rows: nat, cols: nat)
    ensures |Rows(SurfaceCells(g, uMin, uStep, vMin, vStep), rows, cols)| == rows * cols
  {
    var cell := SurfaceCells(g, uMin, uStep, vMin, vStep);
    assert Uniform(cell, rows, cols, 1);
    RowsLen(cell, rows, cols, 1);
  }

  /** new_parametric_surface pushes exactly (uSegments + 1) * (vSegments + 1)
      vertices and 6 * uSegments * vSegments indices: no triangle is culled. */
  lemma ParametricSurfaceCounts(f: (real, real) -> Vec3, m: Libm, uMin: real, uMax: real,
                                vMin: real, vMax: real, uSegments: nat, vSegments: nat)
    ensures var mesh := ParametricSurface(f, m, uMin, uMax, vMin, vMax, uSegments, vSegments);
      |mesh.vertices| == (uSegments + 1) * (vSegments + 1) &&
      |mesh.indices| == 6 * (uSegments * vSegments)
  {
    SurfaceCellsLen(Sampler(f, m), uMin, Step(uMin, uMax, uSegments), vMin, Step(vMin, vMax, vSegments),
                    uSegments + 1, vSegments + 1);
    QuadGridLen(uSegments, vSegments);
  }

  /** The surface mesh is a triangle list whose indices all name vertices. */
  lemma ParametricSurfaceTriangles(f: (real, real) -> Vec3, m: Libm, uMin: real, uMax: real,
                                   vMin: real, vMax: real, uSegments: nat, vSegments: nat)
    ensures IsTriangleList(ParametricSurface(f, m, uMin, uMax, vMin, vMax, uSegments, vSegments))
  {
    ParametricSurfaceCounts(f, m, uMin, uMax, vMin, vMax, uSegments, vSegments);
    QuadGridLen(uSegments, vSegments);
    QuadGridBound(uSegments, vSegments);
  }

  /** Sample (i, j) sits at i * (vSegments + 1) + j, and cell (i, j)
      contributes [a, d, b, b, d, c] at 6 * (i * vSegments + j). */
  lemma ParametricSurfaceLayout(f: (real, real) -> Vec3, m: Libm, uMin: real, uMax: real,
                                vMin: real, vMax: real, uSegments: nat, vSegments: nat)
    ensures forall i: nat, j: nat :: i <= uSegments && j <= vSegments ==>
        GridPos(i, j, vSegments) < |ParametricSurface(f, m, uMin, uMax, vMin, vMax, uSegments, vSegments).vertices| &&
        ParametricSurface(f, m, uMin, uMax, vMin, vMax, uSegments, vSegments).vertices[GridPos(i, j, vSegments)] ==
          SurfacePoint(f, m, Tick(uMin, Step(uMin, uMax, uSegments), i),
                       Tick(vMin, Step(vMin, vMax, vSegments), j))
    ensures var mesh := ParametricSurface(f, m, uMin, uMax, vMin, vMax, uSegments, vSegments);
      forall i: nat, j: nat, k: nat :: i < uSegments && j < vSegments && k < 6 ==>
        Offset(6, i, j, vSegments, k) < |mesh.indices| &&
        mesh.indices[Offset(6, i, j, vSegments, k)] == CellQuad(i, j, vSegments)[k]
  {
    var cell := SurfaceCells(Sampler(f, m), uMin, Step(uMin, uMax, uSegments), vMin, Step(vMin, vMax, vSegments));
    assert Uniform(cell, uSegments + 1, vSegments + 1, 1);
    forall i: nat, j: nat | i <= uSegments && j <= vSegments
      ensures GridPos(i, j, vSegments) < |Rows(cell, uSegments + 1, vSegments + 1)| &&
              Rows(cell, uSegments + 1, vSegments + 1)[GridPos(i, j, vSegments)] == cell(i, j)[0]
    {
      RowsAt(cell, uSegments + 1, vSegments + 1, 1, i, j, 0);
      OffsetGridPos(i, j, vSegments);
    }
    QuadGridLayout(uSegments, vSegments);
  }

  /** MeshData::new_axes: the origin and the ends of the three axes, joined
      by three lines from the origin. */
  function NewAxes(length: real): (mesh: MeshData)
    ensures |mesh.vertices| == 4 && IsLineList(mesh)
    ensures forall k :: 0 <= k < 4 ==> mesh.vertices[k].normal == Zero
    ensures mesh.vertices[0].position == Zero
    ensures mesh.vertices[1].position == Vec3(length, 0.0, 0.0)
    ensures mesh.vertices[2].position == Vec3(0.0, length, 0.0)
    ensures mesh.vertices[3].position == Vec3(0.0, 0.0, length)
    ensures mesh.indices == [0, 1, 0, 2, 0, 3]
    ensures forall k :: 0 <= k < |mesh.indices| / 2 ==>
      mesh.indices[2 * k] == 0 && mesh.indices[2 * k + 1] == k + 1
  {
    var n := Zero;
    MeshData([Vertex3D(Zero, n), Vertex3D(Vec3(length, 0.0, 0.0), n),
              Vertex3D(Vec3(0.0, length, 0.0), n), Vertex3D(Vec3(0.0, 0.0, length), n)],
             [0, 1, 0, 2, 0, 3])
  }

  /** MeshData::new_plane: a size x size square in the z = 0 plane centred
      on the origin, facing +z, as two triangles. */
  function NewPlane(size: real): (mesh: MeshData)
    ensures |mesh.vertices| == 4 && |mesh.indices| == 6 && IsTriangleList(mesh)
    ensures mesh.indices == [0, 1, 2, 0, 2, 3]
    ensures mesh.vertices[0].position == Vec3(-size / 2.0, -size / 2.0, 0.0)
    ensures mesh.vertices[1].position == Vec3(size / 2.0, -size / 2.0, 0.0)
    ensures mesh.vertices[2].position == Vec3(size / 2.0, size / 2.0, 0.0)
    ensures mesh.vertices[3].position == Vec3(-size / 2.0, size / 2.0, 0.0)
    // both triangles wind counter-clockwise seen from +z, agreeing with the normal
    ensures forall t :: 0 <= t < 2 ==>
      var p := mesh.vertices[mesh.indices[3 * t]].position;
      var q := mesh.vertices[mesh.indices[3 * t + 1]].position;
      var r := mesh.vertices[mesh.indices[3 * t + 2]].position;
      Cross(Sub(q, p), Sub(r, p)) == Vec3(0.0, 0.0, size * size)
    ensures forall k :: 0 <= k < 4 ==>
      mesh.vertices[k].normal == K && mesh.vertices[k].position.z == 0.0 &&
      Abs(mesh.vertices[k].position.x) == Abs(size) / 2.0 &&
      Abs(mesh.vertices[k].position.y) == Abs(size) / 2.0
    ensures forall k, l :: 0 <= k < l < 4 ==> mesh.vertices[k].position != mesh.vertices[l].position || size == 0.0
  {
    var h := size / 2.0;
    MeshData([Vertex3D(Vec3(-h, -h, 0.0), K), Vertex3D(Vec3(h, -h, 0.0), K),
              Vertex3D(Vec3(h, h, 0.0), K), Vertex3D(Vec3(-h, h, 0.0), K)],
             [0, 1, 2, 0, 2, 3])
  }
}
