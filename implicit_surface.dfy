/** ImplicitSurfaceSolver::solve: the lattice and the normal the solver
    uses, the per-layer marching of MarchingCubes run over every z-layer in
    order, and the merge that concatenates the layers' vertex lists and
    shifts each layer's indices by the number of vertices before it. */
module ImplicitSurface {
  import opened Geometry
  import opened Grids
  import opened Mesh
  import opened MarchingCubes

  /** The sampling lattice of `solve`: resolution + 1 points per axis,
      spaced (max - min) / resolution apart. */
  function SolverLattice(xr: (real, real), yr: (real, real), zr: (real, real), resolution: nat): (g: Lattice)
    ensures g.p == resolution + 1
    ensures resolution > 0 ==> Tick(g.x0, g.sx, resolution) == xr.1 && Tick(g.y0, g.sy, resolution) == yr.1
                                && Tick(g.z0, g.sz, resolution) == zr.1
  {
    Lattice(xr.0, Step(xr.0, xr.1, resolution), yr.0, Step(yr.0, yr.1, resolution),
            zr.0, Step(zr.0, zr.1, resolution), resolution + 1)
  }

  /** The gradient offset of calc_gradient_normal. */
  const Eps: real := 0.000001

  /** Central differences of the field at p, unconditionally normalised. */
  function Gradient(f: (real, real, real) -> real, p: Vec3): Vec3 {
    Vec3(f(p.x + Eps, p.y, p.z) - f(p.x - Eps, p.y, p.z),
         f(p.x, p.y + Eps, p.z) - f(p.x, p.y - Eps, p.z),
         f(p.x, p.y, p.z + Eps) - f(p.x, p.y, p.z - Eps))
  }

  /** calc_gradient_normal: the unit central-difference gradient. */
  function GradientNormal(f: (real, real, real) -> real, m: Libm): Vec3 -> Vec3 {
    p => m.unit(Gradient(f, p))
  }

  /** The gradient's x component is an odd function of the step: swapping
      the two samples negates it, so its sign says in which x direction
      the field grows. */
  lemma GradientIsDifference(f: (real, real, real) -> real, p: Vec3)
    ensures Gradient(f, p).x > 0.0 <==> f(p.x + Eps, p.y, p.z) > f(p.x - Eps, p.y, p.z)
    ensures Gradient(f, p).y > 0.0 <==> f(p.x, p.y + Eps, p.z) > f(p.x, p.y - Eps, p.z)
    ensures Gradient(f, p).z > 0.0 <==> f(p.x, p.y, p.z + Eps) > f(p.x, p.y, p.z - Eps)
  {
  }

  /** The filled buffer: the field at every lattice point. */
  function FieldValues(f: (real, real, real) -> real, g: Lattice): (r: seq<real>)
    requires g.p > 0
    ensures |r| == Cube(g.p)
    ensures FilledUpTo(f, g, r, Cube(g.p))
  {
    seq(Cube(g.p), q requires 0 <= q < Cube(g.p) => FieldAt(f, g, q))
  }

  /** A buffer filled up to its end is the field buffer. */
  lemma FilledIsField(f: (real, real, real) -> real, g: Lattice, values: seq<real>)
    requires g.p > 0 && |values| == Cube(g.p) && FilledUpTo(f, g, values, Cube(g.p))
    ensures values == FieldValues(f, g)
  {
    var w := FieldValues(f, g);
    forall q | 0 <= q < |values| ensures values[q] == w[q] {
    }
  }

  /** What one layer's task returns: the vertices of its grid of cubes,
      and indices 0 .. n - 1 into them. */
  function PartOf(cell: (nat, nat) -> seq<Vertex3D>, n: nat): (seq<Vertex3D>, seq<nat>) {
    (Rows(cell, n, n), Iota(|Rows(cell, n, n)|))
  }

  /** Layer k's part. */
  function LayerPart(values: seq<real>, g: Lattice, tb: Tables, nrm: Vec3 -> Vec3, k: nat)
    : (seq<Vertex3D>, seq<nat>)
    requires g.p > 0
  {
    PartOf(LayerCells(values, g, tb, nrm, k), g.p - 1)
  }

  /** The parts of layers 0 .. n - 1, in layer order. */
  function Parts(values: seq<real>, g: Lattice, tb: Tables, nrm: Vec3 -> Vec3, n: nat)
    : (r: seq<(seq<Vertex3D>, seq<nat>)>)
    requires g.p > 0
    ensures |r| == n
  {
    seq(n, k requires 0 <= k < n => LayerPart(values, g, tb, nrm, k))
  }

  // ---------------------------------------------------------------
  // Merge
  // ---------------------------------------------------------------

  /** Indices s, each raised by b. */
  function Shift(s: seq<nat>, b: nat): (r: seq<nat>)
    ensures |r| == |s|
  {
    seq(|s|, m requires 0 <= m < |s| => s[m] + b)
  }

  /** The vertex lists of parts 0 .. n - 1, concatenated. */
  function MergedVertices(parts: seq<(seq<Vertex3D>, seq<nat>)>, n: nat): seq<Vertex3D>
    requires n <= |parts|
  {
    if n == 0 then [] else MergedVertices(parts, n - 1) + parts[n - 1].0
  }

  /** The index lists of parts 0 .. n - 1, each shifted by the number of
      vertices of the parts before it, concatenated. */
  function MergedIndices(parts: seq<(seq<Vertex3D>, seq<nat>)>, n: nat): seq<nat>
    requires n <= |parts|
  {
    if n == 0 then []
    else MergedIndices(parts, n - 1) + Shift(parts[n - 1].1, |MergedVertices(parts, n - 1)|)
  }

  /** The merged mesh of all parts. */
  function Merged(parts: seq<(seq<Vertex3D>, seq<nat>)>): MeshData {
    MeshData(MergedVertices(parts, |parts|), MergedIndices(parts, |parts|))
  }

  /** `for i in &mut idxs { *i += base_index }`. */
  method ShiftIndices(idxs: seq<nat>, base: nat) returns (r: seq<nat>)
    ensures r == Shift(idxs, base)
  {
    r := idxs;
    var m := 0;
    while m < |r|
      invariant m <= |r| == |idxs|
      invariant forall q :: 0 <= q < m ==> r[q] == idxs[q] + base
      invariant forall q :: m <= q < |r| ==> r[q] == idxs[q]
    {
      r := r[m := r[m] + base];
      m := m + 1;
    }
  }

  /** The merge loop: shift each part's indices by base_index, advance it
      by the part's vertex count, append both lists. */
  method Merge(parts: seq<(seq<Vertex3D>, seq<nat>)>) returns (mesh: MeshData)
    ensures mesh == Merged(parts)
  {
    var finalVertices: seq<Vertex3D> := [];
    var finalIndices: seq<nat> := [];
    var base: nat := 0;
    var n := 0;
    while n < |parts|
      invariant n <= |parts|
      invariant finalVertices == MergedVertices(parts, n)
      invariant finalIndices == MergedIndices(parts, n)
      invariant base == |finalVertices|
    {
      var (verts, idxs) := parts[n];
      var shifted := ShiftIndices(idxs, base);
      base := base + |verts|;
      finalVertices := finalVertices + verts;
      finalIndices := finalIndices + shifted;
      n := n + 1;
    }
    mesh := MeshData(finalVertices, finalIndices);
  }

  /** Counting on from a: 0 .. a - 1 followed by a .. a + b - 1 is 0 .. a + b - 1. */
  lemma IotaShift(a: nat, b: nat)
    ensures Iota(a) + Shift(Iota(b), a) == Iota(a + b)
  {
    var s := Iota(a) + Shift(Iota(b), a);
    forall m | 0 <= m < a + b ensures s[m] == Iota(a + b)[m] {
      if m >= a {
        assert s[m] == Shift(Iota(b), a)[m - a];
      }
    }
  }

  /** Parts that each index their own vertices 0 .. n - 1 merge into a
      mesh whose indices are 0 .. |vertices| - 1. */
  lemma {:induction false} MergeIota(parts: seq<(seq<Vertex3D>, seq<nat>)>, n: nat)
    requires n <= |parts|
    requires forall q :: 0 <= q < |parts| ==> parts[q].1 == Iota(|parts[q].0|)
    ensures MergedIndices(parts, n) == Iota(|MergedVertices(parts, n)|)
  {
    if n > 0 {
      MergeIota(parts, n - 1);
      IotaShift(|MergedVertices(parts, n - 1)|, |parts[n - 1].0|);
    }
  }

  /** Parts of whole triangles merge into whole triangles, and the vertex
      counts add up. */
  lemma {:induction false} MergeCounts(parts: seq<(seq<Vertex3D>, seq<nat>)>, n: nat, s: nat)
    requires n <= |parts|
    requires forall q :: 0 <= q < |parts| ==> WholeTriangles(|parts[q].0|) && |parts[q].0| <= s
    ensures WholeTriangles(|MergedVertices(parts, n)|)
    ensures |MergedVertices(parts, n)| <= s * n
  {
    if n > 0 {
      MergeCounts(parts, n - 1, s);
      ModAdd3(|MergedVertices(parts, n - 1)|, |parts[n - 1].0|);
      Distrib(s, n - 1, 1);
    }
  }

  // ---------------------------------------------------------------
  // The solver
  // ---------------------------------------------------------------

  /** The mesh `solve` returns for field f over the box xr x yr x zr. */
  function ImplicitSurfaceMesh(f: (real, real, real) -> real, xr: (real, real), yr: (real, real),
                               zr: (real, real), resolution: nat, m: Libm, tb: Tables): MeshData
  {
    var g := SolverLattice(xr, yr, zr, resolution);
    Merged(Parts(FieldValues(f, g), g, tb, GradientNormal(f, m), resolution))
  }

  /** The layers in order: layer k's task runs MarchLayer over the filled
      buffer with `cells(k)` as its cube outputs (sequentially here; the
      source runs the tasks in parallel and collects them in layer order). */
  method MarchLayers(values: array<real>, g: Lattice, tb: Tables, nrm: Vec3 -> Vec3, resolution: nat,
                     ghost vals: seq<real>, ghost cells: nat -> ((nat, nat) -> seq<Vertex3D>))
    returns (parts: seq<(seq<Vertex3D>, seq<nat>)>)
    requires TablesOk(tb) && values.Length == Cube(g.p) && g.p == resolution + 1
    requires vals == values[..]
    requires forall k :: 0 <= k < resolution ==> CellsAre(vals, g, tb, nrm, k, cells(k))
    ensures |parts| == resolution
    ensures forall k :: 0 <= k < resolution ==> parts[k] == PartOf(cells(k), resolution)
  {
    parts := [];
    var k: nat := 0;
    while k < resolution
      invariant k <= resolution
      invariant |parts| == k
      invariant forall q :: 0 <= q < k ==> parts[q] == PartOf(cells(q), resolution)
    {
      var verts, idxs := MarchLayer(values, g, tb, nrm, k, vals, cells(k));
      parts := parts + [(verts, idxs)];
      k := k + 1;
    }
  }

  /** The parts MarchLayers computes for the layer cells are the layers' parts. */
  lemma PartsOfLayers(values: seq<real>, g: Lattice, tb: Tables, nrm: Vec3 -> Vec3, resolution: nat,
                      cells: nat -> ((nat, nat) -> seq<Vertex3D>), parts: seq<(seq<Vertex3D>, seq<nat>)>)
    requires g.p == resolution + 1 && |parts| == resolution
    requires forall k :: 0 <= k < resolution ==> cells(k) == LayerCells(values, g, tb, nrm, k)
    requires forall k :: 0 <= k < resolution ==> parts[k] == PartOf(cells(k), resolution)
    ensures parts == Parts(values, g, tb, nrm, resolution)
  {
    var w := Parts(values, g, tb, nrm, resolution);
    forall k | 0 <= k < resolution ensures parts[k] == w[k] {
      assert w[k] == LayerPart(values, g, tb, nrm, k);
    }
  }

  /** ImplicitSurfaceSolver::solve. */
  method Solve(f: (real, real, real) -> real, xr: (real, real), yr: (real, real), zr: (real, real),
               resolution: nat, m: Libm, tb: Tables)
    returns (mesh: MeshData)
    requires TablesOk(tb)
    ensures mesh == ImplicitSurfaceMesh(f, xr, yr, zr, resolution, m, tb)
  {
    var g := SolverLattice(xr, yr, zr, resolution);
    var values := FillValues(f, g);
    FilledIsField(f, g, values[..]);
    ghost var vals := values[..];
    var nrm := GradientNormal(f, m);
    ghost var cells: nat -> ((nat, nat) -> seq<Vertex3D>) := (k: nat) => LayerCells(vals, g, tb, nrm, k);
    forall k | 0 <= k < resolution ensures CellsAre(vals, g, tb, nrm, k, cells(k)) {
      LayerCellsAre(vals, g, tb, nrm, k);
    }
    var parts := MarchLayers(values, g, tb, nrm, resolution, vals, cells);
    PartsOfLayers(vals, g, tb, nrm, resolution, cells, parts);
    mesh := Merge(parts);
  }

  /** The solver's mesh is a plain triangle list: indices[m] == m, a
      multiple of three of them, at most five triangles per cube. */
  lemma ImplicitSurfaceTriangles(f: (real, real, real) -> real, xr: (real, real), yr: (real, real),
                                 zr: (real, real), resolution: nat, m: Libm, tb: Tables)
    ensures var mesh := ImplicitSurfaceMesh(f, xr, yr, zr, resolution, m, tb);
      mesh.indices == Iota(|mesh.vertices|) && IsTriangleList(mesh) &&
      |mesh.vertices| <= 15 * (resolution * resolution) * resolution
  {
    var g := SolverLattice(xr, yr, zr, resolution);
    var vals := FieldValues(f, g);
    var nrm := GradientNormal(f, m);
    var parts := Parts(vals, g, tb, nrm, resolution);
    forall q | 0 <= q < |parts|
      ensures parts[q].1 == Iota(|parts[q].0|)
      ensures WholeTriangles(|parts[q].0|) && |parts[q].0| <= 15 * (resolution * resolution)
    {
      LayerCounts(vals, g, tb, nrm, q);
    }
    MergeIota(parts, resolution);
    MergeCounts(parts, resolution, 15 * (resolution * resolution));
    var mesh := Merged(parts);
    assert mesh.indices == Iota(|mesh.vertices|);
    assert IndicesInRange(mesh);
  }
}
