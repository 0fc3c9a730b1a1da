# Forest tessellators, orbit camera and the pakoo expression pipeline, in Dafny

This project models three parts of Forest, a Rust plotting program.

- **Tessellators.** These turn a user function into vertex and index buffers:
  - the marching-cubes implicit-surface solver (`src/graph/d3/implicit_surface.rs`);
  - the parametric-surface grid, the axes and the plane (`src/graph/d3/mesh.rs`);
  - the tube mesher for parametric curves (`src/graph/d3/parametric_curve.rs`);
  - the three 2D solvers: explicit curves and parametric curves as ribbons of quads, and implicit curves as sign-change points of a grid (`src/graph/d2/{explicit,parametric,implicit}.rs`).

  The model proves exact vertex and index counts, the row-major layouts, and that every index names a vertex. For marching cubes it also proves:
  - the flat scalar-grid layout;
  - the eight-bit cube classification;
  - the -1-terminated triangle rows;
  - the merge that shifts each layer's indices by the vertex count before it.

  For the 2D solvers it proves the sample counts, the skip rules and the six-vertex quads.
- **Orbit camera** (`src/graph/d3/camera.rs`). `Camera` is a class with the fields `target`, `yaw`, `pitch` and `radius`.
  - Drag and scroll update these fields in place.
  - The clamps make `pitch` in [-1.55, 1.55] and `radius` in [0.1, 1000] an invariant of the class.
  - The eye stays at distance `radius` from the target.
  - A middle-button pan moves the target in the view plane.
- **pakoo** (`src/pakoo`). These are the stages of the worksheet language. Each is proved against a specification function, and the functions are related by lemmas.
  - `Lexer` (token.rs): takes characters off its input.
  - `SymbolTable` (symbol_table.rs): interns names, keeping the two maps inverse.
  - `Compiler` (compiler.rs): a shunting-yard compiler from tokens to stack-machine instructions.
  - A machine that runs the instructions on a 32-slot array (rpn.rs).
  - The tagged values and their partial arithmetic (math_data.rs).
  - The slices and environment of a worksheet (slice.rs, env.rs).

Modelling conventions:

- Floating-point numbers are reals.
- Every panic of the code is an `Err` of a `Result`.
- The square root, the trigonometric functions and `Vec3::unit` are fields of a `Libm` record that each operation takes as a parameter (module `Geometry`). Where a lemma needs an identity of them, such as sin² + cos² = 1, it states that identity as a precondition.
- The marching-cubes tables are a parameter. They are required to be well formed: rows of 16 entries, terminated by -1, naming edges 0..11.
- Parallel maps are ordered sequential loops.

The modules follow the source files:

- `Geometry`, `Grids`, `Outcome` (`geometry.dfy`, `grids.dfy`, `outcome.dfy`): shared vectors and `Libm`, row-major grid lemmas, and `Option`/`Result`.
- `MarchingCubes` and `ImplicitSurface` (`marching_cubes.dfy`, `implicit_surface.dfy`).
- `Mesh` (`mesh.dfy`) and `ParametricCurve` (`tube.dfy`).
- `Ribbon` (`ribbon.dfy`, the quad shared by the explicit and parametric solvers), `Explicit2D`, `Parametric2D` and `Implicit2D`.
- `OrbitCamera` (`camera.dfy`).
- `Lexing` (`token.dfy`), `Symbols` (`symbol_table.dfy`), `Compiling` (`compiler.dfy`), `MathValue` (`math_data.dfy`), `Machine` (`rpn.dfy`), `Slices` (`slice.dfy`) and `Environment` (`env.dfy`).

## Model

| member | source | states |
|---|---|---|
| ImplicitSurface.SolverLattice | src/graph/d3/implicit_surface.rs:27-32 | resolution + 1 points per axis, and the last one lands exactly on the upper end of each range |
| ImplicitSurface.GradientIsDifference | src/graph/d3/implicit_surface.rs:187-196 | each gradient component is positive exactly when the field is larger one step ahead than one step behind on that axis |
| ImplicitSurface.FieldValues | src/graph/d3/implicit_surface.rs:36-49 | the filled buffer holds (resolution + 1)^3 values, the field at every lattice point |
| ImplicitSurface.FilledIsField | src/graph/d3/implicit_surface.rs:36-49 | any buffer filled to its end is that field buffer |
| ImplicitSurface.Shift | src/graph/d3/implicit_surface.rs:162-164 | shifting keeps the number of indices |
| ImplicitSurface.ShiftIndices | src/graph/d3/implicit_surface.rs:162-164 | the loop raises every index of a part by base_index |
| ImplicitSurface.Merge | src/graph/d3/implicit_surface.rs:156-171 | the merge loop appends the parts in order, each part's indices raised by the vertex count of the parts before it |
| ImplicitSurface.MergeIota | src/graph/d3/implicit_surface.rs:156-171 | parts that index their own vertices 0 .. n - 1 merge into a mesh whose indices are 0 .. (vertex count - 1) |
| ImplicitSurface.MergeCounts | src/graph/d3/implicit_surface.rs:156-171 | parts of whole triangles merge into whole triangles, and the vertex counts add up |
| ImplicitSurface.MarchLayers | src/graph/d3/implicit_surface.rs:53-153 | one part per layer k in 0 .. resolution - 1, in layer order, each the output of that layer |
| ImplicitSurface.PartsOfLayers | src/graph/d3/implicit_surface.rs:53-153 | the parts collected are the layers' parts |
| ImplicitSurface.Solve | src/graph/d3/implicit_surface.rs:17-172 | the mesh built equals the marching-cubes mesh function: fill, march every layer, merge |
| ImplicitSurface.ImplicitSurfaceTriangles | src/graph/d3/implicit_surface.rs:53-171 | the mesh's indices are exactly 0 .. (vertex count - 1), so a triangle list with indices in range, with at most five triangles per cube |
| MarchingCubes.PointIndexBound | src/graph/d3/implicit_surface.rs:27-28 | every lattice point is stored inside the (resolution + 1)^3 buffer |
| MarchingCubes.PointIndexDecode | src/graph/d3/implicit_surface.rs:39-46 | the position k * p^2 + j * p + i determines (i, j, k): reading x fastest, then y, then z |
| MarchingCubes.FillRow | src/graph/d3/implicit_surface.rs:43-47 | the x loop extends the filled prefix of the buffer by row j of plane k |
| MarchingCubes.FillPlane | src/graph/d3/implicit_surface.rs:41-48 | the y and x loops extend the filled prefix by the whole of plane k |
| MarchingCubes.FillValues | src/graph/d3/implicit_surface.rs:36-49 | the fill gives a fresh buffer of (resolution + 1)^3 field values, every one filled |
| MarchingCubes.FieldLayout | src/graph/d3/implicit_surface.rs:39-46 | the filled buffer holds f(x_i, y_j, z_k) at k * p^2 + j * p + i |
| MarchingCubes.PointIndexShift | src/graph/d3/implicit_surface.rs:64-79 | moving by (di, dj, dk) moves the stored position by dk * p^2 + dj * p + di |
| MarchingCubes.CornerIndex | src/graph/d3/implicit_surface.rs:64-81 | global_idx of corner n is the corner's own lattice position, inside the buffer |
| MarchingCubes.CornerValues | src/graph/d3/implicit_surface.rs:76-82 | eight corner values |
| MarchingCubes.CornerPositions | src/graph/d3/implicit_surface.rs:84-88 | eight corner positions |
| MarchingCubes.CubeIndex | src/graph/d3/implicit_surface.rs:72-93 | the cube index is below 256 |
| MarchingCubes.ReadCorners | src/graph/d3/implicit_surface.rs:72-93 | the corner loop reads the eight values and positions and accumulates the cube index |
| MarchingCubes.OrIsAdd | src/graph/d3/implicit_surface.rs:91 | setting bit n of the cube index by an or-assignment, when it is not yet set, adds 1 << n |
| MarchingCubes.CubeIndexDigits | src/graph/d3/implicit_surface.rs:72-93 | the cube index is the binary number whose digit n is 1 exactly when corner n is below 0 |
| MarchingCubes.CubeIndexBits | src/graph/d3/implicit_surface.rs:90-92 | bit n of the cube index is set exactly when corner n's value is below 0 |
| MarchingCubes.TripleAt | src/graph/d3/implicit_surface.rs:116-120 | a triple that starts with an edge number lies inside the row and names three edges |
| MarchingCubes.InterpParamRange | src/graph/d3/implicit_surface.rs:177-182 | on an edge whose corners straddle 0, mu lies in [0, 1] and is where the linear interpolant vanishes |
| MarchingCubes.VertexInterpOnEdge | src/graph/d3/implicit_surface.rs:177-182 | the interpolated point of a straddling edge lies between the two corners in every coordinate |
| MarchingCubes.VertList | src/graph/d3/implicit_surface.rs:100-113 | twelve edge points |
| MarchingCubes.EdgePointOnEdge | src/graph/d3/implicit_surface.rs:100-113 | an edge not flagged in the edge mask keeps the zero vector; a flagged edge whose corners straddle 0 gets a point on that edge |
| MarchingCubes.TriangleList | src/graph/d3/implicit_surface.rs:116-120 | at most five triangles, each naming three of the twelve edges |
| MarchingCubes.TriangleListReads | src/graph/d3/implicit_surface.rs:116-120 | the triples are read at t, t + 3, ..., and reading stops at a -1 inside the row, so no read goes past position 15 |
| MarchingCubes.TriVertices | src/graph/d3/implicit_surface.rs:122-143 | one triangle pushes three vertices |
| MarchingCubes.TriangleVertices | src/graph/d3/implicit_surface.rs:116-149 | three vertices per triangle |
| MarchingCubes.CellVertices | src/graph/d3/implicit_surface.rs:72-149 | a cube emits whole triangles, at most 15 vertices, and nothing when its edge-table entry is 0 |
| MarchingCubes.EmitTriangles | src/graph/d3/implicit_surface.rs:116-149 | the triangle loop appends the vertices of the row's triangles in order, and keeps indices[m] == m and the counter equal to the vertex count |
| MarchingCubes.ProcessCell | src/graph/d3/implicit_surface.rs:60-150 | one pass of the (j, i) loop appends exactly that cube's output and keeps the index count |
| MarchingCubes.MarchRow | src/graph/d3/implicit_surface.rs:59-150 | the i loop of row j appends the outputs of cubes (0, j) .. (resolution - 1, j) in order |
| MarchingCubes.MarchLayer | src/graph/d3/implicit_surface.rs:54-152 | a layer's vertices are its cubes' outputs row by row, and its local indices are 0 .. n - 1 |
| MarchingCubes.CellCounts | src/graph/d3/implicit_surface.rs:95-149 | one cube of a layer emits whole triangles, at most five |
| MarchingCubes.LayerCounts | src/graph/d3/implicit_surface.rs:58-151 | a layer holds whole triangles, at most five per cube |
| MarchingCubes.LayerCellsAre | src/graph/d3/implicit_surface.rs:58-150 | the cells of layer k are the outputs of its cubes |
| MarchingCubes.TriangleStep | src/graph/d3/implicit_surface.rs:116-143 | a triple other than -1 contributes its three vertices before the triples after it |
| Mesh.CellQuad | src/graph/d3/mesh.rs:73-77 | the six indices of cell (i, j) are [a, d, b, b, d, c]: a at (i, j), b one column right of a, d directly below a on row i + 1, and c one column right of d |
| Mesh.CellQuadBound | src/graph/d3/mesh.rs:71-79 | each index of a cell inside a rows x cols grid is below the (rows + 1) * (cols + 1) vertices |
| Mesh.QuadGridLen | src/graph/d3/mesh.rs:71-79 | the index loops emit 6 * rows * cols indices, so whole triangles |
| Mesh.QuadGridBound | src/graph/d3/mesh.rs:71-79 | every emitted index names one of the (rows + 1) * (cols + 1) grid vertices |
| Mesh.QuadGridLayout | src/graph/d3/mesh.rs:71-79 | index k of cell (i, j) sits at position 6 * (i * cols + j) + k of the buffer: the loops run row-major |
| Mesh.SampleRow | src/graph/d3/mesh.rs:39-67 | the inner vertex loop pushes one sample per j in 0..=vSegments, at (uMin + i * uStep, vMin + j * vStep), in order |
| Mesh.SampleSurface | src/graph/d3/mesh.rs:38-68 | the vertex loops push the (uSegments + 1) * (vSegments + 1) samples row by row |
| Mesh.EmitQuadRow | src/graph/d3/mesh.rs:72-78 | the inner index loop pushes the cells (i, 0) .. (i, cols - 1) in order |
| Mesh.EmitQuadIndices | src/graph/d3/mesh.rs:71-79 | the index loops push every cell of the grid, row by row |
| Mesh.NewParametricSurface | src/graph/d3/mesh.rs:22-81 | the mesh built equals the surface mesh function: samples with finite-difference normals, then the quad indices |
| Mesh.ParametricSurfaceCounts | src/graph/d3/mesh.rs:38-79 | exactly (uSegments + 1) * (vSegments + 1) vertices and 6 * uSegments * vSegments indices; nothing is culled |
| Mesh.ParametricSurfaceTriangles | src/graph/d3/mesh.rs:22-81 | the result is a triangle list whose indices all name vertices |
| Mesh.ParametricSurfaceLayout | src/graph/d3/mesh.rs:38-79 | vertex i * (vSegments + 1) + j is the sample at (u_i, v_j), and cell (i, j) contributes [a, d, b, b, d, c] at 6 * (i * vSegments + j) |
| Mesh.NewAxes | src/graph/d3/mesh.rs:84-98 | four vertices (the origin and the three axis ends at distance length) with zero normals; the index list is exactly [0, 1, 0, 2, 0, 3], three lines from the origin |
| Mesh.NewPlane | src/graph/d3/mesh.rs:101-113 | vertex k is the corner (-h, -h), (h, -h), (h, h), (-h, h) for h = size/2 at z = 0 with normal +z; the index list is exactly [0, 1, 2, 0, 2, 3]; both triangles wind counter-clockwise about +z; corners distinct unless size is 0 |
| ParametricCurve.HelperAxis | src/graph/d3/parametric_curve.rs:57-60 | the helper axis is K exactly when the tangent is within 0.99 of J, and J otherwise |
| ParametricCurve.FrameOrthogonal | src/graph/d3/parametric_curve.rs:52-64 | the normal and binormal of a frame are orthogonal to the tangent and to each other (given a unit that keeps orthogonality) |
| ParametricCurve.Angle | src/graph/d3/parametric_curve.rs:78 | ring angle j of tubeSegments lies in [0, TAU], is 0 exactly at j = 0 and TAU exactly at j = tubeSegments (the ring closes) |
| ParametricCurve.ComputeFrame | src/graph/d3/parametric_curve.rs:44-69 | one pass of the frame loop computes the frame at t |
| ParametricCurve.BuildFrames | src/graph/d3/parametric_curve.rs:41-70 | pathSegments + 1 frames, frame i taken at tMin + i * tStep |
| ParametricCurve.BuildRing | src/graph/d3/parametric_curve.rs:76-94 | the ring loop of frame i pushes tubeSegments + 1 vertices, vertex j at angle j of the ring |
| ParametricCurve.BuildRings | src/graph/d3/parametric_curve.rs:73-95 | the rings of all frames, in order |
| ParametricCurve.Solve | src/graph/d3/parametric_curve.rs:17-118 | the mesh built equals the tube mesh function of the curve |
| ParametricCurve.TubeCounts | src/graph/d3/parametric_curve.rs:73-115 | (pathSegments + 1) * (tubeSegments + 1) vertices, 6 * pathSegments * tubeSegments indices, a triangle list with indices in range |
| ParametricCurve.RingLayout | src/graph/d3/parametric_curve.rs:73-95 | vertex i * (tubeSegments + 1) + j is ring vertex j of frame i |
| ParametricCurve.TubeLayout | src/graph/d3/parametric_curve.rs:73-115 | vertex (i, j) is at angle j around frame i, and cell (i, j) contributes [a, d, b, b, d, c] at 6 * (i * tubeSegments + j) |
| Ribbon.Quad | src/graph/d2/explicit.rs:87-93 | a quad is six vertices, two triangles |
| Ribbon.QuadShape | src/graph/d2/explicit.rs:87-93 | the vertices are p0_l, p1_l, p0_r, p0_r, p1_l, p1_r: the left and right copies of each end point sit symmetrically about it, 2 * offset apart, and the left edge runs parallel to the segment |
| Ribbon.NormalPerpendicular | src/graph/d2/explicit.rs:83-84 | (-dy / len, dx / len) is perpendicular to (dx, dy), and a unit vector when len is the segment length |
| Ribbon.PairQuadPerpendicular | src/graph/d2/explicit.rs:83-90 | the quad's offset between p0_l and p0_r is perpendicular to the segment |
| Ribbon.PairQuadWidth | src/graph/d2/explicit.rs:80-90 | with len the exact segment length, the quad is 2 * half_width_world wide |
| Ribbon.PairCount | src/graph/d2/explicit.rs:61 | path.len().saturating_sub(1): one less than the number of points, and 0 for an empty path |
| Ribbon.StripCount | src/graph/d2/explicit.rs:58-96 | a strip of kept-or-skipped pairs has 6 vertices per kept pair, at most 6 per pair |
| Ribbon.StripAt | src/graph/d2/explicit.rs:61-94 | the quad of pair i is found in the strip right after the quads of the pairs before it |
| Explicit2D.ExplicitSamples | src/graph/d2/explicit.rs:33-34 | the sample count is max(ceil(screen_w * 1.0), 100): at least 100 and at least screen_w, and one of them |
| Explicit2D.ExplicitPath | src/graph/d2/explicit.rs:39-43 | total_samples + 1 points, point i at x_min + i * step_x with y = f(x) |
| Explicit2D.ExplicitPairRule | src/graph/d2/explicit.rs:61-94 | a pair is skipped when either y is not finite, when the jump exceeds the threshold, or when the segment is shorter than 1e-9; a kept pair gives six vertices offset perpendicular to the segment |
| Explicit2D.ExplicitPairWidth | src/graph/d2/explicit.rs:80-93 | with an exact square root, a kept pair's quad is 2 * half_width_world wide |
| Explicit2D.ExplicitPairStep | src/graph/d2/explicit.rs:62-93 | one pass of the ribbon loop, its three `continue`s included, yields the pair's quad or nothing |
| Explicit2D.ExplicitRibbon | src/graph/d2/explicit.rs:58-96 | the ribbon loop appends the quads of pairs 0 .. len - 2 in order |
| Explicit2D.ExplicitSolve | src/graph/d2/explicit.rs:16-97 | the vertices returned equal the explicit curve function: empty for an empty range or zero width, otherwise the ribbon of the sampled path |
| Explicit2D.ExplicitPathEnds | src/graph/d2/explicit.rs:33-43 | the path has total_samples + 1 points, from x_min to exactly x_max |
| Explicit2D.ExplicitCurveCounts | src/graph/d2/explicit.rs:28-97 | an empty x range or screen_w = 0 gives no vertices; otherwise a whole number of quads, at most 6 per sample |
| Parametric2D.ParametricSamples | src/graph/d2/parametric.rs:31-32 | the sample count is max(floor(t_len * 20), 200): at least 200 and at least the floor, and equal to one of them |
| Parametric2D.ParametricPath | src/graph/d2/parametric.rs:36-39 | total_samples + 1 points, point i being f(t_min + i * step_t) |
| Parametric2D.ParametricPairRule | src/graph/d2/parametric.rs:52-95 | a pair is skipped when a coordinate is not finite, when the points are closer than 1e-12 squared, or when they are further apart than the jump bound; a kept pair gives six vertices offset perpendicular to the segment |
| Parametric2D.ParametricPairWidth | src/graph/d2/parametric.rs:77-94 | with an exact square root, a kept pair's quad is 2 * half_width_world wide |
| Parametric2D.ParametricPairStep | src/graph/d2/parametric.rs:53-94 | one pass of the ribbon loop, its three `continue`s included, yields the pair's quad or nothing |
| Parametric2D.ParametricRibbon | src/graph/d2/parametric.rs:49-97 | the ribbon loop appends the quads of pairs 0 .. len - 2 in order |
| Parametric2D.ParametricSolve | src/graph/d2/parametric.rs:15-98 | the vertices returned equal the parametric curve function: empty for an empty range, otherwise the ribbon of the sampled path |
| Parametric2D.ParametricPathEnds | src/graph/d2/parametric.rs:31-39 | the path runs from f(t_min) to exactly f(t_max) |
| Parametric2D.ParametricCurveCounts | src/graph/d2/parametric.rs:27-98 | an empty t range gives no vertices; otherwise a whole number of quads, at most 6 per sample |
| Implicit2D.GridSize | src/graph/d2/implicit.rs:15-17 | the grid resolution is (screen / 2) clamped to [100, 700]: exactly screen / 2 inside that range, 100 below it, 700 above it |
| Implicit2D.LinearInterp | src/graph/d2/implicit.rs:44-48 | the interpolation parameter lies in [0, 1], and is 0.5 when the two values differ by less than 1e-15 |
| Implicit2D.LinearInterpRoot | src/graph/d2/implicit.rs:44-48 | for a sign change that is not flat, the parameter is -v0 / (v1 - v0), the zero of the linear interpolant |
| Implicit2D.CellCrossingsRule | src/graph/d2/implicit.rs:27-38 | a cell emits its bottom-edge point exactly when v00 * v10 <= 0 and its left-edge point exactly when v00 * v01 <= 0, in that order, at (x + t * x_step, y) and (x, y + t * y_step) |
| Implicit2D.CellCrossingsInBox | src/graph/d2/implicit.rs:31-38 | the points of a cell lie on the cell's edges, so inside any box holding the cell |
| Implicit2D.ContourColumn | src/graph/d2/implicit.rs:23-40 | the inner loop of column i emits the points of cells (i, 0) .. (i, grid_h - 1) in order |
| Implicit2D.SolverGrid | src/graph/d2/implicit.rs:19-20 | the grid starts at the ranges' lower ends, and grid_w steps of x_step span the x range (likewise y) |
| Implicit2D.ImplicitSolve | src/graph/d2/implicit.rs:10-42 | the points returned equal the implicit curve function: columns 0 .. grid_w - 1 concatenated in order |
| Implicit2D.TickInRange | src/graph/d2/implicit.rs:19-26 | the corners x and x + x_step of every cell lie within the x range |
| Implicit2D.ContourCellInBox | src/graph/d2/implicit.rs:24-38 | every point a cell emits lies inside the viewing box |
| Implicit2D.ImplicitCurveInBox | src/graph/d2/implicit.rs:10-42 | every point of the curve lies inside the viewing box |
| Implicit2D.ImplicitCurveCount | src/graph/d2/implicit.rs:14-41 | at most two points per cell, so at most 2 * 700 * 700 points |
| OrbitCamera.EyeDistance | src/graph/d3/camera.rs:54-63 | the eye lies at distance radius from the target, given sin^2 + cos^2 = 1 |
| OrbitCamera.EyeFollowsTarget | src/graph/d3/camera.rs:54-63 | moving the target moves the eye by the same vector, so the view direction is unchanged |
| OrbitCamera.PanInViewPlane | src/graph/d3/camera.rs:73-87 | the middle-button pan is orthogonal to the viewing direction, given that unit() keeps orthogonality |
| OrbitCamera.OrbitPitch | src/graph/d3/camera.rs:68-71 | the pitch after a drag lies in [-1.55, 1.55], and equals pitch + dy * 0.005 whenever that is in range |
| OrbitCamera.ZoomedRadius | src/graph/d3/camera.rs:97-98 | the radius after a scroll lies in [0.1, 1000], and equals radius - amount whenever that is in range |
| OrbitCamera.ZoomMonotone | src/graph/d3/camera.rs:92-98 | scrolling forward never moves the eye away, scrolling back never brings it closer |
| OrbitCamera.OrbitPitchInverse | src/graph/d3/camera.rs:68-71 | a drag by dy followed by one by -dy restores the pitch when neither hits the clamp |
| OrbitCamera.Camera.constructor | src/graph/d3/camera.rs:17-24 | target at the origin, yaw 45 degrees, pitch 30 degrees, radius 10, which keeps pitch and radius inside their clamp ranges |
| OrbitCamera.Camera.ProcessMouseDrag | src/graph/d3/camera.rs:65-90 | left drag turns yaw and clamped pitch only; middle drag moves only the target, by the pan delta; any other button changes nothing |
| OrbitCamera.Camera.ProcessScroll | src/graph/d3/camera.rs:92-99 | only the radius changes, to the clamped radius after the line or pixel zoom amount |
| MathValue.AddData | src/pakoo/math_data.rs:25-38 | defined exactly between two numbers and between two vectors; a number and a vector give the number-plus-vector error |
| MathValue.SubData | src/pakoo/math_data.rs:40-50 | defined exactly between two numbers and between two vectors; anything else is a type mismatch |
| MathValue.MulData | src/pakoo/math_data.rs:52-66 | defined exactly for number*number and vector*number on either side; two vectors give the vector-product error |
| MathValue.DivData | src/pakoo/math_data.rs:68-84 | defined exactly for a number or vector over a non-zero number; zero divisors give the two division-by-zero errors |
| MathValue.SinData | src/pakoo/math_data.rs:89-96 | defined exactly on numbers; otherwise the not-a-number error |
| MathValue.CosData | src/pakoo/math_data.rs:97-104 | defined exactly on numbers; otherwise the not-a-number error |
| MathValue.TanData | src/pakoo/math_data.rs:105-112 | defined exactly on numbers; otherwise the not-a-number error |
| MathValue.AddCommutes | src/pakoo/math_data.rs:25-38 | a + b and b + a agree, errors included |
| MathValue.MulCommutes | src/pakoo/math_data.rs:52-66 | a * b and b * a agree, errors included |
| MathValue.SubUndoesAdd | src/pakoo/math_data.rs:25-50 | (a + b) - b == a whenever a + b is defined |
| MathValue.DivUndoesMul | src/pakoo/math_data.rs:52-84 | (a * s) / s == a for every non-zero number s, for numbers and vectors |
| Machine.EmptyStack | src/pakoo/rpn.rs:26-27 | 32 slots, top 0 |
| Machine.NoArgs | src/pakoo/rpn.rs:103 | eight argument slots |
| Machine.Place | src/pakoo/rpn.rs:34-37 | a push succeeds exactly below 32 entries, writing slot top and raising top by one |
| Machine.Run | src/pakoo/rpn.rs:30-120 | running instructions keeps the stack at 32 slots with top at most 32 |
| Machine.Exec | src/pakoo/rpn.rs:33-118 | one instruction keeps the stack at 32 slots with top at most 32 |
| Machine.Binary | src/pakoo/rpn.rs:40-71 | a binary instruction keeps the stack well sized |
| Machine.UnaryStep | src/pakoo/rpn.rs:72-89 | a unary instruction keeps the stack well sized |
| Machine.CallArgs | src/pakoo/rpn.rs:103-109 | the argument array keeps its eight slots |
| Machine.Step | src/pakoo/rpn.rs:33-118 | one instruction on the 32-slot array leaves exactly the stack that Exec describes, or its error |
| Machine.BinaryStep | src/pakoo/rpn.rs:40-71 | a binary instruction on the array leaves exactly Binary's stack, or its error |
| Machine.UnaryOp | src/pakoo/rpn.rs:72-89 | a unary instruction on the array leaves exactly UnaryStep's stack, or its error |
| Machine.FillCallArgs | src/pakoo/rpn.rs:103-109 | the argument loop fills the eight slots as CallArgs does |
| Machine.Evaluate | src/pakoo/rpn.rs:22-124 | RPN::eval on the array returns the value Eval defines: the bottom slot after all instructions, or the first error |
| Machine.EmptyProgram | src/pakoo/rpn.rs:22-124 | an empty program returns Num(0.0) |
| Machine.ResultIsBottom | src/pakoo/rpn.rs:123 | the result is slot 0, not the top of the stack |
| Machine.NegationUnderflows | src/pakoo/rpn.rs:48-55 | a lone operand followed by Sub underflows |
| Machine.RunAppend | src/pakoo/rpn.rs:30-120 | running a ++ b is running a and then b on its final stack |
| Machine.CallDefOnValue | src/pakoo/rpn.rs:111-115 | a CallDef whose global is not a function leaves the stack as it was |
| Machine.CallArgsFirstEight | src/pakoo/rpn.rs:105-109 | argument programs past the eighth are never evaluated |
| Machine.SkipRest | src/pakoo/rpn.rs:106 | past the eighth parameter the argument loop changes nothing |
| Machine.PushesBinary | src/pakoo/rpn.rs:40-71 | the postfix code of l op r pushes its value above the stack once l's and r's codes do |
| Machine.BinaryOnPushed | src/pakoo/rpn.rs:40-71 | a binary instruction over two pushed values puts their combination in the first one's slot, keeping everything below |
| Machine.PushesUnary | src/pakoo/rpn.rs:72-89 | the postfix code of f(a) pushes its value once a's code does |
| Machine.PostfixRun | src/pakoo/rpn.rs:30-120 | every expression whose stack need fits pushes its value above any stack |
| Machine.PostfixEval | src/pakoo/rpn.rs:22-124 | evaluating the postfix code of an expression that fits in 32 slots gives its value, or its error |
| Slices.Clone | src/pakoo/slice.rs:16-25 | the clone is the same slice |
| Slices.SliceEval | src/pakoo/slice.rs:27-43 | a Var yields its value, a Call its body evaluated against the data with no arguments, a Def the function value |
| Slices.SliceEvalIndependent | src/pakoo/slice.rs:27-43 | Var and Def slices never fail and ignore the data |
| Slices.EvalSlice | src/pakoo/slice.rs:27-43 | computes SliceEval |
| Environment.UpdateFrom | src/pakoo/env.rs:33-40 | updating never removes or changes the values already there |
| Environment.UpdateFromAppends | src/pakoo/env.rs:33-40 | a successful update appends one value per slice, each that slice evaluated against the values before it, and returns the last |
| Environment.UpdateFromEmpty | src/pakoo/env.rs:39 | update finds no value to return exactly when there are no slices and no values |
| Environment.UpdateAgain | src/pakoo/env.rs:33-40 | updating twice appends a second round after the first without resetting |
| Environment.AddTwoValue | src/pakoo/env.rs:93-97 | f(x) = x + 2.0 evaluates to x + 2 |
| Environment.CallAddTwo | src/pakoo/rpn.rs:101-116 | calling global f on an argument of value x pushes x + 2 |
| Environment.NestedCallExample | src/pakoo/env.rs:112-136 | f(x) = x + 2.0 then f(f(1.0)) + 2.0 updates to 7.0 |
| Environment.Env.constructor | src/pakoo/env.rs:14-19 | no slices and no values |
| Environment.Env.AddSlice | src/pakoo/env.rs:21-23 | appends the slice, values unchanged |
| Environment.Env.Update | src/pakoo/env.rs:33-40 | the slices stay and the values and result are those of UpdateFrom |
| Symbols.IndexOf | src/pakoo/symbol_table.rs:17-18 | the position of the name, the only one in a list without duplicates |
| Symbols.InternRoundTrip | src/pakoo/symbol_table.rs:16-25 | the id names the given name, old ids stay, the list grows by at most one and stays free of duplicates |
| Symbols.InternIdempotent | src/pakoo/symbol_table.rs:16-25 | asking twice for a name gives the same id and no growth |
| Symbols.SymbolTable.constructor | src/pakoo/symbol_table.rs:11-13 | both tables empty |
| Symbols.SymbolTable.GetOrCreateId | src/pakoo/symbol_table.rs:16-25 | returns the stored id of a known name, unchanged; a new name gets id len, appended, and mapped; either way get_id and get_name then round-trip |
| Symbols.SymbolTable.GetId | src/pakoo/symbol_table.rs:28-30 | Some exactly for stored names, and then the id names that name |
| Symbols.SymbolTable.GetName | src/pakoo/symbol_table.rs:32-38 | None exactly past the end; a name returned maps back to the same id |
| Symbols.SymbolTable.ValidDistinct | src/pakoo/symbol_table.rs:5-8 | the two tables agree, so no name is stored twice |
| Lexing.RunLength | src/pakoo/token.rs:84-108 | the read loops take the longest prefix of characters of the class: all of them in the class, and the next one not |
| Lexing.AfterWhitespace | src/pakoo/token.rs:74-82 | skip_whitespace removes a prefix of whitespace and stops at the end or at a non-whitespace character |
| Lexing.ParseNumber | src/pakoo/token.rs:94 | a run of digits and dots parses exactly when it has at most one dot and at least one digit |
| Lexing.NextTokenAtRest | src/pakoo/token.rs:32-71 | the token at the start of the input consumes a prefix, a non-empty one for every token but EOF |
| Lexing.NextTokenRest | src/pakoo/token.rs:29-72 | next_token leaves a suffix of its input, strictly shorter after any token but EOF |
| Lexing.NextTokenSuffix | src/pakoo/token.rs:29-72 | next_token leaves a suffix of its input |
| Lexing.NextTokenShrinks | src/pakoo/token.rs:29-72 | any token but EOF consumes at least one character |
| Lexing.EndOfInput | src/pakoo/token.rs:30-33 | EOF comes exactly when only whitespace is left, consumes everything, and repeats |
| Lexing.PunctuationToken | src/pakoo/token.rs:35-66 | each of + - * / ^ ( ) , after whitespace is its one-character token, and the rest follows |
| Lexing.NumberMunch | src/pakoo/token.rs:67-95 | a digit or dot starts a number token that takes the longest run of digits and dots, valued by parse or 0.0 |
| Lexing.IdentifierMunch | src/pakoo/token.rs:68-108 | a letter or underscore starts an identifier that takes the longest run of letters, digits and underscores |
| Lexing.IllegalCharacterRule | src/pakoo/token.rs:69 | next_token fails exactly on a character that starts no token, and names that character |
| Lexing.WholeNumberExample | src/pakoo/token.rs:84-95 | "12" is the number 12.0 |
| Lexing.FractionRun | src/pakoo/token.rs:86-93 | the number run of "2.5*x" is three characters |
| Lexing.FractionValue | src/pakoo/token.rs:94 | "2.5" parses to 2.5 |
| Lexing.FractionAt | src/pakoo/token.rs:67-95 | "2.5*x" starts with the number 2.5 and leaves "*x" |
| Lexing.FractionExample | src/pakoo/token.rs:29-95 | " 2.5*x" yields the number 2.5 and leaves "*x" |
| Lexing.TwoDots | src/pakoo/token.rs:94 | "1.2.3" fails to parse and becomes 0.0 |
| Lexing.MalformedRun | src/pakoo/token.rs:86-93 | the read loop takes all of "1.2.3" |
| Lexing.MalformedNumberExample | src/pakoo/token.rs:84-95 | "1.2.3" is a single number token of value 0.0 |
| Lexing.TokenizeStep | src/pakoo/token.rs:29-72 | the token list of an input is its first token followed by the token list of what is left, ending at EOF or at the first error |
| Lexing.TokenizeBound | src/pakoo/token.rs:29-72 | the token list never holds EOF and has at most one token per character |
| Lexing.Lexer.constructor | src/pakoo/token.rs:23-27 | the lexer holds the whole input |
| Lexing.Lexer.NextToken | src/pakoo/token.rs:29-72 | the token and the input left are those of the token function |
| Lexing.Lexer.SkipWhitespace | src/pakoo/token.rs:74-82 | the input left is the input after its leading whitespace |
| Lexing.Lexer.ReadNumber | src/pakoo/token.rs:84-95 | takes the run of digits and dots and returns its value |
| Lexing.Lexer.ReadIdentifier | src/pakoo/token.rs:97-108 | takes the run of identifier characters and returns it as the name |
| Compiling.Emit | src/pakoo/compiler.rs:172-181 | + - * / each contribute one arithmetic instruction, every other token none |
| Compiling.EmitTop | src/pakoo/compiler.rs:143-148 | popping a run of entries emits one arithmetic instruction per pending + - * / |
| Compiling.PopAbove | src/pakoo/compiler.rs:94-103 | the pop loop leaves a prefix of the stack whose top is a '(' or binds looser, after removing only non-'(' entries at least as tight |
| Compiling.EmitTopLast | src/pakoo/compiler.rs:143-148 | popping the topmost entry first emits its instruction before those below |
| Compiling.PopAboveQueue | src/pakoo/compiler.rs:94-103 | the popped entries go to the queue top first |
| Compiling.CloseParen | src/pakoo/compiler.rs:111-123 | ')' succeeds exactly when a '(' is pending; it pops down to the nearest '(' and removes it; otherwise mismatched parentheses |
| Compiling.CloseParenQueue | src/pakoo/compiler.rs:111-123 | the entries above the '(' go to the queue top first |
| Compiling.Drain | src/pakoo/compiler.rs:143-148 | the final drain succeeds exactly when no '(' is pending, and appends the pending operators top first |
| Compiling.PrecedenceOrder | src/pakoo/compiler.rs:156-170 | the levels are ordered as declared in the enum at compiler.rs lines 7-15; a prefix minus binds tighter than every binary operator; + < * < ^ |
| Compiling.GlobalsArith | src/pakoo/compiler.rs:83-99 | arithmetic instructions add no dependencies |
| Compiling.PopAboveParts | src/pakoo/compiler.rs:94-103 | the operator pop loop keeps the pending '(' count, the instruction total and the dependencies |
| Compiling.CloseParenParts | src/pakoo/compiler.rs:111-123 | ')' removes one pending '(' and keeps the instruction total and the dependencies |
| Compiling.OperatorParens | src/pakoo/compiler.rs:87-106 | an operator never fails and keeps the pending '(' count |
| Compiling.CloseParens | src/pakoo/compiler.rs:111-123 | ')' succeeds exactly when a '(' is pending, and removes one |
| Compiling.ConsumeParens | src/pakoo/compiler.rs:47-139 | each token succeeds exactly when the '(' count stays non-negative after it, and changes it by +1 for '(', -1 for ')', 0 otherwise |
| Compiling.NumberAccounts | src/pakoo/compiler.rs:48-51 | a number queues one Push and no dependency |
| Compiling.IdentifierAccounts | src/pakoo/compiler.rs:52-86 | an identifier queues one LoadGlobal of its interned id and records that id as a dependency naming it |
| Compiling.OperatorAccounts | src/pakoo/compiler.rs:87-106 | an operator leaves the instruction total grown by its own instruction, if any |
| Compiling.OpenAccounts | src/pakoo/compiler.rs:107-110 | '(' adds no instruction and no dependency |
| Compiling.SeparateAccounts | src/pakoo/compiler.rs:128-137 | ',' adds no instruction and no dependency |
| Compiling.CloseAccounts | src/pakoo/compiler.rs:111-127 | ')' adds no instruction and no dependency |
| Compiling.ConsumeAccounts | src/pakoo/compiler.rs:47-139 | every token keeps the account of instructions, dependencies and their names |
| Compiling.ProcessParens | src/pakoo/compiler.rs:46-141 | the loop succeeds exactly when no prefix closes more parentheses than it opens, and ends with the net depth pending |
| Compiling.ProcessNames | src/pakoo/compiler.rs:59 | the symbol table only grows: old names keep their ids |
| Compiling.ProcessAccounts | src/pakoo/compiler.rs:46-141 | after the loop the instructions queued or pending are one per number, identifier and + - * /, and the dependencies are the identifiers' ids in order |
| Compiling.CompileSucceeds | src/pakoo/compiler.rs:36-154 | compile succeeds exactly when the input lexes and its parentheses balance |
| Compiling.CompileOutput | src/pakoo/compiler.rs:36-154 | the table only grows; a result has one instruction per number, identifier and + - * /, and its dependencies are the globals it loads, each naming its identifier |
| Compiling.ProcessOk | src/pakoo/compiler.rs:46-141 | a token that succeeds without new names hands its state to the next |
| Compiling.CompleteStep | src/pakoo/compiler.rs:46-141 | a failing token ends compilation, any other continues with its state |
| Compiling.CompileLoopStep | src/pakoo/compiler.rs:46-141 | one turn of the loop over the lexer's next token is one step of the compile function |
| Compiling.CompileLoopEnd | src/pakoo/compiler.rs:41-153 | a lexer error ends compilation with it, and EOF leads to the drain |
| Compiling.SmallStacks | src/pakoo/compiler.rs:94-148 | the pops on one- and two-entry stacks emit top first |
| Compiling.OperatorOperand | src/pakoo/compiler.rs:48-106 | an operator then a number moves through the compile loop as two steps |
| Compiling.Infix | src/pakoo/compiler.rs:46-106 | a op b leaves both operands queued and op pending |
| Compiling.TwoOperators | src/pakoo/compiler.rs:46-141 | a o1 b o2 c leaves the state of o2 arriving after a o1 b, then c |
| Compiling.LeftFirst | src/pakoo/compiler.rs:36-154 | when o1 binds at least as tight as o2, a o1 b o2 c compiles to a b o1 c o2 |
| Compiling.RightFirst | src/pakoo/compiler.rs:36-154 | when o2 binds tighter, a o1 b o2 c compiles to a b c o2 o1 |
| Compiling.UnaryMinus | src/pakoo/compiler.rs:88-148 | -x compiles to Push(x), Sub: the prefix minus has no operand of its own |
| Compiling.NumberOperand | src/pakoo/compiler.rs:48-51 | a number appends one Push and leaves expecting an operator |
| Compiling.OperatorOnOpen | src/pakoo/compiler.rs:94-104 | an operator above a '(' is pushed without popping anything |
| Compiling.GroupOpen | src/pakoo/compiler.rs:48-110 | "(a + b" queues a and b with '(' and + pending |
| Compiling.GroupClose | src/pakoo/compiler.rs:111-123 | ")" then emits the Add and drops the '(' |
| Compiling.GroupedSum | src/pakoo/compiler.rs:46-141 | "(a + b)" leaves a b Add with nothing pending |
| Compiling.OnEmptyStack | src/pakoo/compiler.rs:48-104 | an operator on an empty stack is pushed, then a number queued |
| Compiling.CompileFromProcess | src/pakoo/compiler.rs:143-153 | the result is the drained queue with the loop's dependencies |
| Compiling.GroupingLoop | src/pakoo/compiler.rs:46-141 | "(a + b) * c" leaves a b Add c with * pending |
| Compiling.Grouping | src/pakoo/compiler.rs:36-154 | "(a + b) * c" compiles to a b Add c Mul |
| Compiling.PopOperators | src/pakoo/compiler.rs:94-103 | the operator pop loop computes PopAbove |
| Compiling.PopToParen | src/pakoo/compiler.rs:111-123 | the ')' loop computes CloseParen |
| Compiling.PopToOpen | src/pakoo/compiler.rs:130-135 | the ',' loop pops every entry above the nearest '(' |
| Compiling.DrainStack | src/pakoo/compiler.rs:143-148 | the final loop computes Drain |
| Compiling.Compiler.constructor | src/pakoo/compiler.rs:29-34 | a fresh lexer on the input and the given table |
| Compiling.Compiler.Handle | src/pakoo/compiler.rs:47-139 | one token's branch gives the state and the table that Consume defines |
| Compiling.Compiler.Compile | src/pakoo/compiler.rs:36-154 | the result and the grown table are those of the compile function on the whole input |

## Left out

- Whole-program parts outside the model:
  - the window, GPU and event plumbing;
  - the demo drivers;
  - the math_forest library;
  - `Camera::build_view_projection_matrix`. It builds a look-at matrix and a perspective matrix from math_forest and casts them to f32. That library is not part of this model.
- Floating point:
  - f64 arithmetic is exact real arithmetic. Rounding, NaN and infinities are left out.
  - The f64 → f32 casts into `Vertex3D` and the 2D vertex buffers are identities.
  - "Not finite" is a `NonFinite` sample that the user function may return.
- Square root, sine, cosine, tangent and `Vec3::unit` are uninterpreted fields of `Libm`. Properties that need an identity of them take it as a precondition: the camera's sin² + cos² = 1, and `unit` keeping orthogonality. So the widths of the 2D ribbons and the camera distances are proved only under those identities.
- The forward-difference normals and `calc_gradient_normal`:
  - they are computed as in the code;
  - only the sign property of the central difference is proved;
  - nothing is proved about the directions of the normals.
- Rayon parallelism: each parallel map and `collect` is an ordered sequential loop.
- The contents of `EDGE_TABLE` and `TRI_TABLE` live in a module that is not part of this model. They are a parameter with a well-formedness precondition.
- `u32` vertex indices are natural numbers. Overflow past 2³² vertices is not modelled.
- The lexer:
  - `char::is_whitespace` is the full Unicode White_Space set, but `char::is_alphanumeric` is only its ASCII case (a non-ASCII letter or digit inside an identifier ends it in the model, where the code would keep it);
  - `str::parse::<f64>` is the exact decimal value of a well-formed numeral. It has no rounding, and it does not accept the exponents, signs, "inf" or "NaN" that Rust's parser also accepts but a run of digits and dots can never contain.
- Machine.Run: `CallDef` recursion through the environment is bounded by a `fuel` parameter. Running out of fuel is an extra error, `OutOfFuel`, that the code does not have. The code would recurse until the native stack overflows.
- Machine.Exec: the code's unchecked stack accesses are undefined behaviour on underflow. They are modelled as the error `StackUnderflow` rather than as a precondition, so that the compiler's output for a negated operand can be run and shown to fail.
- `Env::get_slice`, `Env::get_data` and `Env::fmt` are left out. They are plain indexing and printing.
- Compiling.Emit: `^` is parsed with its precedence but contributes no instruction, as `pop_op_to_queue` emits none for it.
- Compiling.UnaryMinus: a prefix minus only changes the precedence of `-`. It still compiles to a bare `Sub` with one operand, and Machine.NegationUnderflows shows that such a program underflows.
- Compiling.PopToOpen: the comma loop pops every entry down to the nearest `(`, with no precedence test. It is PopAbove at the lowest level, because every operator's level is at least Lowest.
- Compiling.CompileSucceeds: the compiler facts are stated over the token list of the whole input, Lexing.Tokenize. Compiling.Compiler.Compile proves that the loop over the lexer computes exactly that function.
- Parametric2D.ParametricSolve: the `aspect` parameter of the code is unused there, and it is not modelled.
- Explicit2D.ExplicitSolve and Parametric2D.ParametricSolve require `zoom` and `screen_h` to be non-zero. With f64, a zero gives infinite thresholds and widths, which reals cannot express.
- Mesh.NewParametricSurface: the code (src/graph/d3/mesh.rs:71-79) culls nothing; Mesh.ParametricSurfaceCounts proves that no triangle is dropped.
