/** The marching-cubes mesher (graph::d3::implicit_surface): sample the
    field on a (resolution + 1)^3 lattice, classify every cube by the signs
    of its eight corners, emit the triangles the lookup tables give for
    that class, one z-layer at a time, and merge the layers. */
module MarchingCubes {
  import opened Geometry
  import opened Grids
  import opened Mesh

  // ---------------------------------------------------------------
  // The scalar lattice
  // ---------------------------------------------------------------

  /** The sampling lattice: origin and step along each axis, and the
      number p = resolution + 1 of points per axis. */
  datatype Lattice = Lattice(x0: real, sx: real, y0: real, sy: real, z0: real, sz: real, p: nat)

  /** Number of lattice points. */
  function Cube(p: nat): nat {
    p * p * p
  }

  /** Where point (i, j, k) is stored: x fastest, then y, then z. */
  function PointIndex(i: nat, j: nat, k: nat, p: nat): nat {
    k * p * p + j * p + i
  }

  lemma MulGe(c: int, p: nat)
    requires c >= 1
    ensures c * p >= p
  {
  }

  /** Euclidean division undoes a * p + i. */
  lemma DivMod(a: nat, p: nat, i: nat)
    requires i < p
    ensures (a * p + i) / p == a && (a * p + i) % p == i
  {
    var n := a * p + i;
    var q := n / p;
    var r := n % p;
    assert n == q * p + r;
    assert (a - q) * p == r - i;
    if a > q {
      MulGe(a - q, p);
    } else if a < q {
      MulGe(q - a, p);
    }
  }

  lemma MulLe(a: nat, b: nat, p: nat)
    requires a <= b
    ensures a * p <= b * p
  {
  }

  lemma PointIndexNested(i: nat, j: nat, k: nat, p: nat)
    ensures PointIndex(i, j, k, p) == (k * p + j) * p + i
  {
  }

  /** Every point of the lattice is stored inside the buffer. */
  lemma PointIndexBound(i: nat, j: nat, k: nat, p: nat)
    requires i < p && j < p && k < p
    ensures PointIndex(i, j, k, p) < Cube(p)
  {
    PointIndexNested(i, j, k, p);
    var a := k * p + j;
    MulSucc(a, p);
    MulSucc(k, p);
    assert a + 1 <= (k + 1) * p;
    MulLe(a + 1, (k + 1) * p, p);
    MulLe(k + 1, p, p);
    MulLe((k + 1) * p, p * p, p);
  }

  lemma MulSucc(a: nat, p: nat)
    ensures (a + 1) * p == a * p + p
  {
  }

  /** The coordinates of a lattice point can be read back from its position. */
  lemma PointIndexDecode(i: nat, j: nat, k: nat, p: nat)
    requires i < p && j < p && k < p
    ensures PointIndex(i, j, k, p) < Cube(p)
    ensures PointIndex(i, j, k, p) % p == i
    ensures (PointIndex(i, j, k, p) / p) % p == j
    ensures PointIndex(i, j, k, p) / p / p == k
  {
    PointIndexBound(i, j, k, p);
    PointIndexNested(i, j, k, p);
    DivMod(k * p + j, p, i);
    DivMod(k, p, j);
  }

  /** The field value stored at buffer position q. */
  function FieldAt(f: (real, real, real) -> real, g: Lattice, q: nat): real
    requires g.p > 0
  {
    f(Tick(g.x0, g.sx, q % g.p), Tick(g.y0, g.sy, (q / g.p) % g.p), Tick(g.z0, g.sz, q / g.p / g.p))
  }

  /** Buffer positions 0 .. n - 1 hold the field. */
  ghost predicate FilledUpTo(f: (real, real, real) -> real, g: Lattice, values: seq<real>, n: nat)
    requires g.p > 0
  {
    n <= |values| && forall q :: 0 <= q < n ==> values[q] == FieldAt(f, g, q)
  }

  /** The x loop of the fill: plane k, row j. */
  method FillRow(f: (real, real, real) -> real, g: Lattice, values: array<real>, j: nat, k: nat)
    requires 0 < g.p && j < g.p && k < g.p && values.Length == Cube(g.p)
    requires FilledUpTo(f, g, values[..], PointIndex(0, j, k, g.p))
    modifies values
    ensures FilledUpTo(f, g, values[..], PointIndex(0, j, k, g.p) + g.p)
  {
    var p := g.p;
    var z := Tick(g.z0, g.sz, k);
    var y := Tick(g.y0, g.sy, j);
    var i: nat := 0;
    while i < p
      invariant i <= p
      invariant FilledUpTo(f, g, values[..], PointIndex(0, j, k, p) + i)
    {
      var x := Tick(g.x0, g.sx, i);
      var idx := PointIndex(i, j, k, p);
      PointIndexDecode(i, j, k, p);
      values[idx] := f(x, y, z);
      i := i + 1;
    }
  }

  /** The y and x loops of the fill: plane k. */
  method FillPlane(f: (real, real, real) -> real, g: Lattice, values: array<real>, k: nat)
    requires 0 < g.p && k < g.p && values.Length == Cube(g.p)
    requires FilledUpTo(f, g, values[..], PointIndex(0, 0, k, g.p))
    modifies values
    ensures FilledUpTo(f, g, values[..], PointIndex(0, 0, k + 1, g.p))
  {
    var p := g.p;
    var j: nat := 0;
    while j < p
      invariant j <= p
      invariant FilledUpTo(f, g, values[..], PointIndex(0, j, k, p))
    {
      FillRow(f, g, values, j, k);
      assert PointIndex(0, j, k, p) + p == PointIndex(0, j + 1, k, p);
      j := j + 1;
    }
    assert PointIndex(0, p, k, p) == PointIndex(0, 0, k + 1, p);
  }

  /** The fill of the scalar buffer: every lattice point's field value,
      at PointIndex of its coordinates. */
  method FillValues(f: (real, real, real) -> real, g: Lattice) returns (values: array<real>)
    requires g.p > 0
    ensures fresh(values)
    ensures values.Length == Cube(g.p)
    ensures FilledUpTo(f, g, values[..], Cube(g.p))
  {
    var p := g.p;
    values := new real[Cube(p)](_ => 0.0);
    var k: nat := 0;
    while k < p
      invariant k <= p
      invariant FilledUpTo(f, g, values[..], PointIndex(0, 0, k, p))
    {
      FillPlane(f, g, values, k);
      k := k + 1;
    }
    assert PointIndex(0, 0, p, p) == Cube(p);
  }

  /** A filled buffer holds the field value of point (i, j, k) at
      k * p^2 + j * p + i. */
  lemma FieldLayout(f: (real, real, real) -> real, g: Lattice, values: seq<real>, i: nat, j: nat, k: nat)
    requires g.p > 0 && FilledUpTo(f, g, values, Cube(g.p))
    requires i < g.p && j < g.p && k < g.p
    ensures PointIndex(i, j, k, g.p) < |values|
    ensures values[PointIndex(i, j, k, g.p)] ==
      f(Tick(g.x0, g.sx, i), Tick(g.y0, g.sy, j), Tick(g.z0, g.sz, k))
  {
    PointIndexDecode(i, j, k, g.p);
  }

  // ---------------------------------------------------------------
  // One cube: corners and classification
  // ---------------------------------------------------------------

  /** (di, dj, dk) of corners 0..7, in the order the triangle table expects. */
  const CornerOffsets: seq<(nat, nat, nat)> :=
    [(0, 0, 0), (1, 0, 0), (1, 0, 1), (0, 0, 1), (0, 1, 0), (1, 1, 0), (1, 1, 1), (0, 1, 1)]

  /** Cube (i, j, k) of the lattice: its far corner is still a point. */
  predicate CubeInLattice(g: Lattice, i: nat, j: nat, k: nat) {
    i + 1 < g.p && j + 1 < g.p && k + 1 < g.p
  }

  lemma CornerOffsetsBinary(n: nat)
    requires n < 8
    ensures CornerOffsets[n].0 <= 1 && CornerOffsets[n].1 <= 1 && CornerOffsets[n].2 <= 1
  {
  }

  /** Moving by (di, dj, dk) moves the stored position by dk p^2 + dj p + di. */
  lemma PointIndexShift(i: nat, j: nat, k: nat, di: nat, dj: nat, dk: nat, p: nat)
    ensures PointIndex(i + di, j + dj, k + dk, p) == PointIndex(i, j, k, p) + dk * p * p + dj * p + di
  {
    var pp := p * p;
    assert (k + dk) * p * p == (k + dk) * pp == k * pp + dk * pp;
    assert (j + dj) * p == j * p + dj * p;
  }

  /** The buffer position of corner n of cube (i, j, k): the corner's own
      lattice position, inside the buffer. */
  function CornerIndex(g: Lattice, i: nat, j: nat, k: nat, n: nat): (q: nat)
    requires CubeInLattice(g, i, j, k) && n < 8
    ensures q == PointIndex(i + CornerOffsets[n].0, j + CornerOffsets[n].1, k + CornerOffsets[n].2, g.p)
    ensures q < Cube(g.p)
  {
    var p := g.p;
    var (di, dj, dk) := CornerOffsets[n];
    CornerOffsetsBinary(n);
    PointIndexBound(i + di, j + dj, k + dk, p);
    PointIndexShift(i, j, k, di, dj, dk, p);
    var idx0 := k * p * p + j * p + i;
    idx0 + dk * p * p + dj * p + di
  }

  /** The field values at the eight corners. */
  function CornerValues(values: seq<real>, g: Lattice, i: nat, j: nat, k: nat): (cv: seq<real>)
    requires CubeInLattice(g, i, j, k) && |values| == Cube(g.p)
    ensures |cv| == 8
  {
    seq(8, n requires 0 <= n < 8 => values[CornerIndex(g, i, j, k, n)])
  }

  /** The world position of corner n. */
  function CornerPosition(g: Lattice, i: nat, j: nat, k: nat, n: nat): Vec3
    requires n < 8
  {
    Vec3(Tick(g.x0, g.sx, i + CornerOffsets[n].0), Tick(g.y0, g.sy, j + CornerOffsets[n].1),
         Tick(g.z0, g.sz, k + CornerOffsets[n].2))
  }

  /** The world positions of the eight corners. */
  function CornerPositions(g: Lattice, i: nat, j: nat, k: nat): (cp: seq<Vec3>)
    ensures |cp| == 8
  {
    seq(8, n requires 0 <= n < 8 => CornerPosition(g, i, j, k, n))
  }

  /** 1 << n for the corner bits n = 0 .. 7. */
  const CornerBit: seq<nat> := [1, 2, 4, 8, 16, 32, 64, 128]

  /** The cube index accumulated over corners 0 .. n - 1: the sum of
      the bits of the negative corners. */
  function PartialIndex(cv: seq<real>, n: nat): (ci: nat)
    requires n <= |cv| && n <= 8
    ensures ci < CornerBitLimit(n)
  {
    if n == 0 then 0
    else PartialIndex(cv, n - 1) + (if cv[n - 1] < 0.0 then CornerBit[n - 1] else 0)
  }

  function CornerBitLimit(n: nat): nat
    requires n <= 8
  {
    [1, 2, 4, 8, 16, 32, 64, 128, 256][n]
  }

  /** The cube index of a cube: bit n set exactly when corner n is inside. */
  function CubeIndex(cv: seq<real>): (ci: nat)
    requires |cv| == 8
    ensures ci < 256
  {
    PartialIndex(cv, 8)
  }

  /** The corner loop of a cube: read the eight corner values and
      positions and set bit n of the cube index when corner n is negative
      (see OrIsAdd and CubeIndexBits for the bit reading). */
  method ReadCorners(values: array<real>, g: Lattice, i: nat, j: nat, k: nat)
    returns (cubeIndex: nat, cornerVals: seq<real>, cornerPos: seq<Vec3>)
    requires CubeInLattice(g, i, j, k) && values.Length == Cube(g.p)
    ensures cornerVals == CornerValues(values[..], g, i, j, k)
    ensures cornerPos == CornerPositions(g, i, j, k)
    ensures cubeIndex == CubeIndex(cornerVals)
  {
    cubeIndex := 0;
    cornerVals := [0.0, 0.0, 0.0, 0.0, 0.0, 0.0, 0.0, 0.0];
    cornerPos := [Zero, Zero, Zero, Zero, Zero, Zero, Zero, Zero];
    var n: nat := 0;
    while n < 8
      invariant n <= 8 && |cornerVals| == 8 && |cornerPos| == 8
      invariant forall m :: 0 <= m < n ==> cornerVals[m] == values[CornerIndex(g, i, j, k, m)]
      invariant forall m :: 0 <= m < n ==> cornerPos[m] == CornerPosition(g, i, j, k, m)
      invariant cubeIndex == PartialIndex(cornerVals, n)
    {
      var globalIdx := CornerIndex(g, i, j, k, n);
      var val := values[globalIdx];
      PartialIndexPrefix(cornerVals, cornerVals[n := val], n);
      cornerVals := cornerVals[n := val];
      cornerPos := cornerPos[n := CornerPosition(g, i, j, k, n)];
      if val < 0.0 {
        cubeIndex := cubeIndex + CornerBit[n];
      }
      n := n + 1;
    }
    assert cornerVals == CornerValues(values[..], g, i, j, k);
    assert cornerPos == CornerPositions(g, i, j, k);
  }

  lemma {:induction false} PartialIndexPrefix(a: seq<real>, b: seq<real>, n: nat)
    requires n <= |a| && n <= |b| && n <= 8
    requires forall m :: 0 <= m < n ==> a[m] == b[m]
    ensures PartialIndex(a, n) == PartialIndex(b, n)
  {
    if n > 0 {
      PartialIndexPrefix(a, b, n - 1);
    }
  }

  /** For the bits being set, `ci |= 1 << n` is the addition the model uses. */
  lemma OrIsAdd(x: bv64, n: bv64)
    requires n < 8 && x < 1 << n
    ensures x | (1 << n) == x + (1 << n)
  {
  }

  /** Bit b of x = lo + b B + hi 2B, for lo below B. */
  lemma BitAt(x: nat, B: nat, lo: nat, b: nat, hi: nat)
    requires B > 0 && lo < B && b <= 1 && x == lo + b * B + hi * (2 * B)
    ensures (x / B) % 2 == b
  {
    assert x == (b + 2 * hi) * B + lo;
    DivMod(b + 2 * hi, B, lo);
    DivMod(hi, 2, b);
  }

  /** 1 when corner n is inside, 0 otherwise. */
  function Sign(cv: seq<real>, n: nat): (s: nat)
    requires n < |cv|
    ensures s <= 1
  {
    if cv[n] < 0.0 then 1 else 0
  }

  /** The cube index is the binary number whose digit n is Sign(cv, n). */
  lemma CubeIndexDigits(cv: seq<real>)
    requires |cv| == 8
    ensures CubeIndex(cv) == Sign(cv, 0) + 2 * Sign(cv, 1) + 4 * Sign(cv, 2) + 8 * Sign(cv, 3) + 16 * Sign(cv, 4) + 32 * Sign(cv, 5) + 64 * Sign(cv, 6) + 128 * Sign(cv, 7)
  {
    assert PartialIndex(cv, 1) == Sign(cv, 0);
    assert PartialIndex(cv, 2) == PartialIndex(cv, 1) + 2 * Sign(cv, 1);
    assert PartialIndex(cv, 3) == PartialIndex(cv, 2) + 4 * Sign(cv, 2);
    assert PartialIndex(cv, 4) == PartialIndex(cv, 3) + 8 * Sign(cv, 3);
    assert PartialIndex(cv, 5) == PartialIndex(cv, 4) + 16 * Sign(cv, 4);
    assert PartialIndex(cv, 6) == PartialIndex(cv, 5) + 32 * Sign(cv, 5);
    assert PartialIndex(cv, 7) == PartialIndex(cv, 6) + 64 * Sign(cv, 6);
    assert PartialIndex(cv, 8) == PartialIndex(cv, 7) + 128 * Sign(cv, 7);
  }

  lemma CubeIndexBitLow(cv: seq<real>, n: nat)
    requires |cv| == 8 && 0 <= n < 4
    ensures (CubeIndex(cv) / CornerBit[n]) % 2 == Sign(cv, n)
  {
    CubeIndexDigits(cv);
    var x := CubeIndex(cv);
    if n == 0 {
      BitAt(x, 1, 0, Sign(cv, 0), Sign(cv, 1) + 2 * Sign(cv, 2) + 4 * Sign(cv, 3) + 8 * Sign(cv, 4) + 16 * Sign(cv, 5) + 32 * Sign(cv, 6) + 64 * Sign(cv, 7));
    } else if n == 1 {
      BitAt(x, 2, Sign(cv, 0), Sign(cv, 1), Sign(cv, 2) + 2 * Sign(cv, 3) + 4 * Sign(cv, 4) + 8 * Sign(cv, 5) + 16 * Sign(cv, 6) + 32 * Sign(cv, 7));
    } else if n == 2 {
      BitAt(x, 4, Sign(cv, 0) + 2 * Sign(cv, 1), Sign(cv, 2), Sign(cv, 3) + 2 * Sign(cv, 4) + 4 * Sign(cv, 5) + 8 * Sign(cv, 6) + 16 * Sign(cv, 7));
    } else {
      BitAt(x, 8, Sign(cv, 0) + 2 * Sign(cv, 1) + 4 * Sign(cv, 2), Sign(cv, 3), Sign(cv, 4) + 2 * Sign(cv, 5) + 4 * Sign(cv, 6) + 8 * Sign(cv, 7));
    }
  }

  lemma CubeIndexBitHigh(cv: seq<real>, n: nat)
    requires |cv| == 8 && 4 <= n < 8
    ensures (CubeIndex(cv) / CornerBit[n]) % 2 == Sign(cv, n)
  {
    CubeIndexDigits(cv);
    var x := CubeIndex(cv);
    if n == 4 {
      BitAt(x, 16, Sign(cv, 0) + 2 * Sign(cv, 1) + 4 * Sign(cv, 2) + 8 * Sign(cv, 3), Sign(cv, 4), Sign(cv, 5) + 2 * Sign(cv, 6) + 4 * Sign(cv, 7));
    } else if n == 5 {
      BitAt(x, 32, Sign(cv, 0) + 2 * Sign(cv, 1) + 4 * Sign(cv, 2) + 8 * Sign(cv, 3) + 16 * Sign(cv, 4), Sign(cv, 5), Sign(cv, 6) + 2 * Sign(cv, 7));
    } else if n == 6 {
      BitAt(x, 64, Sign(cv, 0) + 2 * Sign(cv, 1) + 4 * Sign(cv, 2) + 8 * Sign(cv, 3) + 16 * Sign(cv, 4) + 32 * Sign(cv, 5), Sign(cv, 6), Sign(cv, 7));
    } else {
      BitAt(x, 128, Sign(cv, 0) + 2 * Sign(cv, 1) + 4 * Sign(cv, 2) + 8 * Sign(cv, 3) + 16 * Sign(cv, 4) + 32 * Sign(cv, 5) + 64 * Sign(cv, 6), Sign(cv, 7), 0);
    }
  }

  /** Reading bit n back out of the cube index tells whether corner n is inside. */
  lemma CubeIndexBits(cv: seq<real>)
    requires |cv| == 8
    ensures forall n :: 0 <= n < 8 ==> ((CubeIndex(cv) / CornerBit[n]) % 2 == 1 <==> cv[n] < 0.0)
  {
    forall n | 0 <= n < 8 ensures (CubeIndex(cv) / CornerBit[n]) % 2 == 1 <==> cv[n] < 0.0 {
      if n < 4 {
        CubeIndexBitLow(cv, n);
      } else {
        CubeIndexBitHigh(cv, n);
      }
    }
  }

  // ---------------------------------------------------------------
  // Lookup tables and edge interpolation
  // ---------------------------------------------------------------

  /** EDGE_TABLE (12-bit masks of cut edges) and TRI_TABLE (rows of edge
      numbers in triples, ended by -1), indexed by cube index. */
  datatype Tables = Tables(edges: seq<bv16>, tris: seq<seq<int>>)

  /** Entry t of a TRI_TABLE row is an edge number or -1. */
  predicate EntryOk(row: seq<int>, t: nat)
    requires t < |row|
  {
    -1 <= row[t] < 12
  }

  /** A triple that starts with an edge number is complete. */
  predicate TripleOk(row: seq<int>, t: nat)
    requires t + 2 < |row|
  {
    row[t] != -1 ==> row[t + 1] != -1 && row[t + 2] != -1
  }

  /** A TRI_TABLE row: 16 entries in -1 .. 11, the last -1, and the five
      triples at 0, 3, ..., 12 complete. */
  predicate TriRowOk(row: seq<int>) {
    |row| == 16 && row[15] == -1 && (forall t: nat :: t < 16 ==> EntryOk(row, t)) &&
    TripleOk(row, 0) && TripleOk(row, 3) && TripleOk(row, 6) && TripleOk(row, 9) && TripleOk(row, 12)
  }

  /** A triple that starts with an edge number lies inside the row and
      names three edges. */
  lemma TripleAt(row: seq<int>, t: nat)
    requires TriRowOk(row) && t <= 15 && t % 3 == 0 && row[t] != -1
    ensures t + 3 <= 15
    ensures 0 <= row[t] < 12 && 0 <= row[t + 1] < 12 && 0 <= row[t + 2] < 12
  {
    assert EntryOk(row, t) && EntryOk(row, t + 1) && EntryOk(row, t + 2);
    assert TripleOk(row, t) by {
      if t == 0 { } else if t == 3 { } else if t == 6 { } else if t == 9 { } else { assert t == 12; }
    }
  }

  /** What the unshown table module is taken to provide. */
  predicate TablesOk(tb: Tables) {
    |tb.edges| == 256 && |tb.tris| == 256 && forall c :: 0 <= c < 256 ==> TriRowOk(tb.tris[c])
  }

  /** The corners joined by edges 0 .. 11. */
  const EdgeEnds: seq<(nat, nat)> :=
    [(0, 1), (1, 2), (2, 3), (3, 0), (4, 5), (5, 6), (6, 7), (7, 4), (0, 4), (1, 5), (2, 6), (3, 7)]

  /** The EDGE_TABLE bit of edges 0 .. 11. */
  const EdgeMask: seq<bv16> := [1, 2, 4, 8, 16, 32, 64, 128, 256, 512, 1024, 2048]

  /** Where the field crosses zero along an edge, as a fraction of the edge. */
  function InterpParam(v1: real, v2: real): real
    requires v1 != v2
  {
    (0.0 - v1) / (v2 - v1)
  }

  /** vertex_interp: p1 when the two values are within 1e-9 of each other,
      otherwise the point the linear interpolant puts at zero. */
  function VertexInterp(p1: Vec3, v1: real, p2: Vec3, v2: real): Vec3 {
    if Abs(v2 - v1) < 0.000000001 then p1
    else Add(p1, Scale(Sub(p2, p1), InterpParam(v1, v2)))
  }

  /** The corner values lie on opposite sides of the isovalue 0. */
  predicate Straddles(v1: real, v2: real) {
    (v1 < 0.0) != (v2 < 0.0)
  }

  /** On a straddling edge the parameter lies in [0, 1] and is where the
      linear interpolant of the two values vanishes. */
  lemma InterpParamRange(v1: real, v2: real)
    requires Straddles(v1, v2)
    ensures v1 != v2
    ensures 0.0 <= InterpParam(v1, v2) <= 1.0
    ensures v1 + InterpParam(v1, v2) * (v2 - v1) == 0.0
  {
  }

  /** a lies between b and c. */
  predicate Between(a: real, b: real, c: real) {
    (b <= a <= c) || (c <= a <= b)
  }

  lemma LerpBetween(a: real, b: real, mu: real)
    requires 0.0 <= mu <= 1.0
    ensures Between(a + (b - a) * mu, a, b)
  {
    if a <= b {
      assert (b - a) * mu <= b - a;
    } else {
      assert (a - b) * mu <= a - b;
    }
  }

  /** The interpolated point of a straddling edge lies on the edge's box:
      each coordinate between the two corners' coordinates. */
  lemma VertexInterpOnEdge(p1: Vec3, v1: real, p2: Vec3, v2: real)
    requires Straddles(v1, v2)
    ensures var r := VertexInterp(p1, v1, p2, v2);
      Between(r.x, p1.x, p2.x) && Between(r.y, p1.y, p2.y) && Between(r.z, p1.z, p2.z)
  {
    InterpParamRange(v1, v2);
    if Abs(v2 - v1) >= 0.000000001 {
      var mu := InterpParam(v1, v2);
      LerpBetween(p1.x, p2.x, mu);
      LerpBetween(p1.y, p2.y, mu);
      LerpBetween(p1.z, p2.z, mu);
    }
  }

  /** Entry e of vert_list: the interpolated point of edge e when its
      EDGE_TABLE bit is set, the zero vector otherwise. */
  function EdgePoint(edges: bv16, cp: seq<Vec3>, cv: seq<real>, e: nat): Vec3
    requires |cp| == 8 && |cv| == 8 && e < 12
  {
    var a := EdgeEnds[e].0;
    var b := EdgeEnds[e].1;
    if edges & EdgeMask[e] != 0 then VertexInterp(cp[a], cv[a], cp[b], cv[b]) else Zero
  }

  /** vert_list, all twelve edges. */
  function VertList(edges: bv16, cp: seq<Vec3>, cv: seq<real>): (vl: seq<Vec3>)
    requires |cp| == 8 && |cv| == 8
    ensures |vl| == 12
  {
    seq(12, e requires 0 <= e < 12 => EdgePoint(edges, cp, cv, e))
  }

  /** A flagged edge whose corners straddle 0 gets a point on that edge;
      an unflagged edge is left at the origin. */
  lemma EdgePointOnEdge(edges: bv16, cp: seq<Vec3>, cv: seq<real>, e: nat)
    requires |cp| == 8 && |cv| == 8 && e < 12
    ensures edges & EdgeMask[e] == 0 ==> EdgePoint(edges, cp, cv, e) == Zero
    ensures var a := EdgeEnds[e].0; var b := EdgeEnds[e].1; var r := EdgePoint(edges, cp, cv, e);
      edges & EdgeMask[e] != 0 && Straddles(cv[a], cv[b]) ==>
        Between(r.x, cp[a].x, cp[b].x) && Between(r.y, cp[a].y, cp[b].y) && Between(r.z, cp[a].z, cp[b].z)
  {
    var a := EdgeEnds[e].0;
    var b := EdgeEnds[e].1;
    if edges & EdgeMask[e] != 0 && Straddles(cv[a], cv[b]) {
      VertexInterpOnEdge(cp[a], cv[a], cp[b], cv[b]);
    }
  }

  // ---------------------------------------------------------------
  // Triangles of one cube
  // ---------------------------------------------------------------

  /** Three edge numbers of a TRI_TABLE triple. */
  datatype Tri = Tri(a: nat, b: nat, c: nat)

  predicate TrisInRange(tris: seq<Tri>) {
    forall q :: 0 <= q < |tris| ==> tris[q].a < 12 && tris[q].b < 12 && tris[q].c < 12
  }

  /** The triples of a row from position t on, up to the first -1. */
  function TriangleList(row: seq<int>, t: nat): (r: seq<Tri>)
    requires TriRowOk(row) && t <= 15 && t % 3 == 0
    ensures |r| <= (15 - t) / 3
    ensures TrisInRange(r)
    decreases 15 - t
  {
    if row[t] == -1 then []
    else
      TripleAt(row, t);
      [Tri(row[t], row[t + 1], row[t + 2])] + TriangleList(row, t + 3)
  }

  /** Reading stops at a -1 that is still inside the row. */
  lemma {:induction false} TriangleListEnd(row: seq<int>, t: nat)
    requires TriRowOk(row) && t <= 15 && t % 3 == 0
    ensures t + 3 * |TriangleList(row, t)| <= 15 && row[t + 3 * |TriangleList(row, t)|] == -1
    decreases 15 - t
  {
    if row[t] != -1 {
      TripleAt(row, t);
      TriangleListEnd(row, t + 3);
      var rest := TriangleList(row, t + 3);
      assert TriangleList(row, t) == [Tri(row[t], row[t + 1], row[t + 2])] + rest;
      assert t + 3 * |TriangleList(row, t)| == (t + 3) + 3 * |rest|;
    }
  }

  /** Triple q is read at t + 3q, before position 15 and before any -1. */
  lemma {:induction false} TriangleListAt(row: seq<int>, t: nat, q: nat)
    requires TriRowOk(row) && t <= 15 && t % 3 == 0 && q < |TriangleList(row, t)|
    ensures t + 3 * q + 2 < 15 && row[t + 3 * q] != -1
    ensures TriangleList(row, t)[q].a == row[t + 3 * q] && TriangleList(row, t)[q].b == row[t + 3 * q + 1] &&
            TriangleList(row, t)[q].c == row[t + 3 * q + 2]
    decreases q
  {
    TripleAt(row, t);
    var rest := TriangleList(row, t + 3);
    assert TriangleList(row, t) == [Tri(row[t], row[t + 1], row[t + 2])] + rest;
    if q > 0 {
      TriangleListAt(row, t + 3, q - 1);
      assert TriangleList(row, t)[q] == rest[q - 1];
      assert t + 3 * q == (t + 3) + 3 * (q - 1);
    }
  }

  /** The triples are read at t, t + 3, ..., and reading stops at a -1 that
      is still inside the row: so no read goes past position 15. */
  lemma TriangleListReads(row: seq<int>, t: nat)
    requires TriRowOk(row) && t <= 15 && t % 3 == 0
    ensures var r := TriangleList(row, t);
      t + 3 * |r| <= 15 && row[t + 3 * |r|] == -1 &&
      forall q :: 0 <= q < |r| ==>
        (t + 3 * q + 2 < 15 && row[t + 3 * q] != -1 &&
         r[q].a == row[t + 3 * q] && r[q].b == row[t + 3 * q + 1] && r[q].c == row[t + 3 * q + 2])
  {
    TriangleListEnd(row, t);
    var r := TriangleList(row, t);
    forall q | 0 <= q < |r|
      ensures t + 3 * q + 2 < 15 && row[t + 3 * q] != -1 &&
        r[q].a == row[t + 3 * q] && r[q].b == row[t + 3 * q + 1] && r[q].c == row[t + 3 * q + 2]
    {
      TriangleListAt(row, t, q);
    }
  }

  /** The three vertices one triangle pushes: positions from vert_list and
      the normal there. */
  function TriVertices(tri: Tri, vl: seq<Vec3>, nrm: Vec3 -> Vec3): (r: seq<Vertex3D>)
    requires |vl| == 12 && tri.a < 12 && tri.b < 12 && tri.c < 12
    ensures |r| == 3
  {
    [Vertex3D(vl[tri.a], nrm(vl[tri.a])), Vertex3D(vl[tri.b], nrm(vl[tri.b])),
     Vertex3D(vl[tri.c], nrm(vl[tri.c]))]
  }

  /** The vertices of a list of triangles, three per triangle, in order. */
  function TriangleVertices(tris: seq<Tri>, vl: seq<Vec3>, nrm: Vec3 -> Vec3): (r: seq<Vertex3D>)
    requires |vl| == 12 && TrisInRange(tris)
    ensures |r| == 3 * |tris|
  {
    if |tris| == 0 then [] else TriVertices(tris[0], vl, nrm) + TriangleVertices(tris[1..], vl, nrm)
  }

  /** n vertices make whole triangles. */
  predicate WholeTriangles(n: nat) {
    n % 3 == 0
  }

  /** Everything one cube appends to its layer's vertices. */
  function CellVertices(values: seq<real>, g: Lattice, tb: Tables, nrm: Vec3 -> Vec3,
                        i: nat, j: nat, k: nat): (r: seq<Vertex3D>)
    requires TablesOk(tb) && CubeInLattice(g, i, j, k) && |values| == Cube(g.p)
    ensures WholeTriangles(|r|) && |r| <= 15
    ensures tb.edges[CubeIndex(CornerValues(values, g, i, j, k))] == 0 ==> r == []
  {
    var cv := CornerValues(values, g, i, j, k);
    var ci := CubeIndex(cv);
    var edges := tb.edges[ci];
    if edges == 0 then []
    else TriangleVertices(TriangleList(tb.tris[ci], 0), VertList(edges, CornerPositions(g, i, j, k), cv), nrm)
  }

  /** 0, 1, ..., n - 1. */
  function Iota(n: nat): (r: seq<nat>)
    ensures |r| == n
  {
    seq(n, m requires 0 <= m < n => m as nat)
  }

  lemma IotaPush(n: nat)
    ensures Iota(n) + [n, n + 1, n + 2] == Iota(n + 3)
  {
    var s := Iota(n) + [n, n + 1, n + 2];
    forall m | 0 <= m < n + 3 ensures s[m] == Iota(n + 3)[m] {
      if m >= n {
        assert s[m] == [n, n + 1, n + 2][m - n];
      }
    }
  }

  /** Reading one more triple off the row. */
  lemma TriangleStep(row: seq<int>, t: nat, vl: seq<Vec3>, nrm: Vec3 -> Vec3)
    requires TriRowOk(row) && t <= 15 && t % 3 == 0 && row[t] != -1 && |vl| == 12
    ensures t + 3 <= 15 && 0 <= row[t] < 12 && 0 <= row[t + 1] < 12 && 0 <= row[t + 2] < 12
    ensures TriangleVertices(TriangleList(row, t), vl, nrm) ==
      TriVertices(Tri(row[t], row[t + 1], row[t + 2]), vl, nrm) + TriangleVertices(TriangleList(row, t + 3), vl, nrm)
  {
    TripleAt(row, t);
    var tri := Tri(row[t], row[t + 1], row[t + 2]);
    var rest := TriangleList(row, t + 3);
    assert TriangleList(row, t) == [tri] + rest;
    assert ([tri] + rest)[1..] == rest;
  }

  /** Pushing the vertices of the triple at t keeps what remains to push. */
  lemma TriangleAppend(verts: seq<Vertex3D>, row: seq<int>, t: nat, vl: seq<Vec3>, nrm: Vec3 -> Vec3)
    requires TriRowOk(row) && t <= 15 && t % 3 == 0 && row[t] != -1 && |vl| == 12
    ensures t + 3 <= 15 && 0 <= row[t] < 12 && 0 <= row[t + 1] < 12 && 0 <= row[t + 2] < 12
    ensures verts + TriangleVertices(TriangleList(row, t), vl, nrm) ==
      (verts + [Vertex3D(vl[row[t]], nrm(vl[row[t]])), Vertex3D(vl[row[t + 1]], nrm(vl[row[t + 1]])),
                Vertex3D(vl[row[t + 2]], nrm(vl[row[t + 2]]))]) +
      TriangleVertices(TriangleList(row, t + 3), vl, nrm)
  {
    TriangleStep(row, t, vl, nrm);
    var block := TriVertices(Tri(row[t], row[t + 1], row[t + 2]), vl, nrm);
    var rest := TriangleVertices(TriangleList(row, t + 3), vl, nrm);
    assert (verts + block) + rest == verts + (block + rest);
  }

  /** The per-layer index state: local_indices[m] == m and the counter is
      the number of vertices pushed so far. */
  predicate Counted(verts: seq<Vertex3D>, idxs: seq<nat>, counter: nat) {
    idxs == Iota(|verts|) && counter == |verts|
  }

  /** The triangle loop of one cube: for t = 0, 3, ..., 15, stop at -1,
      otherwise push the three vertices and the indices counter,
      counter + 1, counter + 2. */
  method EmitTriangles(row: seq<int>, vl: seq<Vec3>, nrm: Vec3 -> Vec3,
                       verts: seq<Vertex3D>, idxs: seq<nat>, counter: nat)
    returns (verts': seq<Vertex3D>, idxs': seq<nat>, counter': nat)
    requires TriRowOk(row) && |vl| == 12
    requires Counted(verts, idxs, counter)
    ensures verts' == verts + TriangleVertices(TriangleList(row, 0), vl, nrm)
    ensures Counted(verts', idxs', counter')
  {
    ghost var goal := verts + TriangleVertices(TriangleList(row, 0), vl, nrm);
    verts', idxs', counter' := verts, idxs, counter;
    var t: nat := 0;
    while t < 16
      invariant t <= 15 && t % 3 == 0
      invariant verts' + TriangleVertices(TriangleList(row, t), vl, nrm) == goal
      invariant Counted(verts', idxs', counter')
      decreases 16 - t
    {
      var vIdx1 := row[t];
      if vIdx1 == -1 {
        break;
      }
      TripleAt(row, t);
      var vIdx2 := row[t + 1];
      var vIdx3 := row[t + 2];
      var p1, p2, p3 := vl[vIdx1], vl[vIdx2], vl[vIdx3];
      var n1, n2, n3 := nrm(p1), nrm(p2), nrm(p3);
      TriangleAppend(verts', row, t, vl, nrm);
      verts' := verts' + [Vertex3D(p1, n1), Vertex3D(p2, n2), Vertex3D(p3, n3)];
      IotaPush(counter');
      idxs' := idxs' + [counter', counter' + 1, counter' + 2];
      counter' := counter' + 3;
      t := t + 3;
    }
  }

  /** The body of the (j, i) loop: read the corners, skip a cube the edge
      table marks as uncut, otherwise interpolate and emit its triangles.
      `cell` names the cube outputs of the layer (see MarchRow). */
  method ProcessCell(values: array<real>, g: Lattice, tb: Tables, nrm: Vec3 -> Vec3,
                     i: nat, j: nat, k: nat, ghost vals: seq<real>, ghost cell: (nat, nat) -> seq<Vertex3D>,
                     verts: seq<Vertex3D>, idxs: seq<nat>, counter: nat)
    returns (verts': seq<Vertex3D>, idxs': seq<nat>, counter': nat)
    requires TablesOk(tb) && CubeInLattice(g, i, j, k) && values.Length == Cube(g.p)
    requires vals == values[..] && CellsAre(vals, g, tb, nrm, k, cell)
    requires Counted(verts, idxs, counter)
    ensures verts' == verts + cell(j, i)
    ensures Counted(verts', idxs', counter')
  {
    assert cell(j, i) == CellVertices(vals, g, tb, nrm, i, j, k);
    var cubeIndex, cornerVals, cornerPos := ReadCorners(values, g, i, j, k);
    var edges := tb.edges[cubeIndex];
    if edges == 0 {
      return verts, idxs, counter;
    }
    var vertList := VertList(edges, cornerPos, cornerVals);
    verts', idxs', counter' := EmitTriangles(tb.tris[cubeIndex], vertList, nrm, verts, idxs, counter);
  }

  // ---------------------------------------------------------------
  // One z-layer
  // ---------------------------------------------------------------

  /** The cubes of layer k, cube (i, j) at grid position (j, i): the
      loops run over j and, inside, over i. */
  function LayerCells(values: seq<real>, g: Lattice, tb: Tables, nrm: Vec3 -> Vec3, k: nat)
    : (nat, nat) -> seq<Vertex3D>
  {
    (j: nat, i: nat) =>
      if TablesOk(tb) && CubeInLattice(g, i, j, k) && |values| == Cube(g.p)
      then CellVertices(values, g, tb, nrm, i, j, k) else []
  }

  /** The vertices layer k of a lattice with p points per axis produces. */
  function LayerVertices(values: seq<real>, g: Lattice, tb: Tables, nrm: Vec3 -> Vec3, k: nat): seq<Vertex3D>
    requires g.p > 0
  {
    Rows(LayerCells(values, g, tb, nrm, k), g.p - 1, g.p - 1)
  }

  /** `cell` gives, at (j, i), the output of cube (i, j, k) of the lattice. */
  ghost predicate CellsAre(vals: seq<real>, g: Lattice, tb: Tables, nrm: Vec3 -> Vec3, k: nat,
                           cell: (nat, nat) -> seq<Vertex3D>) {
    forall j: nat, i: nat {:trigger CellVertices(vals, g, tb, nrm, i, j, k)} ::
      TablesOk(tb) && |vals| == Cube(g.p) && CubeInLattice(g, i, j, k) ==>
      cell(j, i) == CellVertices(vals, g, tb, nrm, i, j, k)
  }

  /** Layer k's cells are the cubes' outputs. */
  lemma LayerCellsAre(values: seq<real>, g: Lattice, tb: Tables, nrm: Vec3 -> Vec3, k: nat)
    ensures CellsAre(values, g, tb, nrm, k, LayerCells(values, g, tb, nrm, k))
  {
  }

  /** The i loop of row j of layer k; `cell` is the layer's cube output
      and `vals` the buffer's contents. */
  method MarchRow(values: array<real>, g: Lattice, tb: Tables, nrm: Vec3 -> Vec3, k: nat, j: nat,
                  ghost vals: seq<real>, ghost cell: (nat, nat) -> seq<Vertex3D>,
                  verts: seq<Vertex3D>, idxs: seq<nat>, counter: nat)
    returns (verts': seq<Vertex3D>, idxs': seq<nat>, counter': nat)
    requires TablesOk(tb) && values.Length == Cube(g.p) && j + 1 < g.p && k + 1 < g.p
    requires vals == values[..]
    requires CellsAre(vals, g, tb, nrm, k, cell)
    requires Counted(verts, idxs, counter)
    ensures verts' == verts + Row(cell, j, g.p - 1)
    ensures Counted(verts', idxs', counter')
  {
    verts', idxs', counter' := verts, idxs, counter;
    var i: nat := 0;
    while i < g.p - 1
      invariant i <= g.p - 1
      invariant verts' == verts + Row(cell, j, i)
      invariant Counted(verts', idxs', counter')
    {
      verts', idxs', counter' := ProcessCell(values, g, tb, nrm, i, j, k, vals, cell, verts', idxs', counter');
      assert verts + Row(cell, j, i + 1) == (verts + Row(cell, j, i)) + cell(j, i);
      i := i + 1;
    }
  }

  /** One layer of the marching: its own vertex list, and indices that
      count from 0 (local_indices[m] == m). */
  method MarchLayer(values: array<real>, g: Lattice, tb: Tables, nrm: Vec3 -> Vec3, k: nat,
                    ghost vals: seq<real>, ghost cell: (nat, nat) -> seq<Vertex3D>)
    returns (verts: seq<Vertex3D>, idxs: seq<nat>)
    requires TablesOk(tb) && values.Length == Cube(g.p) && k + 1 < g.p
    requires vals == values[..]
    requires CellsAre(vals, g, tb, nrm, k, cell)
    ensures verts == Rows(cell, g.p - 1, g.p - 1)
    ensures idxs == Iota(|verts|)
  {
    verts, idxs := [], [];
    var counter: nat := 0;
    var j: nat := 0;
    while j < g.p - 1
      invariant j <= g.p - 1
      invariant verts == Rows(cell, j, g.p - 1)
      invariant Counted(verts, idxs, counter)
    {
      verts, idxs, counter := MarchRow(values, g, tb, nrm, k, j, vals, cell, verts, idxs, counter);
      j := j + 1;
    }
  }

  /** Every cube emits whole triangles, so a row and a layer hold a multiple
      of three vertices. */
  lemma ModAdd3(a: nat, b: nat)
    requires WholeTriangles(a) && WholeTriangles(b)
    ensures WholeTriangles(a + b)
  {
  }

  lemma {:induction false} RowTriples(cell: (nat, nat) -> seq<Vertex3D>, j: nat, n: nat)
    requires forall i: nat :: i < n ==> WholeTriangles(|cell(j, i)|)
    ensures WholeTriangles(|Row(cell, j, n)|)
  {
    if n > 0 {
      RowTriples(cell, j, n - 1);
      ModAdd3(|Row(cell, j, n - 1)|, |cell(j, n - 1)|);
    }
  }

  lemma {:induction false} RowsTriples(cell: (nat, nat) -> seq<Vertex3D>, rows: nat, cols: nat)
    requires forall j: nat, i: nat :: j < rows && i < cols ==> WholeTriangles(|cell(j, i)|)
    ensures WholeTriangles(|Rows(cell, rows, cols)|)
  {
    if rows > 0 {
      RowsTriples(cell, rows - 1, cols);
      RowTriples(cell, rows - 1, cols);
      ModAdd3(|Rows(cell, rows - 1, cols)|, |Row(cell, rows - 1, cols)|);
    }
  }

  /** One cube of a layer emits whole triangles, at most five. */
  lemma CellCounts(values: seq<real>, g: Lattice, tb: Tables, nrm: Vec3 -> Vec3, k: nat, j: nat, i: nat)
    ensures WholeTriangles(|LayerCells(values, g, tb, nrm, k)(j, i)|)
    ensures |LayerCells(values, g, tb, nrm, k)(j, i)| <= 15
  {
    if TablesOk(tb) && CubeInLattice(g, i, j, k) && |values| == Cube(g.p) {
      var r := CellVertices(values, g, tb, nrm, i, j, k);
      assert WholeTriangles(|r|) && |r| <= 15;
    } else {
      assert LayerCells(values, g, tb, nrm, k)(j, i) == [];
    }
  }

  /** A layer holds whole triangles, at most five per cube. */
  lemma LayerCounts(values: seq<real>, g: Lattice, tb: Tables, nrm: Vec3 -> Vec3, k: nat)
    requires g.p > 0
    ensures WholeTriangles(|LayerVertices(values, g, tb, nrm, k)|)
    ensures |LayerVertices(values, g, tb, nrm, k)| <= 15 * ((g.p - 1) * (g.p - 1))
  {
    var cell := LayerCells(values, g, tb, nrm, k);
    forall j: nat, i: nat | j < g.p - 1 && i < g.p - 1
      ensures WholeTriangles(|cell(j, i)|) && |cell(j, i)| <= 15
    {
      CellCounts(values, g, tb, nrm, k, j, i);
    }
    RowsTriples(cell, g.p - 1, g.p - 1);
    RowsAtMost(cell, g.p - 1, g.p - 1, 15);
  }
}
