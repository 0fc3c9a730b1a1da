/** ImplicitSolver::solve: the curve f(x, y) = 0 as a point cloud. The
    view is cut into grid_w x grid_h cells (half the screen size in pixels,
    clamped to 100 .. 700); each cell (i, j) looks at f at its corner and
    at its right and upper neighbours, and emits a point on the bottom edge
    when f changes sign along it and one on the left edge when f changes
    sign along that, placed by linear interpolation. Columns are emitted in
    order of i, and within a column cells in order of j. */
module Implicit2D {
  import opened Geometry
  import opened Grids

  const GridLimit: nat := 700
  const GridMin: nat := 100
  const FlatDifference: real := 0.000000000000001

  /** (screen / 2).clamp(100, 700). */
  function GridSize(screen: nat): (n: nat)
    ensures GridMin <= n <= GridLimit
    ensures 2 * GridMin <= screen < 2 * GridLimit + 2 ==> n == screen / 2
    ensures screen < 2 * GridMin ==> n == GridMin
    ensures screen >= 2 * GridLimit ==> n == GridLimit
  {
    ClampInt(screen / 2, GridMin, GridLimit)
  }

  /** f changes sign (or vanishes) between two samples: v0 * v1 <= 0. */
  predicate Straddles(v0: real, v1: real) {
    v0 * v1 <= 0.0
  }

  /** linear_interp: the parameter in [0, 1] at which the line through
      (0, v0) and (1, v1) crosses zero, or 0.5 when the two values are
      within 1e-15 of each other. */
  function LinearInterp(v0: real, v1: real): (t: real)
    ensures 0.0 <= t <= 1.0
    ensures Abs(v1 - v0) < FlatDifference ==> t == 0.5
  {
    var diff := v1 - v0;
    if Abs(diff) < FlatDifference then 0.5 else Clamp(-v0 / diff, 0.0, 1.0)
  }

  /** When f changes sign and the difference is not negligible the clamp
      never acts: the parameter is the exact zero of the interpolant. */
  lemma LinearInterpRoot(v0: real, v1: real)
    requires Straddles(v0, v1) && Abs(v1 - v0) >= FlatDifference
    ensures LinearInterp(v0, v1) == -v0 / (v1 - v0)
    ensures v0 + LinearInterp(v0, v1) * (v1 - v0) == 0.0
  {
    var diff := v1 - v0;
    var q := -v0 / diff;
    assert q * diff == -v0;
    if diff > 0.0 {
      assert 0.0 <= -v0 <= diff;
    } else {
      assert diff <= -v0 <= 0.0;
    }
    assert 0.0 <= q <= 1.0;
  }

  /** x + t * step. */
  function Lerp(x: real, t: real, step: real): real {
    x + t * step
  }

  /** The sample grid: corner (i, j) of the view, steps xs and ys. */
  datatype Grid = Grid(x0: real, y0: real, xs: real, ys: real)

  /** The points a cell with corner (x, y), sides xs and ys and samples
      v00 = f(x, y), v10 = f(x + xs, y), v01 = f(x, y + ys) emits: first
      the bottom-edge crossing, then the left-edge crossing, each when f
      changes sign along that edge. */
  function CellCrossings(x: real, y: real, xs: real, ys: real, v00: real, v10: real, v01: real): seq<Vertex2D> {
    (if Straddles(v00, v10) then [Vertex2D(Lerp(x, LinearInterp(v00, v10), xs), y)] else []) +
    (if Straddles(v00, v01) then [Vertex2D(x, Lerp(y, LinearInterp(v00, v01), ys))] else [])
  }

  /** A cell emits its bottom-edge point exactly when f changes sign along
      the bottom edge and its left-edge point exactly when it changes sign
      along the left edge; a non-negligible change puts the point at the
      zero of the linear interpolant along that edge. */
  lemma CellCrossingsRule(x: real, y: real, xs: real, ys: real, v00: real, v10: real, v01: real)
    ensures var c := CellCrossings(x, y, xs, ys, v00, v10, v01);
      |c| == (if Straddles(v00, v10) then 1 else 0) + (if Straddles(v00, v01) then 1 else 0)
    ensures var c := CellCrossings(x, y, xs, ys, v00, v10, v01);
      Straddles(v00, v10) ==>
        (c[0].y == y &&
         (Abs(v10 - v00) >= FlatDifference ==>
            c[0].x == x + (-v00 / (v10 - v00)) * xs))
    ensures var c := CellCrossings(x, y, xs, ys, v00, v10, v01);
      Straddles(v00, v01) ==>
        (c[|c| - 1].x == x &&
         (Abs(v01 - v00) >= FlatDifference ==>
            c[|c| - 1].y == y + (-v00 / (v01 - v00)) * ys))
  {
    if Straddles(v00, v10) && Abs(v10 - v00) >= FlatDifference {
      LinearInterpRoot(v00, v10);
    }
    if Straddles(v00, v01) && Abs(v01 - v00) >= FlatDifference {
      LinearInterpRoot(v00, v01);
    }
  }

  /** A fraction t in [0, 1] of a non-negative step is within [0, step]. */
  lemma ScaleWithin(t: real, step: real)
    requires 0.0 <= t <= 1.0 && 0.0 <= step
    ensures 0.0 <= t * step <= step
  {
    assert (1.0 - t) * step >= 0.0;
  }

  /** The points of a cell lie on its bottom and left edges, so inside any
      box holding the cell. */
  lemma CellCrossingsInBox(x: real, y: real, xs: real, ys: real, v00: real, v10: real, v01: real,
                           x0: real, x1: real, y0: real, y1: real)
    requires 0.0 <= xs && 0.0 <= ys && x0 <= x && x + xs <= x1 && y0 <= y && y + ys <= y1
    ensures var c := CellCrossings(x, y, xs, ys, v00, v10, v01);
      forall k :: 0 <= k < |c| ==> InBox(c[k], x0, x1, y0, y1)
  {
    var t0 := LinearInterp(v00, v10);
    var t1 := LinearInterp(v00, v01);
    ScaleWithin(t0, xs);
    ScaleWithin(t1, ys);
    var a := t0 * xs;
    var b := t1 * ys;
    assert Lerp(x, t0, xs) == x + a;
    assert Lerp(y, t1, ys) == y + b;
    var h := Vertex2D(Lerp(x, t0, xs), y);
    var v := Vertex2D(x, Lerp(y, t1, ys));
    assert InBox(h, x0, x1, y0, y1) && InBox(v, x0, x1, y0, y1);
    var c := CellCrossings(x, y, xs, ys, v00, v10, v01);
    assert forall k :: 0 <= k < |c| ==> c[k] == h || c[k] == v;
  }

  /** The points cell (i, j) of grid g emits. */
  function ContourCell(f: (real, real) -> real, g: Grid, i: nat, j: nat): seq<Vertex2D> {
    var x := Tick(g.x0, g.xs, i);
    var y := Tick(g.y0, g.ys, j);
    CellCrossings(x, y, g.xs, g.ys, f(x, y), f(x + g.xs, y), f(x, y + g.ys))
  }

  function ContourCells(f: (real, real) -> real, g: Grid): (nat, nat) -> seq<Vertex2D> {
    (i: nat, j: nat) => ContourCell(f, g, i, j)
  }

  /** The inner loop of one column i: cells (i, 0) .. (i, gh - 1). */
  method ContourColumn(f: (real, real) -> real, g: Grid, i: nat, gh: nat) returns (pts: seq<Vertex2D>)
    ensures pts == Row(ContourCells(f, g), i, gh)
  {
    ghost var cells := ContourCells(f, g);
    var x := Tick(g.x0, g.xs, i);
    pts := [];
    for j := 0 to gh
      invariant pts == Row(cells, i, j)
    {
      var y := Tick(g.y0, g.ys, j);
      var v00 := f(x, y);
      var v10 := f(x + g.xs, y);
      var v01 := f(x, y + g.ys);
      ghost var before := pts;
      if Straddles(v00, v10) {
        var t := LinearInterp(v00, v10);
        pts := pts + [Vertex2D(Lerp(x, t, g.xs), y)];
      }
      if Straddles(v00, v01) {
        var t := LinearInterp(v00, v01);
        pts := pts + [Vertex2D(x, Lerp(y, t, g.ys))];
      }
      assert cells(i, j) == ContourCell(f, g, i, j);
      assert pts == before + cells(i, j);
    }
  }

  /** The sample grid of a view and a screen. */
  function SolverGrid(xRange: (real, real), yRange: (real, real), screenW: nat, screenH: nat): (g: Grid)
    ensures g.x0 == xRange.0 && g.y0 == yRange.0
    ensures g.xs * (GridSize(screenW) as real) == xRange.1 - xRange.0
    ensures g.ys * (GridSize(screenH) as real) == yRange.1 - yRange.0
  {
    Grid(xRange.0, yRange.0, Step(xRange.0, xRange.1, GridSize(screenW)), Step(yRange.0, yRange.1, GridSize(screenH)))
  }

  /** The points ImplicitSolver::solve returns. */
  function ImplicitCurve(f: (real, real) -> real, xRange: (real, real), yRange: (real, real), screenW: nat, screenH: nat): seq<Vertex2D> {
    Rows(ContourCells(f, SolverGrid(xRange, yRange, screenW, screenH)), GridSize(screenW), GridSize(screenH))
  }

  /** ImplicitSolver::solve: the columns one after another. */
  method ImplicitSolve(f: (real, real) -> real, xRange: (real, real), yRange: (real, real), screenW: nat, screenH: nat)
    returns (pts: seq<Vertex2D>)
    ensures pts == ImplicitCurve(f, xRange, yRange, screenW, screenH)
  {
    var gw := GridSize(screenW);
    var gh := GridSize(screenH);
    var g := SolverGrid(xRange, yRange, screenW, screenH);
    ghost var cells := ContourCells(f, g);
    pts := [];
    for i := 0 to gw
      invariant pts == Rows(cells, i, gh)
    {
      var column := ContourColumn(f, g, i, gh);
      pts := pts + column;
    }
  }

  /** A point lies in the closed box [x0, x1] x [y0, y1]. */
  predicate InBox(p: Vertex2D, x0: real, x1: real, y0: real, y1: real) {
    x0 <= p.x <= x1 && y0 <= p.y <= y1
  }

  /** With a non-negative step, the cell corners i and i + 1 of an
      n-cell subdivision of [lo, hi] lie in [lo, hi]. */
  lemma TickInRange(lo: real, hi: real, n: nat, i: nat)
    requires i < n && lo <= hi
    ensures var step := Step(lo, hi, n);
      step >= 0.0 && lo <= Tick(lo, step, i) && Tick(lo, step, i) + step <= hi
  {
    var step := Step(lo, hi, n);
    assert step * (n as real) == hi - lo;
    var d := (n - (i + 1)) as real;
    assert d * step >= 0.0;
    assert (n as real) * step == (i as real) * step + step + d * step;
    assert (i as real) * step >= 0.0;
  }

  /** Every point of a cell lies in the cell, hence in the view. */
  lemma ContourCellInBox(f: (real, real) -> real, xRange: (real, real), yRange: (real, real), screenW: nat, screenH: nat, i: nat, j: nat)
    requires xRange.0 <= xRange.1 && yRange.0 <= yRange.1
    requires i < GridSize(screenW) && j < GridSize(screenH)
    ensures var g := SolverGrid(xRange, yRange, screenW, screenH);
      var c := ContourCell(f, g, i, j);
      forall k :: 0 <= k < |c| ==> InBox(c[k], xRange.0, xRange.1, yRange.0, yRange.1)
  {
    var g := SolverGrid(xRange, yRange, screenW, screenH);
    TickInRange(xRange.0, xRange.1, GridSize(screenW), i);
    TickInRange(yRange.0, yRange.1, GridSize(screenH), j);
    var x := Tick(g.x0, g.xs, i);
    var y := Tick(g.y0, g.ys, j);
    CellCrossingsInBox(x, y, g.xs, g.ys, f(x, y), f(x + g.xs, y), f(x, y + g.ys), xRange.0, xRange.1, yRange.0, yRange.1);
  }

  /** Every point the solver returns lies in the view x_range x y_range. */
  lemma ImplicitCurveInBox(f: (real, real) -> real, xRange: (real, real), yRange: (real, real), screenW: nat, screenH: nat)
    requires xRange.0 <= xRange.1 && yRange.0 <= yRange.1
    ensures var r := ImplicitCurve(f, xRange, yRange, screenW, screenH);
      forall k :: 0 <= k < |r| ==> InBox(r[k], xRange.0, xRange.1, yRange.0, yRange.1)
  {
    var g := SolverGrid(xRange, yRange, screenW, screenH);
    var cells := ContourCells(f, g);
    var p := (v: Vertex2D) => InBox(v, xRange.0, xRange.1, yRange.0, yRange.1);
    forall i: nat, j: nat, k: nat | i < GridSize(screenW) && j < GridSize(screenH) && k < |cells(i, j)|
      ensures p(cells(i, j)[k])
    {
      ContourCellInBox(f, xRange, yRange, screenW, screenH, i, j);
    }
    RowsAll(cells, GridSize(screenW), GridSize(screenH), p);
  }

  lemma MulMono(a: nat, b: nat, c: nat, d: nat)
    requires a <= c && b <= d
    ensures a * b <= c * d
  {
    assert a * b <= c * b;
  }

  /** Each cell emits at most two points, so the solver returns at most
      2 * grid_w * grid_h <= 2 * 700 * 700 of them. */
  lemma ImplicitCurveCount(f: (real, real) -> real, xRange: (real, real), yRange: (real, real), screenW: nat, screenH: nat)
    ensures |ImplicitCurve(f, xRange, yRange, screenW, screenH)| <= 2 * (GridSize(screenW) * GridSize(screenH))
    ensures |ImplicitCurve(f, xRange, yRange, screenW, screenH)| <= 2 * (GridLimit * GridLimit)
  {
    var g := SolverGrid(xRange, yRange, screenW, screenH);
    var cells := ContourCells(f, g);
    var gw := GridSize(screenW);
    var gh := GridSize(screenH);
    forall i: nat, j: nat | i < gw && j < gh ensures |cells(i, j)| <= 2 {
      var x := Tick(g.x0, g.xs, i);
      var y := Tick(g.y0, g.ys, j);
      CellCrossingsRule(x, y, g.xs, g.ys, f(x, y), f(x + g.xs, y), f(x, y + g.ys));
    }
    RowsAtMost(cells, gw, gh, 2);
    MulMono(gw, gh, GridLimit, GridLimit);
  }
}
