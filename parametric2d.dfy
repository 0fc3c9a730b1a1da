/** ParametricSolver::solve: the curve t -> (x(t), y(t)) as a ribbon of
    quads. The t range is sampled at max(floor(20 * t_len), 200) + 1 evenly
    spaced parameters; each pair of consecutive points becomes a quad
    unless a coordinate is not finite, the points coincide (squared
    distance below 1e-12), or the step is a jump longer than two view
    heights. */
module Parametric2D {
  import opened Geometry
  import opened Ribbon

  const SamplesPerUnitT: real := 20.0
  const JumpThresholdFactor: real := 2.0
  const MinDistanceSquared: real := 0.000000000001

  /** total_samples = max(floor(t_len * 20), 200). */
  function ParametricSamples(tLen: real): (n: nat)
    requires tLen > 0.0
    ensures n >= 200
    ensures n >= Floor(tLen * SamplesPerUnitT)
    ensures n == 200 || n as real <= tLen * SamplesPerUnitT < n as real + 1.0
  {
    var fl := Floor(tLen * SamplesPerUnitT);
    assert fl >= 0;
    MaxNat(fl, 200)
  }

  /** The sampled path: point i is f(t_min + i * step). */
  function ParametricPath(f: real -> (Sample, Sample), tMin: real, step: real, total: nat): (path: seq<(Sample, Sample)>)
    ensures |path| == total + 1
    ensures forall i :: 0 <= i <= total ==> path[i] == f(Tick(tMin, step, i))
  {
    seq(total + 1, i requires 0 <= i <= total => f(Tick(tMin, step, i)))
  }

  /** max_jump_dist_sq = ((2 / zoom) * 2)^2. */
  function MaxJumpSquared(zoom: real): real
    requires zoom != 0.0
  {
    ((2.0 / zoom) * JumpThresholdFactor) * ((2.0 / zoom) * JumpThresholdFactor)
  }

  /** All four coordinates of a pair are finite. */
  predicate AllFinite(p0: (Sample, Sample), p1: (Sample, Sample)) {
    p0.0.Finite? && p0.1.Finite? && p1.0.Finite? && p1.1.Finite?
  }

  /** A finite pair as the two path points. */
  function PairPoints(p0: (Sample, Sample), p1: (Sample, Sample)): (Vertex2D, Vertex2D)
    requires AllFinite(p0, p1)
  {
    (Vertex2D(p0.0.v, p0.1.v), Vertex2D(p1.0.v, p1.1.v))
  }

  /** The squared distance between the points of a finite pair. */
  function PairDistanceSquared(p0: (Sample, Sample), p1: (Sample, Sample)): real
    requires AllFinite(p0, p1)
  {
    var (a, b) := PairPoints(p0, p1);
    SquaredLength(b.x - a.x, b.y - a.y)
  }

  /** The ribbon loop keeps a pair: all coordinates finite, and the
      squared distance within [1e-12, max_jump_dist_sq]. */
  predicate ParametricKept(p0: (Sample, Sample), p1: (Sample, Sample), maxSq: real) {
    AllFinite(p0, p1) && MinDistanceSquared <= PairDistanceSquared(p0, p1) <= maxSq
  }

  /** What one pass of the ribbon loop pushes for the pair p0, p1. */
  function ParametricPair(p0: (Sample, Sample), p1: (Sample, Sample), hw: real, maxSq: real, m: Libm): seq<Vertex2D>
    requires SqrtPositive(m)
  {
    if !AllFinite(p0, p1) then []
    else
      var (a, b) := PairPoints(p0, p1);
      var distSq := PairDistanceSquared(p0, p1);
      if distSq < MinDistanceSquared then []
      else if distSq > maxSq then []
      else
        var len := m.sqrt(distSq);
        PairQuad(a, b, UnitNormal(b.x - a.x, b.y - a.y, len), hw)
  }

  /** The three skip rules, and the quad of a kept pair, whose two copies
      of each end point differ perpendicularly to the segment. */
  lemma ParametricPairRule(p0: (Sample, Sample), p1: (Sample, Sample), hw: real, maxSq: real, m: Libm)
    requires SqrtPositive(m)
    ensures !AllFinite(p0, p1) ==> ParametricPair(p0, p1, hw, maxSq, m) == []
    ensures AllFinite(p0, p1) && PairDistanceSquared(p0, p1) < MinDistanceSquared ==> ParametricPair(p0, p1, hw, maxSq, m) == []
    ensures AllFinite(p0, p1) && PairDistanceSquared(p0, p1) > maxSq ==> ParametricPair(p0, p1, hw, maxSq, m) == []
    ensures |ParametricPair(p0, p1, hw, maxSq, m)| == (if ParametricKept(p0, p1, maxSq) then 6 else 0)
    ensures ParametricKept(p0, p1, maxSq) ==>
      var (a, b) := PairPoints(p0, p1);
      var len := m.sqrt(PairDistanceSquared(p0, p1));
      var r := ParametricPair(p0, p1, hw, maxSq, m);
      len > 0.0 && r == PairQuad(a, b, UnitNormal(b.x - a.x, b.y - a.y, len), hw) &&
      (r[0].x - r[2].x) * (b.x - a.x) + (r[0].y - r[2].y) * (b.y - a.y) == 0.0
  {
    if ParametricKept(p0, p1, maxSq) {
      var (a, b) := PairPoints(p0, p1);
      var len := m.sqrt(PairDistanceSquared(p0, p1));
      PairQuadPerpendicular(a, b, len, hw);
    }
  }

  /** With an exact square root, a kept pair's quad is 2 * |hw| wide. */
  lemma ParametricPairWidth(p0: (Sample, Sample), p1: (Sample, Sample), hw: real, maxSq: real, m: Libm)
    requires SqrtPositive(m) && SqrtExact(m) && ParametricKept(p0, p1, maxSq)
    ensures var r := ParametricPair(p0, p1, hw, maxSq, m);
      |r| == 6 && SquaredLength(r[0].x - r[2].x, r[0].y - r[2].y) == (2.0 * hw) * (2.0 * hw)
  {
    var (a, b) := PairPoints(p0, p1);
    var len := m.sqrt(PairDistanceSquared(p0, p1));
    ParametricPairRule(p0, p1, hw, maxSq, m);
    PairQuadWidth(a, b, len, hw);
  }

  /** One pass of the ribbon loop: the three `continue`s, then the quad. */
  method ParametricPairStep(p0: (Sample, Sample), p1: (Sample, Sample), hw: real, maxSq: real, m: Libm)
    returns (quad: seq<Vertex2D>)
    requires SqrtPositive(m)
    ensures quad == ParametricPair(p0, p1, hw, maxSq, m)
  {
    if !p0.0.Finite? || !p0.1.Finite? || !p1.0.Finite? || !p1.1.Finite? {
      return [];
    }
    var dx := p1.0.v - p0.0.v;
    var dy := p1.1.v - p0.1.v;
    var distSq := SquaredLength(dx, dy);
    ghost var a := Vertex2D(p0.0.v, p0.1.v);
    ghost var b := Vertex2D(p1.0.v, p1.1.v);
    assert (a, b) == PairPoints(p0, p1);
    assert distSq == PairDistanceSquared(p0, p1);
    if distSq < MinDistanceSquared {
      return [];
    }
    if distSq > maxSq {
      return [];
    }
    var len := m.sqrt(distSq);
    var normal := UnitNormal(dx, dy, len);
    assert normal == UnitNormal(b.x - a.x, b.y - a.y, len);
    quad := Quad(Vertex2D(p0.0.v, p0.1.v), Vertex2D(p1.0.v, p1.1.v), Offset(normal, hw));
  }

  /** The loop's pairs: pair i is path[i], path[i + 1]. */
  function ParametricPairs(path: seq<(Sample, Sample)>, hw: real, maxSq: real, m: Libm): nat -> seq<Vertex2D>
    requires SqrtPositive(m)
  {
    (i: nat) => if i + 1 < |path| then ParametricPair(path[i], path[i + 1], hw, maxSq, m) else []
  }

  /** The ribbon loop of ParametricSolver::solve. */
  method ParametricRibbon(path: seq<(Sample, Sample)>, hw: real, maxSq: real, m: Libm) returns (vertices: seq<Vertex2D>)
    requires SqrtPositive(m)
    ensures vertices == Strip(ParametricPairs(path, hw, maxSq, m), PairCount(|path|))
  {
    ghost var seg := ParametricPairs(path, hw, maxSq, m);
    vertices := [];
    for i := 0 to PairCount(|path|)
      invariant vertices == Strip(seg, i)
    {
      var quad := ParametricPairStep(path[i], path[i + 1], hw, maxSq, m);
      assert seg(i) == quad;
      vertices := vertices + quad;
    }
  }

  /** The vertices ParametricSolver::solve returns. */
  function ParametricCurve(f: real -> (Sample, Sample), tMin: real, tMax: real, widthPx: real, zoom: real,
                           screenH: real, m: Libm): seq<Vertex2D>
    requires zoom != 0.0 && screenH != 0.0 && SqrtPositive(m)
  {
    if tMax - tMin <= 0.0 then []
    else
      var total := ParametricSamples(tMax - tMin);
      var path := ParametricPath(f, tMin, Step(tMin, tMax, total), total);
      Strip(ParametricPairs(path, HalfWidth(widthPx, zoom, screenH), MaxJumpSquared(zoom), m), PairCount(|path|))
  }

  /** ParametricSolver::solve. */
  method ParametricSolve(f: real -> (Sample, Sample), tMin: real, tMax: real, widthPx: real, zoom: real,
                         screenH: real, m: Libm)
    returns (vertices: seq<Vertex2D>)
    requires zoom != 0.0 && screenH != 0.0 && SqrtPositive(m)
    ensures vertices == ParametricCurve(f, tMin, tMax, widthPx, zoom, screenH, m)
  {
    var tLen := tMax - tMin;
    if tLen <= 0.0 {
      return [];
    }
    var total := ParametricSamples(tLen);
    var stepT := Step(tMin, tMax, total);
    var path := ParametricPath(f, tMin, stepT, total);
    var hw := HalfWidth(widthPx, zoom, screenH);
    var maxSq := MaxJumpSquared(zoom);
    vertices := ParametricRibbon(path, hw, maxSq, m);
  }

  /** The parameters run from t_min to t_max in total_samples equal steps. */
  lemma ParametricPathEnds(f: real -> (Sample, Sample), tMin: real, tMax: real)
    requires tMax - tMin > 0.0
    ensures var total := ParametricSamples(tMax - tMin);
      var step := Step(tMin, tMax, total);
      Tick(tMin, step, 0) == tMin && Tick(tMin, step, total) == tMax &&
      ParametricPath(f, tMin, step, total)[total] == f(tMax)
  {
    var total := ParametricSamples(tMax - tMin);
    var step := Step(tMin, tMax, total);
    assert step * (total as real) == tMax - tMin;
    assert Tick(tMin, step, total) == tMin + step * (total as real);
  }

  /** An empty t range gives no vertices; otherwise every kept pair gives
      six, so the output is a whole number of quads, at most six vertices
      per sample step. */
  lemma ParametricCurveCounts(f: real -> (Sample, Sample), tMin: real, tMax: real, widthPx: real, zoom: real,
                              screenH: real, m: Libm)
    requires zoom != 0.0 && screenH != 0.0 && SqrtPositive(m)
    ensures tMax - tMin <= 0.0 ==> ParametricCurve(f, tMin, tMax, widthPx, zoom, screenH, m) == []
    ensures WholeQuads(|ParametricCurve(f, tMin, tMax, widthPx, zoom, screenH, m)|)
    ensures tMax - tMin > 0.0 ==>
      |ParametricCurve(f, tMin, tMax, widthPx, zoom, screenH, m)| <= 6 * ParametricSamples(tMax - tMin)
  {
    if tMax - tMin > 0.0 {
      var total := ParametricSamples(tMax - tMin);
      var path := ParametricPath(f, tMin, Step(tMin, tMax, total), total);
      var hw := HalfWidth(widthPx, zoom, screenH);
      var maxSq := MaxJumpSquared(zoom);
      var seg := ParametricPairs(path, hw, maxSq, m);
      var keep := (i: nat) => i + 1 < |path| && ParametricKept(path[i], path[i + 1], maxSq);
      forall i: nat | i < PairCount(|path|) ensures |seg(i)| == (if keep(i) then 6 else 0) {
        ParametricPairRule(path[i], path[i + 1], hw, maxSq, m);
      }
      StripCount(seg, keep, PairCount(|path|));
      SixWhole(KeptCount(keep, PairCount(|path|)));
    } else {
      SixWhole(0);
    }
  }
}
