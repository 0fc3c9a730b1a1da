/** ExplicitSolver::solve: the graph of y = f(x) as a ribbon of quads.
    The x range is sampled at max(100, ceil(screen_w)) + 1 evenly spaced
    points; each pair of consecutive samples becomes a quad unless a value
    is not finite, the step in y is a jump past ten screen heights, or the
    segment is shorter than 1e-9. */
module Explicit2D {
  import opened Geometry
  import opened Ribbon

  const SamplingDensity: real := 1.0
  const AsymptoteThresholdFactor: real := 10.0
  const MinSegment: real := 0.000000001

  /** total_samples = max(ceil(screen_w * density), 100). */
  function ExplicitSamples(screenW: nat): (n: nat)
    ensures n >= 100 && n >= screenW
    ensures n == 100 || n == screenW
  {
    var c := Ceil(screenW as real * SamplingDensity);
    assert c == screenW;
    MaxNat(c, 100)
  }

  /** The sampled path: point i at x_min + i * step, with f's value there. */
  function ExplicitPath(f: real -> Sample, xMin: real, step: real, total: nat): (path: seq<(real, Sample)>)
    ensures |path| == total + 1
    ensures forall i :: 0 <= i <= total ==> path[i].0 == Tick(xMin, step, i) && path[i].1 == f(path[i].0)
  {
    seq(total + 1, i requires 0 <= i <= total => (Tick(xMin, step, i), f(Tick(xMin, step, i))))
  }

  /** The jump past which a pair is taken for an asymptote: ten view heights. */
  function JumpThreshold(zoom: real): real
    requires zoom != 0.0
  {
    (2.0 / zoom) * AsymptoteThresholdFactor
  }

  /** A sample pair as the two path points p0, p1. */
  function PairPoints(p0: (real, Sample), p1: (real, Sample)): (Vertex2D, Vertex2D)
    requires p0.1.Finite? && p1.1.Finite?
  {
    (Vertex2D(p0.0, p0.1.v), Vertex2D(p1.0, p1.1.v))
  }

  /** The length of the segment a -> b, by the supplied square root. */
  function SegmentLength(a: Vertex2D, b: Vertex2D, m: Libm): real {
    m.sqrt(SquaredLength(b.x - a.x, b.y - a.y))
  }

  /** The ribbon loop keeps a pair: both values finite, |dy| within the
      threshold, and the segment no shorter than 1e-9. */
  predicate ExplicitKept(p0: (real, Sample), p1: (real, Sample), thr: real, m: Libm) {
    p0.1.Finite? && p1.1.Finite? && Abs(p1.1.v - p0.1.v) <= thr &&
    SegmentLength(PairPoints(p0, p1).0, PairPoints(p0, p1).1, m) >= MinSegment
  }

  /** What one pass of the ribbon loop pushes for the pair p0, p1. */
  function ExplicitPair(p0: (real, Sample), p1: (real, Sample), hw: real, thr: real, m: Libm): seq<Vertex2D> {
    if !p0.1.Finite? || !p1.1.Finite? then []
    else if Abs(p1.1.v - p0.1.v) > thr then []
    else
      var (a, b) := PairPoints(p0, p1);
      var len := SegmentLength(a, b, m);
      if len < MinSegment then []
      else PairQuad(a, b, UnitNormal(b.x - a.x, b.y - a.y, len), hw)
  }

  /** The three skip rules, and the quad of a kept pair: its offset is
      half the width along the unit normal of the segment, perpendicular
      to the segment. */
  lemma ExplicitPairRule(p0: (real, Sample), p1: (real, Sample), hw: real, thr: real, m: Libm)
    ensures !p0.1.Finite? || !p1.1.Finite? ==> ExplicitPair(p0, p1, hw, thr, m) == []
    ensures p0.1.Finite? && p1.1.Finite? && Abs(p1.1.v - p0.1.v) > thr ==> ExplicitPair(p0, p1, hw, thr, m) == []
    ensures p0.1.Finite? && p1.1.Finite? &&
            SegmentLength(PairPoints(p0, p1).0, PairPoints(p0, p1).1, m) < MinSegment ==>
            ExplicitPair(p0, p1, hw, thr, m) == []
    ensures |ExplicitPair(p0, p1, hw, thr, m)| == (if ExplicitKept(p0, p1, thr, m) then 6 else 0)
    ensures ExplicitKept(p0, p1, thr, m) ==>
      var (a, b) := PairPoints(p0, p1);
      var len := SegmentLength(a, b, m);
      var r := ExplicitPair(p0, p1, hw, thr, m);
      len > 0.0 && r == PairQuad(a, b, UnitNormal(b.x - a.x, b.y - a.y, len), hw) &&
      (r[0].x - r[2].x) * (b.x - a.x) + (r[0].y - r[2].y) * (b.y - a.y) == 0.0
  {
    if ExplicitKept(p0, p1, thr, m) {
      var (a, b) := PairPoints(p0, p1);
      var len := SegmentLength(a, b, m);
      PairQuadPerpendicular(a, b, len, hw);
    }
  }

  /** With an exact square root, a kept pair's quad is 2 * |hw| wide:
      width_px pixels. */
  lemma ExplicitPairWidth(p0: (real, Sample), p1: (real, Sample), hw: real, thr: real, m: Libm)
    requires SqrtExact(m) && ExplicitKept(p0, p1, thr, m)
    ensures var r := ExplicitPair(p0, p1, hw, thr, m);
      |r| == 6 && SquaredLength(r[0].x - r[2].x, r[0].y - r[2].y) == (2.0 * hw) * (2.0 * hw)
  {
    var (a, b) := PairPoints(p0, p1);
    var len := SegmentLength(a, b, m);
    assert SquaredLength(b.x - a.x, b.y - a.y) >= 0.0;
    ExplicitPairRule(p0, p1, hw, thr, m);
    PairQuadWidth(a, b, len, hw);
  }

  /** The loop's pairs: pair i is path[i], path[i + 1]. */
  function ExplicitPairs(path: seq<(real, Sample)>, hw: real, thr: real, m: Libm): nat -> seq<Vertex2D> {
    (i: nat) => if i + 1 < |path| then ExplicitPair(path[i], path[i + 1], hw, thr, m) else []
  }

  /** One pass of the ribbon loop: the three `continue`s, then the quad. */
  method ExplicitPairStep(p0: (real, Sample), p1: (real, Sample), hw: real, thr: real, m: Libm)
    returns (quad: seq<Vertex2D>)
    ensures quad == ExplicitPair(p0, p1, hw, thr, m)
  {
    if !p0.1.Finite? || !p1.1.Finite? {
      return [];
    }
    var dy := Abs(p1.1.v - p0.1.v);
    if dy > thr {
      return [];
    }
    var dx := p1.0 - p0.0;
    var dySigned := p1.1.v - p0.1.v;
    var len := m.sqrt(SquaredLength(dx, dySigned));
    ghost var a := Vertex2D(p0.0, p0.1.v);
    ghost var b := Vertex2D(p1.0, p1.1.v);
    assert (a, b) == PairPoints(p0, p1);
    assert len == SegmentLength(a, b, m);
    if len < MinSegment {
      return [];
    }
    var normal := UnitNormal(dx, dySigned, len);
    assert normal == UnitNormal(b.x - a.x, b.y - a.y, len);
    quad := Quad(Vertex2D(p0.0, p0.1.v), Vertex2D(p1.0, p1.1.v), Offset(normal, hw));
  }

  /** The ribbon loop of ExplicitSolver::solve. */
  method ExplicitRibbon(path: seq<(real, Sample)>, hw: real, thr: real, m: Libm) returns (vertices: seq<Vertex2D>)
    ensures vertices == Strip(ExplicitPairs(path, hw, thr, m), PairCount(|path|))
  {
    ghost var seg := ExplicitPairs(path, hw, thr, m);
    vertices := [];
    for i := 0 to PairCount(|path|)
      invariant vertices == Strip(seg, i)
    {
      var quad := ExplicitPairStep(path[i], path[i + 1], hw, thr, m);
      assert seg(i) == quad;
      vertices := vertices + quad;
    }
  }

  /** The vertices ExplicitSolver::solve returns. */
  function ExplicitCurve(f: real -> Sample, xMin: real, xMax: real, widthPx: real, zoom: real,
                         screenW: nat, screenH: real, m: Libm): seq<Vertex2D>
    requires zoom != 0.0 && screenH != 0.0
  {
    if xMax - xMin <= 0.0 || screenW == 0 then []
    else
      var total := ExplicitSamples(screenW);
      var path := ExplicitPath(f, xMin, Step(xMin, xMax, total), total);
      Strip(ExplicitPairs(path, HalfWidth(widthPx, zoom, screenH), JumpThreshold(zoom), m), PairCount(|path|))
  }

  /** ExplicitSolver::solve. */
  method ExplicitSolve(f: real -> Sample, xMin: real, xMax: real, widthPx: real, zoom: real,
                       screenW: nat, screenH: real, m: Libm)
    returns (vertices: seq<Vertex2D>)
    requires zoom != 0.0 && screenH != 0.0
    ensures vertices == ExplicitCurve(f, xMin, xMax, widthPx, zoom, screenW, screenH, m)
  {
    var xLen := xMax - xMin;
    if xLen <= 0.0 || screenW == 0 {
      return [];
    }
    var total := ExplicitSamples(screenW);
    var stepX := Step(xMin, xMax, total);
    var path := ExplicitPath(f, xMin, stepX, total);
    var hw := HalfWidth(widthPx, zoom, screenH);
    var thr := JumpThreshold(zoom);
    vertices := ExplicitRibbon(path, hw, thr, m);
  }

  /** The path runs from x_min to x_max in total_samples equal steps. */
  lemma ExplicitPathEnds(f: real -> Sample, xMin: real, xMax: real, screenW: nat)
    ensures var total := ExplicitSamples(screenW);
      var path := ExplicitPath(f, xMin, Step(xMin, xMax, total), total);
      |path| == total + 1 && path[0].0 == xMin && path[total].0 == xMax
  {
    var total := ExplicitSamples(screenW);
    var step := Step(xMin, xMax, total);
    assert step * (total as real) == xMax - xMin;
    assert Tick(xMin, step, total) == xMin + step * (total as real);
  }

  /** An empty x range or a zero-width screen gives no vertices; otherwise
      every kept pair gives six, so the output is a whole number of quads,
      at most six vertices per sample step. */
  lemma ExplicitCurveCounts(f: real -> Sample, xMin: real, xMax: real, widthPx: real, zoom: real,
                            screenW: nat, screenH: real, m: Libm)
    requires zoom != 0.0 && screenH != 0.0
    ensures xMax - xMin <= 0.0 || screenW == 0 ==> ExplicitCurve(f, xMin, xMax, widthPx, zoom, screenW, screenH, m) == []
    ensures WholeQuads(|ExplicitCurve(f, xMin, xMax, widthPx, zoom, screenW, screenH, m)|)
    ensures |ExplicitCurve(f, xMin, xMax, widthPx, zoom, screenW, screenH, m)| <= 6 * ExplicitSamples(screenW)
  {
    if !(xMax - xMin <= 0.0 || screenW == 0) {
      var total := ExplicitSamples(screenW);
      var path := ExplicitPath(f, xMin, Step(xMin, xMax, total), total);
      var hw := HalfWidth(widthPx, zoom, screenH);
      var thr := JumpThreshold(zoom);
      var seg := ExplicitPairs(path, hw, thr, m);
      var keep := (i: nat) => i + 1 < |path| && ExplicitKept(path[i], path[i + 1], thr, m);
      forall i: nat | i < PairCount(|path|) ensures |seg(i)| == (if keep(i) then 6 else 0) {
        ExplicitPairRule(path[i], path[i + 1], hw, thr, m);
      }
      StripCount(seg, keep, PairCount(|path|));
      SixWhole(KeptCount(keep, PairCount(|path|)));
    }
  }
}
