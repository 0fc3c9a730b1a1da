/** The line-ribbon emission shared by the explicit and the parametric 2D
    solvers: a polyline is drawn pair by pair, each kept pair of
    consecutive path points becoming a quad of two triangles, six
    vertices, offset by half the line width along the segment's normal. */
module Ribbon {
  import opened Geometry

  /** An f64 that is either finite, with its value, or NaN / infinite. */
  datatype Sample = Finite(v: real) | NonFinite

  /** The quad of one segment p0 -> p1, pushed as p0_l, p1_l, p0_r, p0_r,
      p1_l, p1_r, where _l and _r are the point moved by +off and -off. */
  function Quad(p0: Vertex2D, p1: Vertex2D, off: Vertex2D): (r: seq<Vertex2D>)
    ensures |r| == 6
  {
    var p0l := Vertex2D(p0.x + off.x, p0.y + off.y);
    var p0r := Vertex2D(p0.x - off.x, p0.y - off.y);
    var p1l := Vertex2D(p1.x + off.x, p1.y + off.y);
    var p1r := Vertex2D(p1.x - off.x, p1.y - off.y);
    [p0l, p1l, p0r, p0r, p1l, p1r]
  }

  /** The two triangles of a quad share the diagonal p1_l - p0_r, and the
      left and right copies of each end point are symmetric about it. */
  lemma QuadShape(p0: Vertex2D, p1: Vertex2D, off: Vertex2D)
    ensures var r := Quad(p0, p1, off);
      r[3] == r[2] && r[4] == r[1] &&
      (r[0].x + r[2].x) / 2.0 == p0.x && (r[0].y + r[2].y) / 2.0 == p0.y &&
      (r[1].x + r[5].x) / 2.0 == p1.x && (r[1].y + r[5].y) / 2.0 == p1.y &&
      r[0].x - r[2].x == 2.0 * off.x && r[0].y - r[2].y == 2.0 * off.y &&
      r[1].x - r[0].x == p1.x - p0.x && r[1].y - r[0].y == p1.y - p0.y
  {
  }

  /** The normal (-dy, dx) / len is perpendicular to the segment (dx, dy),
      and has length 1 when len is the segment's length. */
  lemma NormalPerpendicular(dx: real, dy: real, len: real)
    requires len != 0.0
    ensures (-dy / len) * dx + (dx / len) * dy == 0.0
    ensures len * len == dx * dx + dy * dy ==> (-dy / len) * (-dy / len) + (dx / len) * (dx / len) == 1.0
  {
    var nx := -dy / len;
    var ny := dx / len;
    assert nx * len == -dy;
    assert ny * len == dx;
    calc {
      nx * dx + ny * dy;
      nx * (ny * len) + ny * (-(nx * len));
      0.0;
    }
    if len * len == dx * dx + dy * dy {
      calc {
        (nx * nx + ny * ny) * (len * len);
        (nx * len) * (nx * len) + (ny * len) * (ny * len);
        dy * dy + dx * dx;
        1.0 * (len * len);
      }
      assert len * len != 0.0;
    }
  }

  /** Half the line width in world units: width_px / 2 pixels of (2 / zoom) / screen_h each. */
  function HalfWidth(widthPx: real, zoom: real, screenH: real): real
    requires zoom != 0.0 && screenH != 0.0
  {
    (widthPx * 0.5) * ((2.0 / zoom) / screenH)
  }

  /** dx * dx + dy * dy. */
  function SquaredLength(dx: real, dy: real): real {
    dx * dx + dy * dy
  }

  /** The normal (-dy / len, dx / len) of the segment (dx, dy). */
  function UnitNormal(dx: real, dy: real, len: real): (real, real)
    requires len != 0.0
  {
    (-dy / len, dx / len)
  }

  /** The quad of the segment a -> b of length len: offset by hw along
      the normal (-dy, dx) / len. */
  function PairQuad(a: Vertex2D, b: Vertex2D, n: (real, real), hw: real): seq<Vertex2D> {
    Quad(a, b, Offset(n, hw))
  }

  /** The offset (nx * hw, ny * hw) of the left copy of each end point. */
  function Offset(n: (real, real), hw: real): Vertex2D {
    Vertex2D(n.0 * hw, n.1 * hw)
  }

  /** Scaling both components of a vector scales its dot product. */
  lemma ScaledDot(u: real, v: real, dx: real, dy: real, k: real)
    ensures (k * u) * dx + (k * v) * dy == k * (u * dx + v * dy)
  {
  }

  /** The two copies of an end point differ by a vector perpendicular to
      the segment. */
  lemma PairQuadPerpendicular(a: Vertex2D, b: Vertex2D, len: real, hw: real)
    requires len != 0.0
    ensures var r := PairQuad(a, b, UnitNormal(b.x - a.x, b.y - a.y, len), hw);
      (r[0].x - r[2].x) * (b.x - a.x) + (r[0].y - r[2].y) * (b.y - a.y) == 0.0
  {
    var dx := b.x - a.x;
    var dy := b.y - a.y;
    var n := UnitNormal(dx, dy, len);
    var off := Offset(n, hw);
    QuadShape(a, b, off);
    NormalPerpendicular(dx, dy, len);
    assert n.0 * dx + n.1 * dy == 0.0;
    assert 2.0 * off.x == (2.0 * hw) * n.0 && 2.0 * off.y == (2.0 * hw) * n.1;
    ScaledDot(n.0, n.1, dx, dy, 2.0 * hw);
  }

  /** With len the segment's exact length, the two copies of an end point
      lie 2 * |hw| apart: the ribbon is as wide as the line. */
  lemma PairQuadWidth(a: Vertex2D, b: Vertex2D, len: real, hw: real)
    requires len != 0.0 && len * len == SquaredLength(b.x - a.x, b.y - a.y)
    ensures var r := PairQuad(a, b, UnitNormal(b.x - a.x, b.y - a.y, len), hw);
      SquaredLength(r[0].x - r[2].x, r[0].y - r[2].y) == (2.0 * hw) * (2.0 * hw)
  {
    var dx := b.x - a.x;
    var dy := b.y - a.y;
    var n := UnitNormal(dx, dy, len);
    var off := Offset(n, hw);
    QuadShape(a, b, off);
    NormalPerpendicular(dx, dy, len);
    assert n.0 * n.0 + n.1 * n.1 == 1.0;
    calc {
      SquaredLength(2.0 * off.x, 2.0 * off.y);
      (2.0 * hw) * (2.0 * hw) * (n.0 * n.0 + n.1 * n.1);
      (2.0 * hw) * (2.0 * hw);
    }
  }

  /** `path.len().saturating_sub(1)`: the number of consecutive pairs. */
  function PairCount(n: nat): (c: nat)
    ensures n > 0 ==> c + 1 == n
    ensures n == 0 ==> c == 0
  {
    if n == 0 then 0 else n - 1
  }

  /** The vertices the pair loop pushes for pairs 0 .. n - 1, in order. */
  function Strip(seg: nat -> seq<Vertex2D>, n: nat): seq<Vertex2D> {
    if n == 0 then [] else Strip(seg, n - 1) + seg(n - 1)
  }

  /** A vertex count that is a whole number of quads. */
  predicate WholeQuads(n: nat) {
    n % 6 == 0
  }

  lemma SixWhole(k: nat)
    ensures WholeQuads(6 * k)
  {
  }

  /** How many of pairs 0 .. n - 1 are kept. */
  function KeptCount(keep: nat -> bool, n: nat): (c: nat)
    ensures c <= n
  {
    if n == 0 then 0 else KeptCount(keep, n - 1) + (if keep(n - 1) then 1 else 0)
  }

  /** A pair that is kept pushes six vertices and one that is skipped none:
      the strip holds six vertices per kept pair, at most six per pair. */
  lemma {:induction false} StripCount(seg: nat -> seq<Vertex2D>, keep: nat -> bool, n: nat)
    requires forall i: nat :: i < n ==> |seg(i)| == (if keep(i) then 6 else 0)
    ensures |Strip(seg, n)| == 6 * KeptCount(keep, n)
    ensures |Strip(seg, n)| <= 6 * n
  {
    if n > 0 {
      StripCount(seg, keep, n - 1);
    }
  }

  /** The vertices of pair i follow those of pairs 0 .. i - 1. */
  lemma {:induction false} StripAt(seg: nat -> seq<Vertex2D>, n: nat, i: nat, k: nat)
    requires i < n && k < |seg(i)|
    ensures |Strip(seg, i)| + k < |Strip(seg, n)|
    ensures Strip(seg, n)[|Strip(seg, i)| + k] == seg(i)[k]
    decreases n
  {
    if i + 1 < n {
      StripAt(seg, n - 1, i, k);
      assert Strip(seg, n) == Strip(seg, n - 1) + seg(n - 1);
    } else {
      assert Strip(seg, n) == Strip(seg, i) + seg(i);
    }
  }
}
