/** Shared vector arithmetic and floating-point stand-ins used by the
    tessellators, the camera and the expression values.

    f64 values are modelled as `real`. The floating-point library calls
    that have no exact real counterpart (square root, sine, cosine,
    tangent, normalisation) are passed in as a `Libm` record, so that every
    solver is stated for whatever those functions return. */
module Geometry {

  /** A three-component vector (math_forest's Vec3). */
  datatype Vec3 = Vec3(x: real, y: real, z: real)

  const Zero: Vec3 := Vec3(0.0, 0.0, 0.0)
  /** The y axis, Vec3::J. */
  const J: Vec3 := Vec3(0.0, 1.0, 0.0)
  /** The z axis, Vec3::K. */
  const K: Vec3 := Vec3(0.0, 0.0, 1.0)

  function Add(a: Vec3, b: Vec3): Vec3 {
    Vec3(a.x + b.x, a.y + b.y, a.z + b.z)
  }

  function Sub(a: Vec3, b: Vec3): Vec3 {
    Vec3(a.x - b.x, a.y - b.y, a.z - b.z)
  }

  function Scale(a: Vec3, s: real): Vec3 {
    Vec3(a.x * s, a.y * s, a.z * s)
  }

  function Dot(a: Vec3, b: Vec3): real {
    a.x * b.x + a.y * b.y + a.z * b.z
  }

  function Cross(a: Vec3, b: Vec3): (c: Vec3)
    ensures Dot(c, a) == 0.0 && Dot(c, b) == 0.0
  {
    Vec3(a.y * b.z - a.z * b.y, a.z * b.x - a.x * b.z, a.x * b.y - a.y * b.x)
  }

  function Abs(r: real): (a: real)
    ensures a >= 0.0 && (a == r || a == -r)
  {
    if r < 0.0 then -r else r
  }

  /** f64::clamp with lo <= hi. */
  function Clamp(v: real, lo: real, hi: real): (r: real)
    requires lo <= hi
    ensures lo <= r <= hi
    ensures lo <= v <= hi ==> r == v
    ensures v < lo ==> r == lo
    ensures v > hi ==> r == hi
  {
    if v < lo then lo else if v > hi then hi else v
  }

  /** usize::clamp, for sample counts; Clamp above is the f64 one. */
  function ClampInt(v: int, lo: int, hi: int): (r: int)
    requires lo <= hi
    ensures lo <= r <= hi
    ensures lo <= v <= hi ==> r == v
    ensures v < lo ==> r == lo
    ensures v > hi ==> r == hi
  {
    if v < lo then lo else if v > hi then hi else v
  }

  /** The step (hi - lo) / n of an n-segment subdivision. With n == 0 the
      source divides by zero; the model uses 0 there, which only matters
      for the single sample such a grid takes. */
  function Step(lo: real, hi: real, n: nat): (r: real)
    ensures n > 0 ==> r * (n as real) == hi - lo
  {
    if n == 0 then 0.0 else (hi - lo) / (n as real)
  }

  /** f64::ceil, exact over the reals. */
  function Ceil(r: real): (n: int)
    ensures r <= n as real < r + 1.0
  {
    if r.Floor as real == r then r.Floor else r.Floor + 1
  }

  /** f64::floor, exact over the reals. */
  function Floor(r: real): (n: int)
    ensures n as real <= r < n as real + 1.0
  {
    r.Floor
  }

  /** The larger of two counts (usize::max). */
  function MaxNat(a: nat, b: nat): (r: nat)
    ensures r >= a && r >= b && (r == a || r == b)
  {
    if a >= b then a else b
  }

  /** The i-th point lo + i * step of a uniform subdivision. */
  function Tick(lo: real, step: real, i: nat): real {
    lo + (i as real) * step
  }

  /** The floating-point library functions the code calls, together with
      Vec3::unit (the vector divided by its length when that exceeds 1e-10,
      the zero vector otherwise), whose square root and division have no
      exact counterpart over the reals. */
  datatype Libm = Libm(sqrt: real -> real, sin: real -> real, cos: real -> real, tan: real -> real,
                       unit: Vec3 -> Vec3)

  /** The square root is exact: non-negative, and squaring it gives back
      its (non-negative) argument. */
  ghost predicate SqrtExact(m: Libm) {
    forall r: real :: r >= 0.0 ==> m.sqrt(r) >= 0.0 && m.sqrt(r) * m.sqrt(r) == r
  }

  /** f64::sqrt of a positive number is positive. */
  ghost predicate SqrtPositive(m: Libm) {
    forall r: real :: r > 0.0 ==> m.sqrt(r) > 0.0
  }

  /** Vec3::unit returns a multiple of its argument (1 / length, or 0), so
      it keeps any orthogonality its argument has. */
  ghost predicate UnitKeepsOrthogonal(m: Libm) {
    forall v: Vec3, w: Vec3 :: Dot(v, w) == 0.0 ==> Dot(m.unit(v), w) == 0.0
  }

  lemma DotComm(a: Vec3, b: Vec3)
    ensures Dot(a, b) == Dot(b, a)
  {
  }

  /** A 2D vertex (graph::d2::common::Vertex); the f32 cast is not modelled. */
  datatype Vertex2D = Vertex2D(x: real, y: real)
}
