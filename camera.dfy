/** The orbit camera of the 3D view: a target point, and the eye on a
    sphere of `radius` around it at azimuth `yaw` and elevation `pitch`.
    Dragging with the left button orbits, dragging with the middle button
    pans the target in the view plane, scrolling dollies in and out. The
    pitch stays within +-1.55 rad and the radius within [0.1, 1000]. */
module OrbitCamera {
  import opened Geometry

  /** std::f64::consts::PI, the exact value of the nearest double to pi. */
  const Pi: real := 3.141592653589793115997963468544185161590576171875

  const DragSensitivity: real := 0.005
  const PanSensitivity: real := 0.0015
  const PitchLimit: real := 1.55
  const MinRadius: real := 0.1
  const MaxRadius: real := 1000.0
  const LineScrollScale: real := 1.0
  const PixelScrollScale: real := 0.01

  /** f64::to_radians: deg * (PI / 180). */
  function ToRadians(deg: real): real {
    deg * (Pi / 180.0)
  }

  /** winit's MouseButton. */
  datatype MouseButton = Left | Right | Middle | Back | Forward | Other(id: nat)

  /** winit's MouseScrollDelta: lines (f32) or pixels (f64). */
  datatype ScrollDelta = LineDelta(lx: real, ly: real) | PixelDelta(px: real, py: real)

  /** The eye's offset from the target: radius * (cos p cos y, cos p sin y, sin p). */
  function OrbitOffset(yaw: real, pitch: real, radius: real, m: Libm): Vec3 {
    var sinP := m.sin(pitch);
    var cosP := m.cos(pitch);
    var sinY := m.sin(yaw);
    var cosY := m.cos(yaw);
    Vec3(radius * cosP * cosY, radius * cosP * sinY, radius * sinP)
  }

  /** get_eye_position: the target plus the orbit offset. */
  function EyeAt(target: Vec3, yaw: real, pitch: real, radius: real, m: Libm): Vec3 {
    Add(target, OrbitOffset(yaw, pitch, radius, m))
  }

  /** sin^2 + cos^2 == 1 at every angle. */
  ghost predicate Pythagorean(m: Libm) {
    forall a: real :: m.sin(a) * m.sin(a) + m.cos(a) * m.cos(a) == 1.0
  }

  /** When sine and cosine satisfy sin^2 + cos^2 == 1, the eye is exactly
      `radius` away from the target. */
  lemma EyeDistance(target: Vec3, yaw: real, pitch: real, radius: real, m: Libm)
    requires Pythagorean(m)
    ensures var d := Sub(EyeAt(target, yaw, pitch, radius, m), target);
      Dot(d, d) == radius * radius
  {
    var sp, cp, sy, cy := m.sin(pitch), m.cos(pitch), m.sin(yaw), m.cos(yaw);
    assert sp * sp + cp * cp == 1.0;
    assert sy * sy + cy * cy == 1.0;
    var d := Sub(EyeAt(target, yaw, pitch, radius, m), target);
    assert d == OrbitOffset(yaw, pitch, radius, m);
    calc {
      Dot(d, d);
      (radius * cp * cy) * (radius * cp * cy) + (radius * cp * sy) * (radius * cp * sy) + (radius * sp) * (radius * sp);
      radius * radius * (cp * cp * (cy * cy + sy * sy) + sp * sp);
      radius * radius * (cp * cp + sp * sp);
      radius * radius;
    }
  }

  /** Moving the target moves the eye by the same vector. */
  lemma EyeFollowsTarget(target: Vec3, delta: Vec3, yaw: real, pitch: real, radius: real, m: Libm)
    ensures EyeAt(Add(target, delta), yaw, pitch, radius, m) == Add(EyeAt(target, yaw, pitch, radius, m), delta)
    ensures Sub(Add(target, delta), EyeAt(Add(target, delta), yaw, pitch, radius, m)) ==
            Sub(target, EyeAt(target, yaw, pitch, radius, m))
  {
  }

  /** The forward, right and up directions of the middle-button pan. */
  function ForwardDir(target: Vec3, eye: Vec3, m: Libm): Vec3 {
    m.unit(Sub(target, eye))
  }

  function RightDir(forward: Vec3, m: Libm): Vec3 {
    m.unit(Cross(forward, K))
  }

  function UpDir(right: Vec3, forward: Vec3, m: Libm): Vec3 {
    m.unit(Cross(right, forward))
  }

  /** The pan sensitivity radius * 0.0015: farther out, larger steps. */
  function PanScale(radius: real): real {
    radius * PanSensitivity
  }

  /** right * (-dx * s) + up * (dy * s). */
  function PanStep(right: Vec3, up: Vec3, dx: real, dy: real, s: real): Vec3 {
    Add(Scale(right, -dx * s), Scale(up, dy * s))
  }

  /** The vector a middle drag of (dx, dy) moves the target by. */
  function PanDelta(target: Vec3, yaw: real, pitch: real, radius: real, dx: real, dy: real, m: Libm): Vec3 {
    var forward := ForwardDir(target, EyeAt(target, yaw, pitch, radius, m), m);
    var right := RightDir(forward, m);
    PanStep(right, UpDir(right, forward, m), dx, dy, PanScale(radius))
  }

  lemma DotAddScale(a: Vec3, b: Vec3, s: real, t: real, c: Vec3)
    ensures Dot(Add(Scale(a, s), Scale(b, t)), c) == s * Dot(a, c) + t * Dot(b, c)
  {
  }

  /** With a normalisation that keeps orthogonality, the pan moves the
      target perpendicularly to the view direction: in the view plane. */
  lemma PanInViewPlane(target: Vec3, yaw: real, pitch: real, radius: real, dx: real, dy: real, m: Libm)
    requires UnitKeepsOrthogonal(m)
    ensures Dot(PanDelta(target, yaw, pitch, radius, dx, dy, m),
                ForwardDir(target, EyeAt(target, yaw, pitch, radius, m), m)) == 0.0
  {
    var s := PanScale(radius);
    var forward := ForwardDir(target, EyeAt(target, yaw, pitch, radius, m), m);
    var c1 := Cross(forward, K);
    var right := RightDir(forward, m);
    var c2 := Cross(right, forward);
    var up := UpDir(right, forward, m);
    DotComm(c1, forward);
    DotComm(c2, forward);
    assert Dot(right, forward) == 0.0;
    assert Dot(up, forward) == 0.0;
    DotAddScale(right, up, -dx * s, dy * s, forward);
  }

  /** The pitch after a left drag of dy pixels. */
  function OrbitPitch(pitch: real, dy: real): (p: real)
    ensures -PitchLimit <= p <= PitchLimit
    ensures -PitchLimit <= pitch + dy * DragSensitivity <= PitchLimit ==> p == pitch + dy * DragSensitivity
  {
    Clamp(pitch + dy * DragSensitivity, -PitchLimit, PitchLimit)
  }

  /** zoom_amount: y lines, or y pixels at 0.01 each. */
  function ScrollAmount(delta: ScrollDelta): real {
    match delta
    case LineDelta(_, y) => y * LineScrollScale
    case PixelDelta(_, y) => y * PixelScrollScale
  }

  /** The radius after a scroll. */
  function ZoomedRadius(radius: real, amount: real): (r: real)
    ensures MinRadius <= r <= MaxRadius
    ensures MinRadius <= radius - amount <= MaxRadius ==> r == radius - amount
  {
    Clamp(radius - amount, MinRadius, MaxRadius)
  }

  /** Scrolling forward (a positive amount) never moves the eye away, and
      scrolling back never moves it closer. */
  lemma ZoomMonotone(radius: real, amount: real)
    requires MinRadius <= radius <= MaxRadius
    ensures amount >= 0.0 ==> ZoomedRadius(radius, amount) <= radius
    ensures amount <= 0.0 ==> ZoomedRadius(radius, amount) >= radius
  {
  }

  /** The pitch moves with dy and never leaves its range; a drag that
      stays inside it is undone by the opposite drag. */
  lemma OrbitPitchInverse(pitch: real, dy: real)
    requires -PitchLimit <= pitch + dy * DragSensitivity <= PitchLimit
    requires -PitchLimit <= pitch <= PitchLimit
    ensures OrbitPitch(OrbitPitch(pitch, dy), -dy) == pitch
  {
  }

  class Camera {
    var target: Vec3
    var yaw: real
    var pitch: real
    var radius: real

    /** The clamps hold: pitch in [-1.55, 1.55], radius in [0.1, 1000]. */
    ghost predicate Valid()
      reads this
    {
      -PitchLimit <= pitch <= PitchLimit && MinRadius <= radius <= MaxRadius
    }

    /** Camera::new: looking at the origin from 10 units, 45 degrees round
        and 30 degrees up. */
    constructor ()
      ensures Valid()
      ensures target == Zero && yaw == ToRadians(45.0) && pitch == ToRadians(30.0) && radius == 10.0
    {
      target := Zero;
      yaw := ToRadians(45.0);
      pitch := ToRadians(30.0);
      radius := 10.0;
    }

    /** get_eye_position. */
    function EyePosition(m: Libm): Vec3
      reads this
    {
      EyeAt(target, yaw, pitch, radius, m)
    }

    /** process_mouse_drag: the left button orbits, the middle button pans,
        any other button does nothing. */
    method ProcessMouseDrag(dx: real, dy: real, button: MouseButton, m: Libm)
      requires Valid()
      modifies this
      ensures Valid()
      ensures button == Left ==>
        yaw == old(yaw) - dx * DragSensitivity && pitch == OrbitPitch(old(pitch), dy) &&
        target == old(target) && radius == old(radius)
      ensures button == Middle ==>
        target == Add(old(target), PanDelta(old(target), old(yaw), old(pitch), old(radius), dx, dy, m)) &&
        yaw == old(yaw) && pitch == old(pitch) && radius == old(radius)
      ensures button != Left && button != Middle ==>
        target == old(target) && yaw == old(yaw) && pitch == old(pitch) && radius == old(radius)
    {
      match button {
        case Left =>
          var sensitivity := DragSensitivity;
          yaw := yaw - dx * sensitivity;
          pitch := pitch + dy * sensitivity;
          pitch := Clamp(pitch, -PitchLimit, PitchLimit);
        case Middle =>
          var sensitivity := PanScale(radius);
          var eye := EyePosition(m);
          var forward := ForwardDir(target, eye, m);
          var right := RightDir(forward, m);
          var up := UpDir(right, forward, m);
          var delta := PanStep(right, up, dx, dy, sensitivity);
          target := Add(target, delta);
        case _ =>
      }
    }

    /** process_scroll: the radius shrinks by the scroll amount, clamped. */
    method ProcessScroll(delta: ScrollDelta)
      requires Valid()
      modifies this
      ensures Valid()
      ensures radius == ZoomedRadius(old(radius), ScrollAmount(delta))
      ensures target == old(target) && yaw == old(yaw) && pitch == old(pitch)
    {
      var zoomAmount := match delta
        case LineDelta(_, y) => y * LineScrollScale
        case PixelDelta(_, y) => y * PixelScrollScale;
      radius := radius - zoomAmount;
      radius := Clamp(radius, MinRadius, MaxRadius);
    }
  }
}
