/**
 The look-at camera: a value holding `eye`, `center` and `up`, its three
 mutators as functions from the old camera to the new one, and the view
 matrix it builds.
 */
module Cameras {
  import opened Geometry
  import opened Libm

  datatype Camera = Camera(eye: Vec3, center: Vec3, up: Vec3)

  const WorldUp: Vec3 := Vec3(0.0, 1.0, 0.0)

  /** The constructor's default arguments. */
  const DefaultCamera: Camera := Camera(Vec3(0.0, 0.0, 3.0), Vec3(0.0, 0.0, 0.0), WorldUp)

  /** The radius `orbit` receives when its caller leaves it out. */
  const DefaultOrbitRadiusArg: real := -1.0

  /** `Camera(eye, center, up)`. */
  function NewCamera(eye: Vec3, center: Vec3, up: Vec3): (c: Camera)
    ensures c.eye == eye && c.center == center && c.up == up
  {
    Camera(eye, center, up)
  }

  /** `set_position`: the result is the freshly constructed camera; nothing of `c` survives. */
  function SetPosition(c: Camera, newEye: Vec3, newCenter: Vec3, newUp: Vec3): (r: Camera)
    ensures r == NewCamera(newEye, newCenter, newUp)
  {
    c.(eye := newEye, center := newCenter, up := newUp)
  }

  /** `M_PI` as camera.cpp defines it. */
  const Pi: real := 3.14159265358979323846

  function Radians(degrees: real): real {
    degrees * Pi / 180.0
  }

  /** Degrees to radians: a half turn is `M_PI` and the conversion is additive. */
  lemma RadiansHalfTurn(a: real, b: real)
    ensures Radians(180.0) == Pi && Radians(90.0) == Pi / 2.0 && Radians(0.0) == 0.0
    ensures Radians(a + b) == Radians(a) + Radians(b)
  {
  }

  /** The largest pitch `orbit` allows, `M_PI / 2 - 0.1`. */
  const MaxPitch: real := Pi / 2.0 - 0.1

  /** The two pitch guards of `orbit`, applied in the order the C++ code tests them. */
  function ClampPitch(pitch: real): (r: real)
    ensures -MaxPitch <= r <= MaxPitch
    ensures -MaxPitch <= pitch <= MaxPitch ==> r == pitch
    ensures pitch > MaxPitch ==> r == MaxPitch
    ensures pitch < -MaxPitch ==> r == -MaxPitch
  {
    var p := if pitch > Pi / 2.0 - 0.1 then Pi / 2.0 - 0.1 else pitch;
    if p < -Pi / 2.0 + 0.1 then -Pi / 2.0 + 0.1 else p
  }

  /** The current eye-to-center distance, replaced by 3 when below 1. */
  function FallbackRadius(m: MathLib, c: Camera): (r: real)
    ensures r >= 1.0
    ensures m.norm(Sub(c.eye, c.center)) >= 1.0 ==> r == m.norm(Sub(c.eye, c.center))
    ensures m.norm(Sub(c.eye, c.center)) < 1.0 ==> r == 3.0
  {
    var radius := m.norm(Sub(c.eye, c.center));
    if radius < 1.0 then 3.0 else radius
  }

  /** The radius `orbit` uses: the supplied one when positive, otherwise the fallback. */
  function OrbitRadius(m: MathLib, c: Camera, radius: real): (r: real)
    ensures r > 0.0
    ensures radius > 0.0 ==> r == radius
    ensures radius <= 0.0 ==> r == FallbackRadius(m, c)
  {
    if radius <= 0.0 then FallbackRadius(m, c) else radius
  }

  /** The spherical offset of the eye from the center. */
  function OrbitOffset(m: MathLib, radius: real, yaw: real, pitch: real): Vec3 {
    Vec3(radius * m.cosf(pitch) * m.sinf(yaw),
         radius * m.sinf(pitch),
         radius * m.cosf(pitch) * m.cosf(yaw))
  }

  /**
   When `cosf` and `sinf` satisfy `cos^2 + sin^2 = 1` at both angles, the
   spherical offset has length `radius`.
   */
  lemma OrbitOffsetOnSphere(m: MathLib, radius: real, yaw: real, pitch: real)
    requires m.cosf(yaw) * m.cosf(yaw) + m.sinf(yaw) * m.sinf(yaw) == 1.0
    requires m.cosf(pitch) * m.cosf(pitch) + m.sinf(pitch) * m.sinf(pitch) == 1.0
    ensures var d := OrbitOffset(m, radius, yaw, pitch); Dot(d, d) == radius * radius
  {
  }

  /** `orbit(angle_y, angle_x, radius)`, angles in degrees. */
  function Orbit(m: MathLib, c: Camera, angleY: real, angleX: real, radius: real): (r: Camera)
    ensures r.center == c.center
    ensures r.up == WorldUp
    ensures r.eye == Add(c.center,
      OrbitOffset(m, OrbitRadius(m, c, radius), Radians(angleY), ClampPitch(Radians(angleX))))
  {
    var r := OrbitRadius(m, c, radius);
    var yaw := Radians(angleY);
    var pitch := ClampPitch(Radians(angleX));
    c.(eye := Add(c.center, OrbitOffset(m, r, yaw, pitch)), up := WorldUp)
  }

  /**
   With trigonometry that satisfies `cos^2 + sin^2 = 1` at the yaw and the
   clamped pitch, `orbit` puts the eye at the effective radius from the center.
   */
  lemma OrbitOnSphere(m: MathLib, c: Camera, angleY: real, angleX: real, radius: real)
    requires var yaw := Radians(angleY);
      m.cosf(yaw) * m.cosf(yaw) + m.sinf(yaw) * m.sinf(yaw) == 1.0
    requires var pitch := ClampPitch(Radians(angleX));
      m.cosf(pitch) * m.cosf(pitch) + m.sinf(pitch) * m.sinf(pitch) == 1.0
    ensures var r := Orbit(m, c, angleY, angleX, radius);
      var d := Sub(r.eye, r.center);
      Dot(d, d) == OrbitRadius(m, c, radius) * OrbitRadius(m, c, radius)
  {
    var off := OrbitOffset(m, OrbitRadius(m, c, radius), Radians(angleY), ClampPitch(Radians(angleX)));
    OrbitOffsetOnSphere(m, OrbitRadius(m, c, radius), Radians(angleY), ClampPitch(Radians(angleX)));
    assert Sub(Add(c.center, off), c.center) == off;
  }

  /** A non-positive radius behaves as the fallback radius passed explicitly. */
  lemma OrbitDefaultRadius(m: MathLib, c: Camera, angleY: real, angleX: real, radius: real)
    requires radius <= 0.0
    ensures Orbit(m, c, angleY, angleX, radius) == Orbit(m, c, angleY, angleX, FallbackRadius(m, c))
  {
  }

  /**
   Orbiting the default camera with the radius left out uses its distance
   (0, 0, 3) as measured by `norm`, or 3 should `norm` report less than 1;
   with an exact `norm` the radius is 3 either way. The camera is a parameter
   pinned to `DefaultCamera` because naming the constant directly in the
   contract makes the proof needlessly expensive for the solver.
   */
  lemma DefaultCameraOrbitRadius(m: MathLib, c: Camera)
    requires c == DefaultCamera
    ensures var d := m.norm(Vec3(0.0, 0.0, 3.0));
      OrbitRadius(m, c, DefaultOrbitRadiusArg) == (if d < 1.0 then 3.0 else d)
    ensures m.norm(Vec3(0.0, 0.0, 3.0)) == 3.0 ==> OrbitRadius(m, c, DefaultOrbitRadiusArg) == 3.0
  {
    assert Sub(c.eye, c.center) == Vec3(0.0, 0.0, 3.0);
  }

  /** Pitches beyond the limit all give the camera at the limit. */
  lemma OrbitPitchSaturates(m: MathLib, c: Camera, angleY: real, angleX1: real, angleX2: real, radius: real)
    requires Radians(angleX1) >= MaxPitch && Radians(angleX2) >= MaxPitch
    ensures Orbit(m, c, angleY, angleX1, radius) == Orbit(m, c, angleY, angleX2, radius)
  {
  }

  /** The eye's offset from the center rotated about the Y axis by the given cosine and sine. */
  function RotateY(d: Vec3, cosA: real, sinA: real): Vec3 {
    Vec3(d.x * cosA - d.z * sinA, d.y, d.x * sinA + d.z * cosA)
  }

  /**
   `orbit_y(angle)`, angle in degrees. The C++ code also computes a radius with
   the same below-1 fallback as `orbit`, but never reads it.
   */
  function OrbitY(m: MathLib, c: Camera, angle: real): (r: Camera)
    ensures r.center == c.center
    ensures r.up == WorldUp
    ensures r.eye.y - r.center.y == c.eye.y - c.center.y
    ensures Sub(r.eye, r.center) ==
      RotateY(Sub(c.eye, c.center), m.cosf(Radians(angle)), m.sinf(Radians(angle)))
  {
    var dir := Sub(c.eye, c.center);
    var angleRad := Radians(angle);
    c.(eye := Add(c.center, RotateY(dir, m.cosf(angleRad), m.sinf(angleRad))), up := WorldUp)
  }

  /** The unused radius: `orbit_y` does not depend on `norm` at all. */
  lemma OrbitYIgnoresNorm(m: MathLib, norm: Vec3 -> real, c: Camera, angle: real)
    ensures OrbitY(m.(norm := norm), c, angle) == OrbitY(m, c, angle)
  {
  }

  /** When the rotation is the identity, `orbit_y` only resets `up`. */
  lemma OrbitYIdentity(m: MathLib, c: Camera, angle: real)
    requires m.cosf(Radians(angle)) == 1.0 && m.sinf(Radians(angle)) == 0.0
    ensures OrbitY(m, c, angle) == c.(up := WorldUp)
  {
  }

  /** For a genuine rotation the horizontal distance to the center is kept. */
  lemma OrbitYKeepsHorizontalDistance(m: MathLib, c: Camera, angle: real)
    requires var a := Radians(angle); m.cosf(a) * m.cosf(a) + m.sinf(a) * m.sinf(a) == 1.0
    ensures var d := Sub(OrbitY(m, c, angle).eye, c.center);
      var d0 := Sub(c.eye, c.center);
      d.x * d.x + d.z * d.z == d0.x * d0.x + d0.z * d0.z
  {
    var a := Radians(angle);
    var co, si := m.cosf(a), m.sinf(a);
    var d0 := Sub(c.eye, c.center);
    var d := Sub(OrbitY(m, c, angle).eye, c.center);
    assert d == RotateY(d0, co, si);
    calc {
      d.x * d.x + d.z * d.z;
      (d0.x * co - d0.z * si) * (d0.x * co - d0.z * si) + (d0.x * si + d0.z * co) * (d0.x * si + d0.z * co);
      (d0.x * d0.x + d0.z * d0.z) * (co * co + si * si);
      d0.x * d0.x + d0.z * d0.z;
    }
  }

  /** The camera basis of `get_view_matrix`: forward, side and true up. */
  datatype Basis = Basis(f: Vec3, s: Vec3, u: Vec3)

  function ViewBasis(m: MathLib, c: Camera): (b: Basis)
    ensures b.f == m.normalize(Sub(c.center, c.eye))
    ensures b.s == m.normalize(Cross(b.f, c.up))
    ensures b.u == Cross(b.s, b.f)
    ensures Dot(b.u, b.s) == 0.0 && Dot(b.u, b.f) == 0.0
  {
    var f := m.normalize(Sub(c.center, c.eye));
    var s := m.normalize(Cross(f, c.up));
    CrossOrthogonal(s, f);
    Basis(f, s, Cross(s, f))
  }

  /** `Minv`: the identity with rows 0..2 of the 3x3 block replaced by s, u and -f. */
  function Rotation(b: Basis): Mat4 {
    Mat4(Embed(b.s, 0.0), Embed(b.u, 0.0), Embed(Neg(b.f), 0.0), Identity.r3)
  }

  /** `Tr`: the identity with column 3 replaced by -eye. */
  function Translation(eye: Vec3): Mat4 {
    Mat4(Vec4(1.0, 0.0, 0.0, -eye.x), Vec4(0.0, 1.0, 0.0, -eye.y),
         Vec4(0.0, 0.0, 1.0, -eye.z), Identity.r3)
  }

  /** `Tr` moves a point by minus the eye. */
  lemma TranslationMovesPoint(eye: Vec3, p: Vec3)
    ensures Apply(Translation(eye), Embed(p, 1.0)) == Embed(Sub(p, eye), 1.0)
  {
  }

  /** `Minv` takes a direction to its coordinates in the basis (s, u, -f) and keeps `w`. */
  lemma RotationExpressesInBasis(b: Basis, d: Vec3, w: real)
    ensures Apply(Rotation(b), Embed(d, w)) == Vec4(Dot(b.s, d), Dot(b.u, d), -Dot(b.f, d), w)
  {
    assert Dot(Neg(b.f), d) == -Dot(b.f, d);
  }

  lemma RowTimesTranslation(r: Vec4, eye: Vec3)
    ensures RowTimes(r, Translation(eye)) ==
      Vec4(r.x, r.y, r.z, r.w - (r.x * eye.x + r.y * eye.y + r.z * eye.z))
  {
  }

  /** The product `Minv * Tr` entry by entry. */
  lemma ViewMatrixEntries(b: Basis, eye: Vec3)
    ensures Mul(Rotation(b), Translation(eye)) ==
      Mat4(Vec4(b.s.x, b.s.y, b.s.z, -Dot(b.s, eye)),
           Vec4(b.u.x, b.u.y, b.u.z, -Dot(b.u, eye)),
           Vec4(-b.f.x, -b.f.y, -b.f.z, Dot(b.f, eye)),
           Vec4(0.0, 0.0, 0.0, 1.0))
  {
    RowTimesTranslation(Embed(b.s, 0.0), eye);
    RowTimesTranslation(Embed(b.u, 0.0), eye);
    RowTimesTranslation(Embed(Neg(b.f), 0.0), eye);
    RowTimesTranslation(Identity.r3, eye);
    assert RowTimes(Embed(b.s, 0.0), Translation(eye)) == Vec4(b.s.x, b.s.y, b.s.z, -Dot(b.s, eye));
    assert RowTimes(Embed(b.u, 0.0), Translation(eye)) == Vec4(b.u.x, b.u.y, b.u.z, -Dot(b.u, eye));
    assert 0.0 - (-b.f.x * eye.x + -b.f.y * eye.y + -b.f.z * eye.z) == Dot(b.f, eye);
    assert RowTimes(Embed(Neg(b.f), 0.0), Translation(eye)) == Vec4(-b.f.x, -b.f.y, -b.f.z, Dot(b.f, eye));
    assert RowTimes(Identity.r3, Translation(eye)) == Vec4(0.0, 0.0, 0.0, 1.0);
  }

  /** For any basis, `Minv * Tr` takes the eye to the origin. */
  lemma ViewMatrixEye(b: Basis, eye: Vec3)
    ensures Apply(Mul(Rotation(b), Translation(eye)), Embed(eye, 1.0)) == Vec4(0.0, 0.0, 0.0, 1.0)
  {
    ViewMatrixEntries(b, eye);
  }

  /** `get_view_matrix()`: `Minv * Tr`. */
  function ViewMatrix(m: MathLib, c: Camera): (r: Mat4)
    ensures r.r3 == Vec4(0.0, 0.0, 0.0, 1.0)
    ensures var b := ViewBasis(m, c);
      && Proj3(r.r0) == b.s && Proj3(r.r1) == b.u && Proj3(r.r2) == Neg(b.f)
      && r.r0.w == -Dot(b.s, c.eye) && r.r1.w == -Dot(b.u, c.eye) && r.r2.w == Dot(b.f, c.eye)
    ensures Apply(r, Embed(c.eye, 1.0)) == Vec4(0.0, 0.0, 0.0, 1.0)
  {
    var b := ViewBasis(m, c);
    ViewMatrixEntries(b, c.eye);
    ViewMatrixEye(b, c.eye);
    Mul(Rotation(b), Translation(c.eye))
  }

  /** A world point lands at its offset from the eye expressed in the basis (s, u, -f). */
  lemma ViewMatrixCoordinates(m: MathLib, c: Camera, p: Vec3)
    ensures var b := ViewBasis(m, c);
      var d := Sub(p, c.eye);
      Apply(ViewMatrix(m, c), Embed(p, 1.0)) == Vec4(Dot(b.s, d), Dot(b.u, d), -Dot(b.f, d), 1.0)
  {
    BasisCoordinates(ViewBasis(m, c), c.eye, p);
  }

  /** For any basis, `Minv * Tr` takes a point to its eye offset in (s, u, -f). */
  lemma BasisCoordinates(b: Basis, eye: Vec3, p: Vec3)
    ensures var d := Sub(p, eye);
      Apply(Mul(Rotation(b), Translation(eye)), Embed(p, 1.0)) == Vec4(Dot(b.s, d), Dot(b.u, d), -Dot(b.f, d), 1.0)
  {
    ViewMatrixEntries(b, eye);
    AffineRow(b.s, eye, p);
    AffineRow(b.u, eye, p);
    AffineRow(Neg(b.f), eye, p);
    assert Dot(Neg(b.f), Sub(p, eye)) == -Dot(b.f, Sub(p, eye));
    assert -Dot(Neg(b.f), eye) == Dot(b.f, eye);
  }

  /** A row (a, -a.e) of an affine map takes the point (p, 1) to a.(p - e). */
  lemma AffineRow(a: Vec3, e: Vec3, p: Vec3)
    ensures Dot4(Vec4(a.x, a.y, a.z, -Dot(a, e)), Embed(p, 1.0)) == Dot(a, Sub(p, e))
  {
  }
}
