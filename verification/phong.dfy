/**
 The Phong shader: its uniform state, the three varying matrices it threads
 from the vertex stage to the fragment stage, and both stages as pure
 functions. The process-wide ModelView, Projection and Viewport matrices and
 the loaded mesh are explicit parameters.
 */
module Phong {
  import opened Numerics
  import opened Geometry
  import opened Libm
  import opened Textures
  import opened Meshes

  /** One slot per triangle corner: a row of a `mat<3, n, float>` varying. */
  datatype Corners<T> = Corners(c0: T, c1: T, c2: T) {

    function At(k: int): T
      requires 0 <= k < 3
    {
      if k == 0 then c0 else if k == 1 then c1 else c2
    }

    /** Overwrites slot `k` and no other. */
    function Set(k: int, v: T): (r: Corners<T>)
      requires 0 <= k < 3
      ensures r.At(k) == v
      ensures forall i :: 0 <= i < 3 && i != k ==> r.At(i) == At(i)
    {
      if k == 0 then this.(c0 := v) else if k == 1 then this.(c1 := v) else this.(c2 := v)
    }
  }

  /** The renderer's global transform state. */
  datatype Transforms = Transforms(modelView: Mat4, projection: Mat4, viewport: Mat4)

  /** The shader's fields other than the varyings. */
  datatype Uniforms = Uniforms(
    uniformM: Mat4,
    uniformMIT: Mat4,
    lightDir: Vec3,
    lightColor: Vec3,
    ambientColor: Vec3,
    viewDir: Vec3,
    cameraPos: Vec3,
    specularExponent: real,
    specularIntensity: real,
    diffuseMap: TextureRef,
    normalMap: TextureRef,
    specularMap: TextureRef
  )

  /** `varying_tri`, `varying_nrm` and `varying_uv`, one row per corner. */
  datatype Varyings = Varyings(tri: Corners<Vec3>, nrm: Corners<Vec3>, uv: Corners<Vec2>)

  datatype PhongShader = PhongShader(uniforms: Uniforms, varyings: Varyings)

  predicate MapsValid(u: Uniforms) {
    Valid(u.diffuseMap) && Valid(u.normalMap) && Valid(u.specularMap)
  }

  // ---------------------------------------------------------------- vertex

  /**
   `proj<3>(p / p[3])`. A zero `w` gives IEEE infinities or NaN in the
   renderer; this model stores the zero vector instead.
   */
  function PerspectiveDivide(p: Vec4): (r: Vec3)
    ensures p.w != 0.0 ==> Scale(r, p.w) == Proj3(p)
  {
    if p.w == 0.0 then Vec3(0.0, 0.0, 0.0) else Vec3(p.x / p.w, p.y / p.w, p.z / p.w)
  }

  /** `gl_Vertex = uniform_M * embed<4>(vert, 1)`. */
  function GlVertex(u: Uniforms, mesh: Mesh, iface: int, nthvert: int): Vec4 {
    Apply(u.uniformM, Embed(mesh.vertOf(iface, nthvert), 1.0))
  }

  /** The normal stored for a corner: `proj<3>(uniform_MIT * embed<4>(n, 0))`. */
  function CornerNormal(u: Uniforms, mesh: Mesh, iface: int, nthvert: int): Vec3 {
    Proj3(Apply(u.uniformMIT, Embed(mesh.normalOf(iface, nthvert), 0.0)))
  }

  /** The position stored for a corner: the perspective-divided `gl_Vertex`. */
  function CornerPosition(u: Uniforms, mesh: Mesh, iface: int, nthvert: int): Vec3 {
    PerspectiveDivide(GlVertex(u, mesh, iface, nthvert))
  }

  /** With the identity as `uniform_M`, `gl_Vertex` is the mesh vertex itself and is stored unchanged. */
  lemma IdentityKeepsCorner(u: Uniforms, mesh: Mesh, iface: int, nthvert: int)
    requires u.uniformM == Identity
    ensures GlVertex(u, mesh, iface, nthvert) == Embed(mesh.vertOf(iface, nthvert), 1.0)
    ensures CornerPosition(u, mesh, iface, nthvert) == mesh.vertOf(iface, nthvert)
  {
  }

  /** An affine `uniform_M` gives `w = 1`, so the perspective division leaves `gl_Vertex` as it is. */
  lemma AffineCornerPosition(u: Uniforms, mesh: Mesh, iface: int, nthvert: int)
    requires u.uniformM.r3 == Identity.r3
    ensures GlVertex(u, mesh, iface, nthvert).w == 1.0
    ensures CornerPosition(u, mesh, iface, nthvert) == Proj3(GlVertex(u, mesh, iface, nthvert))
  {
  }

  /**
   Only the upper-left 3x3 block of `uniform_MIT` acts on a corner normal: the
   normal is embedded with `w = 0`, and the fourth row is dropped.
   */
  lemma CornerNormalUsesLinearPart(u: Uniforms, mesh: Mesh, iface: int, nthvert: int)
    ensures var a := u.uniformMIT;
      var n := mesh.normalOf(iface, nthvert);
      CornerNormal(u, mesh, iface, nthvert) == Vec3(Dot(Proj3(a.r0), n), Dot(Proj3(a.r1), n), Dot(Proj3(a.r2), n))
  {
  }

  /**
   The vertex stage's return value: Viewport, Projection and ModelView applied
   in turn to the point `uniform_M` has already transformed.
   */
  function ScreenPosition(u: Uniforms, g: Transforms, mesh: Mesh, iface: int, nthvert: int): Vec4 {
    Apply(g.viewport, Apply(g.projection, Apply(g.modelView, GlVertex(u, mesh, iface, nthvert))))
  }

  /** The C++ code builds the product `Viewport * Projection * ModelView` and applies it to `gl_Vertex`. */
  lemma ScreenPositionIsComposite(u: Uniforms, g: Transforms, mesh: Mesh, iface: int, nthvert: int)
    ensures ScreenPosition(u, g, mesh, iface, nthvert) ==
      Apply(Mul(Mul(g.viewport, g.projection), g.modelView), GlVertex(u, mesh, iface, nthvert))
  {
    var glVertex := GlVertex(u, mesh, iface, nthvert);
    ApplyMul(Mul(g.viewport, g.projection), g.modelView, glVertex);
    ApplyMul(g.viewport, g.projection, Apply(g.modelView, glVertex));
  }

  datatype VertexOut = VertexOut(shader: PhongShader, position: Vec4)

  /** `PhongShader::vertex(iface, nthvert)`. */
  function Vertex(sh: PhongShader, g: Transforms, mesh: Mesh, iface: int, nthvert: int): (r: VertexOut)
    requires 0 <= nthvert < 3
    ensures r.shader.uniforms == sh.uniforms
    ensures r.shader.varyings.uv.At(nthvert) == mesh.uvOf(iface, nthvert)
    ensures r.shader.varyings.nrm.At(nthvert) == CornerNormal(sh.uniforms, mesh, iface, nthvert)
    ensures r.shader.varyings.tri.At(nthvert) == CornerPosition(sh.uniforms, mesh, iface, nthvert)
    ensures forall i :: 0 <= i < 3 && i != nthvert ==>
      && r.shader.varyings.uv.At(i) == sh.varyings.uv.At(i)
      && r.shader.varyings.nrm.At(i) == sh.varyings.nrm.At(i)
      && r.shader.varyings.tri.At(i) == sh.varyings.tri.At(i)
    ensures r.position ==
      Apply(g.viewport, Apply(g.projection, Apply(g.modelView,
        Apply(sh.uniforms.uniformM, Embed(mesh.vertOf(iface, nthvert), 1.0)))))
  {
    var u := sh.uniforms;
    var v := sh.varyings;
    var varyings := Varyings(
      v.tri.Set(nthvert, CornerPosition(u, mesh, iface, nthvert)),
      v.nrm.Set(nthvert, CornerNormal(u, mesh, iface, nthvert)),
      v.uv.Set(nthvert, mesh.uvOf(iface, nthvert)));
    VertexOut(PhongShader(u, varyings), ScreenPosition(u, g, mesh, iface, nthvert))
  }

  /**
   With `uniform_M` set to `Projection * ModelView`, as the driver does, the
   returned point has Projection and ModelView applied twice.
   */
  lemma VertexAppliesCameraTwice(sh: PhongShader, g: Transforms, mesh: Mesh, iface: int, nthvert: int)
    requires 0 <= nthvert < 3
    requires sh.uniforms.uniformM == Mul(g.projection, g.modelView)
    ensures Vertex(sh, g, mesh, iface, nthvert).position ==
      Apply(g.viewport, Apply(g.projection, Apply(g.modelView,
        Apply(g.projection, Apply(g.modelView, Embed(mesh.vertOf(iface, nthvert), 1.0))))))
  {
    ApplyMul(g.projection, g.modelView, Embed(mesh.vertOf(iface, nthvert), 1.0));
  }

  // -------------------------------------------------------------- fragment

  /** The interpolation loop over the three rows of a 2-column varying. */
  function Interpolate2(c: Corners<Vec2>, bar: Vec3): Vec2 {
    Vec2(0.0 + c.c0.x * bar.x + c.c1.x * bar.y + c.c2.x * bar.z,
         0.0 + c.c0.y * bar.x + c.c1.y * bar.y + c.c2.y * bar.z)
  }

  /** The interpolation loop over the three rows of a 3-column varying. */
  function Interpolate3(c: Corners<Vec3>, bar: Vec3): Vec3 {
    Vec3(0.0 + c.c0.x * bar.x + c.c1.x * bar.y + c.c2.x * bar.z,
         0.0 + c.c0.y * bar.x + c.c1.y * bar.y + c.c2.y * bar.z,
         0.0 + c.c0.z * bar.x + c.c1.z * bar.y + c.c2.z * bar.z)
  }

  /** The barycentric weights of a corner reproduce that corner's varyings. */
  lemma InterpolateAtCorner(v: Varyings, k: int)
    requires 0 <= k < 3
    ensures var bar := Vec3(if k == 0 then 1.0 else 0.0, if k == 1 then 1.0 else 0.0, if k == 2 then 1.0 else 0.0);
      && Interpolate2(v.uv, bar) == v.uv.At(k)
      && Interpolate3(v.nrm, bar) == v.nrm.At(k)
      && Interpolate3(v.tri, bar) == v.tri.At(k)
  {
  }

  /** Weights summing to 1 reproduce a varying that is the same at all three corners. */
  lemma InterpolateConstant(v: Vec3, w: Vec2, bar: Vec3)
    requires bar.x + bar.y + bar.z == 1.0
    ensures Interpolate3(Corners(v, v, v), bar) == v
    ensures Interpolate2(Corners(w, w, w), bar) == w
  {
  }

  /** A normal-map byte mapped from [0, 255] onto [-1, 1]. */
  function DecodeNormalComponent(b: Byte): (r: real)
    ensures -1.0 <= r <= 1.0
    ensures r == -1.0 <==> b == 0
    ensures r == 1.0 <==> b == 255
  {
    b as real / 255.0 * 2.0 - 1.0
  }

  /** The decoding loses nothing: mapping back onto [0, 255] recovers the byte. */
  lemma DecodeNormalComponentInverse(b: Byte)
    ensures (DecodeNormalComponent(b) + 1.0) / 2.0 * 255.0 == b as real
  {
  }

  /** The decoding preserves order. */
  lemma DecodeNormalComponentMonotone(a: Byte, b: Byte)
    requires a < b
    ensures DecodeNormalComponent(a) < DecodeNormalComponent(b)
  {
  }

  /** A normal-map texel as a vector: X from byte 2, Y from byte 1, Z from byte 0. */
  function DecodeNormal(t: Texel): (n: Vec3)
    ensures n.x == DecodeNormalComponent(t.c2)
    ensures n.y == DecodeNormalComponent(t.c1)
    ensures n.z == DecodeNormalComponent(t.c0)
    ensures -1.0 <= n.x <= 1.0 && -1.0 <= n.y <= 1.0 && -1.0 <= n.z <= 1.0
  {
    Vec3(DecodeNormalComponent(t.c2), DecodeNormalComponent(t.c1), DecodeNormalComponent(t.c0))
  }

  /**
   The shading normal: the renormalised decoded normal-map texel when the map
   is usable, otherwise the renormalised interpolated normal.
   */
  function SurfaceNormal(normalMap: TextureRef, m: MathLib, uv: Vec2, interpolated: Vec3): (n: Vec3)
    requires Valid(normalMap)
    ensures Usable(normalMap) ==> n == m.normalize(DecodeNormal(Sample(normalMap.image, uv)))
    ensures !Usable(normalMap) ==> n == interpolated
  {
    if Usable(normalMap) then m.normalize(DecodeNormal(Sample(normalMap.image, uv)))
    else interpolated
  }

  /** `std::max(0.0f, n * l)`. */
  function DiffuseFactor(n: Vec3, l: Vec3): (d: real)
    ensures d >= 0.0
    ensures d == 0.0 <==> Dot(n, l) <= 0.0
    ensures d > 0.0 ==> d == Dot(n, l)
  {
    Max(0.0, Dot(n, l))
  }

  /** The specular power term, switched off unless the diffuse factor is positive. */
  function SpecularTerm(m: MathLib, n: Vec3, l: Vec3, toCamera: Vec3, exponent: real, diff: real): (s: real)
    ensures diff <= 0.0 ==> s == 0.0
    ensures diff > 0.0 ==> s == m.powf(Max(0.0, Dot(n, m.normalize(Add(l, toCamera)))), exponent)
  {
    if diff > 0.0 then
      var halfVector := m.normalize(Add(l, toCamera));
      m.powf(Max(0.0, Dot(n, halfVector)), exponent)
    else
      0.0
  }

  /**
   The specular-map scaling: with a usable map the term is multiplied by the
   texel's byte 0 over 255 and by `specular_intensity`; otherwise by neither.
   */
  function SpecularScaled(specularMap: TextureRef, specularIntensity: real, uv: Vec2, spec: real): (s: real)
    requires Valid(specularMap)
    ensures !Usable(specularMap) ==> s == spec
    ensures Usable(specularMap) ==>
      s == spec * (Sample(specularMap.image, uv).c0 as real / 255.0 * specularIntensity)
    ensures spec == 0.0 ==> s == 0.0
  {
    if Usable(specularMap) then
      var specIntensity := Sample(specularMap.image, uv).c0 as real / 255.0;
      spec * (specIntensity * specularIntensity)
    else
      spec
  }

  const FallbackAlbedo: Vec3 := Vec3(0.8, 0.8, 0.8)

  /**
   The surface colour: bytes 2, 1, 0 of the diffuse-map texel over 255 when the
   map is usable, otherwise the constant 0.8 grey. Each channel lies in [0, 1].
   */
  function Albedo(diffuseMap: TextureRef, uv: Vec2): (a: Vec3)
    requires Valid(diffuseMap)
    ensures !Usable(diffuseMap) ==> a == FallbackAlbedo
    ensures Usable(diffuseMap) ==>
      var t := Sample(diffuseMap.image, uv);
      a == Vec3(t.c2 as real / 255.0, t.c1 as real / 255.0, t.c0 as real / 255.0)
    ensures 0.0 <= a.x <= 1.0 && 0.0 <= a.y <= 1.0 && 0.0 <= a.z <= 1.0
  {
    if Usable(diffuseMap) then
      var t := Sample(diffuseMap.image, uv);
      Vec3(t.c2 as real / 255.0, t.c1 as real / 255.0, t.c0 as real / 255.0)
    else
      FallbackAlbedo
  }

  /** One clamped channel of `albedo*ambient + albedo*light*diff + light*spec`. */
  function CombineChannel(albedo: real, ambient: real, light: real, diff: real, spec: real): (c: real)
    ensures 0.0 <= c <= 1.0
    ensures var raw := albedo * ambient + albedo * light * diff + light * spec;
      && (0.0 <= raw <= 1.0 ==> c == raw)
      && (raw < 0.0 ==> c == 0.0)
      && (raw > 1.0 ==> c == 1.0)
  {
    Clamp01(albedo * ambient + albedo * light * diff + light * spec)
  }

  /** The three clamped channels of the final colour. */
  function Combine(albedo: Vec3, ambient: Vec3, light: Vec3, diff: real, spec: real): (c: Vec3)
    ensures 0.0 <= c.x <= 1.0 && 0.0 <= c.y <= 1.0 && 0.0 <= c.z <= 1.0
    ensures c.x == CombineChannel(albedo.x, ambient.x, light.x, diff, spec)
    ensures c.y == CombineChannel(albedo.y, ambient.y, light.y, diff, spec)
    ensures c.z == CombineChannel(albedo.z, ambient.z, light.z, diff, spec)
  {
    Vec3(CombineChannel(albedo.x, ambient.x, light.x, diff, spec),
         CombineChannel(albedo.y, ambient.y, light.y, diff, spec),
         CombineChannel(albedo.z, ambient.z, light.z, diff, spec))
  }

  /** Without diffuse and specular light only `albedo * ambient` remains. */
  lemma CombineUnlit(albedo: Vec3, ambient: Vec3, light: Vec3)
    ensures Combine(albedo, ambient, light, 0.0, 0.0) ==
      Vec3(Clamp01(albedo.x * ambient.x), Clamp01(albedo.y * ambient.y), Clamp01(albedo.z * ambient.z))
  {
  }

  /** The quantities the fragment stage computes before quantising. */
  datatype Shading = Shading(uv: Vec2, normal: Vec3, diffuse: real, specular: real, albedo: Vec3, color: Vec3)

  function Shade(sh: PhongShader, m: MathLib, bar: Vec3): (s: Shading)
    requires MapsValid(sh.uniforms)
    ensures s.uv == Interpolate2(sh.varyings.uv, bar)
    ensures s.diffuse >= 0.0
    ensures s.diffuse == DiffuseFactor(s.normal, m.normalize(sh.uniforms.lightDir))
    ensures s.diffuse == 0.0 <==> Dot(s.normal, m.normalize(sh.uniforms.lightDir)) <= 0.0
    ensures s.diffuse == 0.0 ==> s.specular == 0.0
    ensures s.normal == SurfaceNormal(sh.uniforms.normalMap, m, s.uv,
      m.normalize(Interpolate3(sh.varyings.nrm, bar)))
    ensures !Usable(sh.uniforms.normalMap) ==>
      s.normal == m.normalize(Interpolate3(sh.varyings.nrm, bar))
    ensures s.albedo == Albedo(sh.uniforms.diffuseMap, s.uv)
    ensures !Usable(sh.uniforms.diffuseMap) ==> s.albedo == FallbackAlbedo
    ensures s.specular == SpecularScaled(sh.uniforms.specularMap, sh.uniforms.specularIntensity, s.uv,
      SpecularTerm(m, s.normal, m.normalize(sh.uniforms.lightDir),
        m.normalize(Sub(sh.uniforms.cameraPos, Interpolate3(sh.varyings.tri, bar))),
        sh.uniforms.specularExponent, s.diffuse))
    ensures !Usable(sh.uniforms.specularMap) ==>
      s.specular == SpecularTerm(m, s.normal, m.normalize(sh.uniforms.lightDir),
        m.normalize(Sub(sh.uniforms.cameraPos, Interpolate3(sh.varyings.tri, bar))),
        sh.uniforms.specularExponent, s.diffuse)
    ensures 0.0 <= s.color.x <= 1.0 && 0.0 <= s.color.y <= 1.0 && 0.0 <= s.color.z <= 1.0
    ensures s.color == Combine(s.albedo, sh.uniforms.ambientColor, sh.uniforms.lightColor, s.diffuse, s.specular)
  {
    var u := sh.uniforms;
    var v := sh.varyings;
    var uv := Interpolate2(v.uv, bar);
    var n := SurfaceNormal(u.normalMap, m, uv, m.normalize(Interpolate3(v.nrm, bar)));
    var p := Interpolate3(v.tri, bar);
    var l := m.normalize(u.lightDir);
    var toCamera := m.normalize(Sub(u.cameraPos, p));
    var diff := DiffuseFactor(n, l);
    var spec := SpecularScaled(u.specularMap, u.specularIntensity, uv,
      SpecularTerm(m, n, l, toCamera, u.specularExponent, diff));
    var albedo := Albedo(u.diffuseMap, uv);
    Shading(uv, n, diff, spec, albedo, Combine(albedo, u.ambientColor, u.lightColor, diff, spec))
  }

  /** The shading normal the fragment stage derives from the maps and the varyings. */
  function ShadingNormal(sh: PhongShader, m: MathLib, bar: Vec3): Vec3
    requires MapsValid(sh.uniforms)
  {
    SurfaceNormal(sh.uniforms.normalMap, m, Interpolate2(sh.varyings.uv, bar),
      m.normalize(Interpolate3(sh.varyings.nrm, bar)))
  }

  /** A surface turned away from the light receives no diffuse and no specular light. */
  lemma FacingAwayIsUnlit(sh: PhongShader, m: MathLib, bar: Vec3)
    requires MapsValid(sh.uniforms)
    requires Dot(ShadingNormal(sh, m, bar), m.normalize(sh.uniforms.lightDir)) <= 0.0
    ensures Shade(sh, m, bar).diffuse == 0.0 && Shade(sh, m, bar).specular == 0.0
  {
  }

  /** A surface turned away from the light receives only the ambient term. */
  lemma FacingAwayIsAmbientOnly(sh: PhongShader, m: MathLib, bar: Vec3)
    requires MapsValid(sh.uniforms)
    requires Dot(ShadingNormal(sh, m, bar), m.normalize(sh.uniforms.lightDir)) <= 0.0
    ensures var s := Shade(sh, m, bar);
      var amb := sh.uniforms.ambientColor;
      s.color == Vec3(Clamp01(s.albedo.x * amb.x), Clamp01(s.albedo.y * amb.y), Clamp01(s.albedo.z * amb.z))
  {
    FacingAwayIsUnlit(sh, m, bar);
    var s := Shade(sh, m, bar);
    var amb := sh.uniforms.ambientColor;
    assert s.color == Combine(s.albedo, amb, sh.uniforms.lightColor, 0.0, 0.0);
    CombineUnlit(s.albedo, amb, sh.uniforms.lightColor);
  }

  /** The 8-bit colour the shader writes: `TGAColor(r, g, b, a)`. */
  datatype Rgba = Rgba(r: Byte, g: Byte, b: Byte, a: Byte)

  /**
   What `fragment` leaves behind: the discard flag, the written colour and the
   shader itself, because `light_dir.normalize()` and `view_dir.normalize()`
   rescale those two uniforms in place.
   */
  datatype FragmentOut = FragmentOut(discard: bool, color: Rgba, shader: PhongShader)

  /** The uniforms after one fragment call: `light_dir` and `view_dir` normalised in place. */
  function NormalizeDirections(u: Uniforms, m: MathLib): (r: Uniforms)
    ensures r.lightDir == m.normalize(u.lightDir) && r.viewDir == m.normalize(u.viewDir)
    ensures r.(lightDir := u.lightDir, viewDir := u.viewDir) == u
  {
    u.(lightDir := m.normalize(u.lightDir), viewDir := m.normalize(u.viewDir))
  }

  /** `PhongShader::fragment(bar, color)`: the written colour, the discard flag and the updated shader. */
  function Fragment(sh: PhongShader, m: MathLib, bar: Vec3): (r: FragmentOut)
    requires MapsValid(sh.uniforms)
    ensures !r.discard
    ensures r.color.a == 255
    ensures var c := Shade(sh, m, bar).color;
      && r.color.r as real <= c.x * 255.0 < r.color.r as real + 1.0
      && r.color.g as real <= c.y * 255.0 < r.color.g as real + 1.0
      && r.color.b as real <= c.z * 255.0 < r.color.b as real + 1.0
    ensures r.shader.varyings == sh.varyings
    ensures r.shader.uniforms == NormalizeDirections(sh.uniforms, m)
    ensures MapsValid(r.shader.uniforms)
  {
    var c := Shade(sh, m, bar).color;
    FragmentOut(false, Rgba(Quantize(c.x), Quantize(c.y), Quantize(c.z), 255),
      sh.(uniforms := NormalizeDirections(sh.uniforms, m)))
  }

  /** `view_dir` is normalised but never used: the written colour does not depend on it. */
  lemma FragmentIgnoresViewDir(sh: PhongShader, m: MathLib, bar: Vec3, d: Vec3)
    requires MapsValid(sh.uniforms)
    ensures Fragment(sh.(uniforms := sh.uniforms.(viewDir := d)), m, bar).color == Fragment(sh, m, bar).color
  {
  }

  /**
   Shading reads the light direction only through its normalisation, so two
   light directions with the same normalisation shade alike.
   */
  lemma ShadeSeesNormalizedLight(sh: PhongShader, m: MathLib, bar: Vec3, l: Vec3)
    requires MapsValid(sh.uniforms)
    requires m.normalize(l) == m.normalize(sh.uniforms.lightDir)
    ensures Shade(sh.(uniforms := sh.uniforms.(lightDir := l)), m, bar) == Shade(sh, m, bar)
  {
  }

  /**
   A later fragment call sees `light_dir` normalised once more. When
   normalising a second time changes nothing, as for an idempotent
   `normalize`, it writes the colour a call on the original shader would.
   */
  lemma LaterFragmentSameColor(sh: PhongShader, m: MathLib, bar1: Vec3, bar2: Vec3)
    requires MapsValid(sh.uniforms)
    requires m.normalize(m.normalize(sh.uniforms.lightDir)) == m.normalize(sh.uniforms.lightDir)
    ensures Fragment(Fragment(sh, m, bar1).shader, m, bar2).color == Fragment(sh, m, bar2).color
  {
    var l := m.normalize(sh.uniforms.lightDir);
    var lit := sh.(uniforms := sh.uniforms.(lightDir := l));
    ShadeSeesNormalizedLight(sh, m, bar2, l);
    FragmentIgnoresViewDir(lit, m, bar2, m.normalize(sh.uniforms.viewDir));
  }
}
