# A Dafny model of the KG3 software rasterizer's shader, camera and driver loops

KG3 is a small software 3D renderer. This project models three of its
sequential parts over exact real numbers:

- the **Phong shader** (`PhongShader::vertex` and `PhongShader::fragment`):
  the vertex stage writes one corner slot of the three varying matrices and
  returns the screen-space point; the fragment stage interpolates the
  varyings, samples the normal, specular and diffuse maps at wrapped and
  clamped texel indices, computes diffuse, specular and ambient light,
  clamps each channel to [0, 1], quantises it to a byte and never discards;
- the **look-at camera** (`Camera`): its constructor, `orbit`, `orbit_y`,
  `set_position` and the view matrix `get_view_matrix`;
- two loops of the **entry point**: `compute_model_bounds` and the per-face
  loop that runs the vertex stage on corners 0, 1, 2, rejects a face as soon
  as a corner has `w <= 0`, hands accepted faces to `triangle()` and counts
  them in `rendered_faces`.

Modules: `Numerics` (clamps, truncation, quantisation), `Geometry` (vectors,
4x4 matrices), `Libm` (the uninterpreted `normalize`, `norm`, `powf`, `sinf`,
`cosf`), `Textures` (texture maps and sampling), `Meshes` (the mesh query
interface), `Phong`, `Cameras`, `Driver`.

Modelling choices:

- Every `float` is a `real`. The C++ conversions that matter are written
  out: `(int)x` truncates toward zero (`Numerics.Trunc`) and
  `(unsigned char)(x * 255)` truncates a clamped channel (`Numerics.Quantize`).
- `normalize`, `norm`, `powf`, `sinf` and `cosf` are fields of a `MathLib`
  value passed to every operation that calls them. Nothing is assumed about
  what they return. A lemma that needs an identity of them, such as
  `cos^2 + sin^2 = 1` or a `normalize` that leaves a normalised vector alone,
  takes it as a precondition.
- The process-wide `model`, `ModelView`, `Projection` and `Viewport` are
  explicit parameters (`Meshes.Mesh`, `Phong.Transforms`).
- A null texture pointer is `TextureRef.Null`. A texel's four bytes are named
  by the index the shader reads them with (`c0` = `color[0]`, and so on).
  `Textures.Get` requires in-range indices, so every texture read in the
  fragment stage is proved to be in range.
- Mutators and stages are functions that return the new state instead of
  changing it in place. The vertex stage returns the updated shader together
  with the screen point. The fragment stage returns the updated shader too.
  The `normalize()` of the vector header the renderer is built on normalises
  its receiver in place. So each fragment call leaves `light_dir` and
  `view_dir` normalised once more (`Phong.NormalizeDirections`).
- `triangle()` is recorded as an event (`Driver.TriangleCall`) carrying the
  face, the screen coordinates and the shader's varyings at the time of the
  call. Each call of the vertex stage is recorded as a `Driver.VertexCall`.

Behaviour of the code that the model keeps as written:

- The vertex stage returns `Viewport * Projection * ModelView * gl_Vertex`,
  where `gl_Vertex` is already `uniform_M * (v, 1)`. The entry point sets
  `uniform_M` to `Projection * ModelView`. So the vertex stage applies
  Projection and ModelView twice (`Phong.VertexAppliesCameraTwice`).
- `varying_tri` holds the perspective-divided `uniform_M * (v, 1)`, not the
  camera-space position that the comment on the field in phong_shader.h
  describes.
- `specular_intensity` has no effect without a usable specular map. The
  specular term is then scaled neither by a texel nor by the intensity, so
  `specular_intensity = 0` does not switch specular light off.
- `orbit_y` computes `norm(eye - center)`, replaced by 3 when below 1, but
  never uses it. The rotation alone moves the eye
  (`Cameras.OrbitYIgnoresNorm`).

## Model

| member | source | states |
|---|---|---|
| `Numerics.Max` | phong_shader.cpp:99-106 | `std::max` returns one of its two arguments, and it is at least both. |
| `Numerics.Min` | phong_shader.cpp:161 | `std::min` returns one of its two arguments, and it is at most both. |
| `Numerics.Clamp01` | phong_shader.cpp:161 | The clamped channel lies in [0, 1]. It equals the input inside [0, 1], is 0 below and 1 above. |
| `Numerics.Frac` | phong_shader.cpp:66-67 | The wrapped coordinate lies in [0, 1) and differs from the input by a whole number. |
| `Numerics.FracShift` | phong_shader.cpp:66-67 | Shifting a coordinate by a whole number does not change its wrapped value. |
| `Numerics.Trunc` | phong_shader.cpp:69-70 | `(int)x` rounds toward zero: the result is at most `x` and within 1 of it for `x >= 0`, and the mirror image for `x < 0`. |
| `Numerics.Quantize` | phong_shader.cpp:165-170 | A channel in [0, 1] becomes the byte `floor(255 * c)`. The byte is 255 iff the channel is 1, and 0 iff the channel is below 1/255. |
| `Geometry.ApplyMul` | phong_shader.cpp:38 | Applying a matrix product to a point is the same as applying its factors right to left. |
| `Geometry.CrossOrthogonal` | camera.cpp:73 | A cross product is orthogonal to both of its operands. |
| `Textures.ClampIndex` | phong_shader.cpp:72-73 | The clamped index lies in 0 .. size-1. It is the index itself inside that range, 0 below it and size-1 above it. |
| `Textures.TexelIndex` | phong_shader.cpp:66-73 | For any coordinate and any extent `size > 0`, the texel index lies in 0 .. size-1. |
| `Textures.TexelIndexIsFloor` | phong_shader.cpp:69-73 | The clamp never binds: the index is the floor of the wrapped coordinate times the extent. |
| `Textures.TexelIndexWraps` | phong_shader.cpp:66-70 | Shifting the coordinate by a whole number gives the same texel index. |
| `Textures.UsableHasTexel` | phong_shader.cpp:61 | For a map whose storage agrees with its dimensions, the guard `map && width > 0 && height > 0` holds iff there is a first row and it holds a texel. |
| `Textures.Sample` | phong_shader.cpp:61-75 | For a map with width and height > 0, the texel read is the one at column `TexelIndex(u, width)` and row `TexelIndex(v, height)`. That position is in range, so no read is out of bounds. |
| `Textures.SampleWraps` | phong_shader.cpp:137-145 | Shifting both texture coordinates by whole numbers samples the same texel. |
| `Phong.PerspectiveDivide` | phong_shader.cpp:30 | For `w != 0`, the stored position scaled by `w` gives back the first three components of `gl_Vertex`. |
| `Phong.IdentityKeepsCorner` | phong_shader.cpp:28-30 | With the identity as `uniform_M`, `gl_Vertex` is `(v, 1)` and the stored corner position is the mesh vertex itself. |
| `Phong.AffineCornerPosition` | phong_shader.cpp:29-30 | When the bottom row of `uniform_M` is (0, 0, 0, 1), `gl_Vertex` has `w = 1` and the stored position is its first three components. |
| `Phong.CornerNormalUsesLinearPart` | phong_shader.cpp:19-20 | A corner normal is transformed by the upper-left 3x3 block of `uniform_MIT` alone. The translation column and the bottom row play no part. |
| `Phong.ScreenPositionIsComposite` | phong_shader.cpp:29-38 | The returned point, ModelView then Projection then Viewport applied to `gl_Vertex`, equals the product `Viewport * Projection * ModelView` applied to `gl_Vertex`. |
| `Phong.Vertex` | phong_shader.cpp:7-39 | Row `nthvert` of `varying_uv`, `varying_nrm` and `varying_tri` gets the corner's uv, transformed normal and divided position. The other two rows of each and all uniforms are unchanged. The return value is the composite applied to the transformed point. |
| `Phong.VertexAppliesCameraTwice` | phong_shader.cpp:29-38 | With `uniform_M = Projection * ModelView`, the returned point has Projection and ModelView applied twice before Viewport. |
| `Phong.InterpolateAtCorner` | phong_shader.cpp:42-55 | The barycentric weights of a corner reproduce that corner's uv, normal and position. |
| `Phong.InterpolateConstant` | phong_shader.cpp:42-55 | Weights that sum to 1 reproduce a 2- or 3-component varying that is the same at all three corners. |
| `Phong.DecodeNormalComponent` | phong_shader.cpp:78-80 | A normal-map byte decodes into [-1, 1]. 0 maps to -1 and 255 maps to 1, and no other byte reaches either end. |
| `Phong.DecodeNormalComponentInverse` | phong_shader.cpp:78-80 | Mapping a decoded component back onto [0, 255] recovers the byte. |
| `Phong.DecodeNormalComponentMonotone` | phong_shader.cpp:78-80 | A larger byte decodes to a larger component. |
| `Phong.DecodeNormal` | phong_shader.cpp:75-80 | X comes from byte 2, Y from byte 1 and Z from byte 0. Each component lies in [-1, 1] before renormalisation. |
| `Phong.SurfaceNormal` | phong_shader.cpp:59-83 | With a usable normal map, the normal is the renormalised decoded texel sampled at the interpolated uv. Otherwise it is the (renormalised) interpolated normal, unchanged. |
| `Phong.DiffuseFactor` | phong_shader.cpp:99-100 | The diffuse factor is >= 0. It is 0 exactly when `n . l <= 0`, and equals `n . l` otherwise. |
| `Phong.SpecularTerm` | phong_shader.cpp:103-108 | The specular term is 0 whenever the diffuse factor is not positive. Otherwise it is `powf(max(0, n . h), exponent)` with `h` the normalised half vector. |
| `Phong.SpecularScaled` | phong_shader.cpp:111-125 | With a usable specular map, the term is multiplied by byte 0 of the texel over 255 and by `specular_intensity`. Without one it is left unscaled. A zero term stays zero. |
| `Phong.Albedo` | phong_shader.cpp:131-152 | A null or zero-sized diffuse map gives (0.8, 0.8, 0.8). Otherwise the albedo is bytes 2, 1, 0 of the texel over 255. Every channel lies in [0, 1]. |
| `Phong.CombineChannel` | phong_shader.cpp:156-162 | A combined channel lies in [0, 1]. With `raw = albedo*ambient + albedo*light*diff + light*spec`, it equals `raw` inside [0, 1], is 0 when `raw < 0` and 1 when `raw > 1`. |
| `Phong.Combine` | phong_shader.cpp:154-162 | Every channel of `result_color` lies in [0, 1]. Channel i combines the i-th components of albedo, ambient and light colour with the shared diffuse and specular factors. |
| `Phong.CombineUnlit` | phong_shader.cpp:157-161 | With no diffuse and no specular light, each channel is the clamped `albedo * ambient`. |
| `Phong.Shade` | phong_shader.cpp:41-162 | The uv is the interpolated one and the normal is the surface normal at it. Diffuse is the diffuse factor of that normal and the normalised light: >= 0, and 0 iff `n . l <= 0`. Specular is the map-scaled specular term, and 0 when diffuse is 0. The albedo is read from the diffuse map at the uv. Unusable maps give the fallback albedo and the unscaled specular term. The colour lies in [0, 1]^3 and combines the three light terms. |
| `Phong.FacingAwayIsUnlit` | phong_shader.cpp:98-125 | When the shading normal points away from the light, both the diffuse factor and the (possibly map-scaled) specular term are 0. |
| `Phong.FacingAwayIsAmbientOnly` | phong_shader.cpp:98-162 | A surface turned away from the light gets only the clamped ambient term per channel. |
| `Phong.NormalizeDirections` | phong_shader.cpp:94-95 | After a fragment call, `light_dir` and `view_dir` hold their normalisations. Every other uniform is unchanged. |
| `Phong.Fragment` | phong_shader.cpp:41-173 | Never discards. Alpha is 255. Each colour byte is the floor of 255 times the shaded channel. The shader's varyings are unchanged, and its uniforms have `light_dir` and `view_dir` normalised in place. |
| `Phong.FragmentIgnoresViewDir` | phong_shader.cpp:95 | The written colour does not depend on `view_dir`, which is normalised and then never used. |
| `Phong.ShadeSeesNormalizedLight` | phong_shader.cpp:94-108 | Shading reads `light_dir` only through its normalisation. Two light directions with the same normalisation give the same shading. |
| `Phong.LaterFragmentSameColor` | phong_shader.cpp:94-95 | When normalising the normalised light direction again changes nothing, a second fragment call on the updated shader writes the colour a call on the original shader would. |
| `Cameras.NewCamera` | camera.cpp:8-10 | The constructor stores exactly the given eye, center and up. |
| `Cameras.SetPosition` | camera.cpp:64-68 | `set_position` gives the camera the constructor would build from its arguments. Nothing of the old state survives. |
| `Cameras.RadiansHalfTurn` | camera.cpp:21-22 | `angle * M_PI / 180` maps 180 degrees to `M_PI`, 90 to `M_PI / 2` and 0 to 0, and it is additive. |
| `Cameras.ClampPitch` | camera.cpp:24-26 | The effective pitch lies in [-(pi/2 - 0.1), pi/2 - 0.1]. Inside that range it is unchanged, and outside it is the nearer limit. |
| `Cameras.FallbackRadius` | camera.cpp:14-18 | The fallback radius is `norm(eye - center)`, or 3 when that is below 1. So it is always >= 1. |
| `Cameras.OrbitRadius` | camera.cpp:12-18 | The radius `orbit` uses is the supplied one when it is > 0, and the fallback otherwise. It is always > 0. |
| `Cameras.Orbit` | camera.cpp:12-38 | `center` is unchanged and `up` is reset to (0, 1, 0). The eye is `center` plus the spherical offset at the effective radius, the yaw and the clamped pitch. |
| `Cameras.OrbitOffsetOnSphere` | camera.cpp:29-31 | When `cos^2 + sin^2 = 1` holds at the yaw and at the pitch, the spherical offset `(r cos p sin y, r sin p, r cos p cos y)` has length `r`. |
| `Cameras.OrbitOnSphere` | camera.cpp:12-34 | Under the same identity at the yaw and the clamped pitch, `orbit` puts the eye at the effective radius from the center. |
| `Cameras.OrbitDefaultRadius` | camera.cpp:14-18 | Orbiting with a radius <= 0 is the same as orbiting with the fallback radius passed explicitly. |
| `Cameras.DefaultCameraOrbitRadius` | camera.h:13-18 | Orbiting the default camera with the radius left out uses `norm` of its eye offset (0, 0, 3), or 3 if `norm` reports less than 1. With `norm(0, 0, 3) = 3` the radius is 3. |
| `Cameras.OrbitPitchSaturates` | camera.cpp:25-26 | Any two pitches at or beyond the upper limit give the same camera. |
| `Cameras.OrbitY` | camera.cpp:40-62 | `center` is unchanged and `up` is reset. The vertical offset `eye.y - center.y` is kept, and the horizontal offset is rotated by `cosf`/`sinf` of the angle. |
| `Cameras.OrbitYIgnoresNorm` | camera.cpp:42-44 | `orbit_y` gives the same camera whatever `norm` returns: the radius it computes is never used. |
| `Cameras.OrbitYIdentity` | camera.cpp:53-61 | When the angle's cosine is 1 and its sine is 0, `orbit_y` only resets `up`. |
| `Cameras.OrbitYKeepsHorizontalDistance` | camera.cpp:49-60 | When `cos^2 + sin^2 = 1` holds for the angle, the horizontal distance from eye to center is kept. |
| `Cameras.ViewBasis` | camera.cpp:71-73 | `f` is the normalised view direction, `s` the normalised `f x up` and the true up `u` is `s x f`. So `u` is orthogonal to both `s` and `f`, whatever `normalize` returns. |
| `Cameras.TranslationMovesPoint` | camera.cpp:76-83 | `Tr` takes the point `(p, 1)` to `(p - eye, 1)`. |
| `Cameras.RotationExpressesInBasis` | camera.cpp:75-82 | `Minv` takes `(d, w)` to `(s.d, u.d, -f.d, w)`: the coordinates of `d` in the basis (s, u, -f). |
| `Cameras.ViewMatrixEntries` | camera.cpp:75-85 | `Minv * Tr` has rows (s, -s.eye), (u, -u.eye), (-f, f.eye) and (0, 0, 0, 1). |
| `Cameras.ViewMatrixEye` | camera.cpp:75-85 | For any basis, `Minv * Tr` takes `(eye, 1)` to `(0, 0, 0, 1)`. |
| `Cameras.ViewMatrix` | camera.cpp:70-86 | The bottom row is (0, 0, 0, 1). Rows 0..2 of the 3x3 block are s, u and -f. The translation column is minus the eye in that basis. `(eye, 1)` maps to `(0, 0, 0, 1)`. |
| `Cameras.ViewMatrixCoordinates` | camera.cpp:70-86 | A world point maps to its offset from the eye expressed in the basis (s, u, -f), with w = 1. |
| `Cameras.BasisCoordinates` | camera.cpp:75-85 | The same holds for `Minv * Tr` built from any basis and eye. |
| `Cameras.AffineRow` | camera.cpp:78-85 | A row `(a, -a.eye)` of the product takes `(p, 1)` to `a.(p - eye)`. |
| `Driver.TightBoxOfOne` | KG3.cpp:28-29 | A single vertex is its own tightest box. |
| `Driver.TightBoxExtend` | KG3.cpp:31-37 | Taking the per-axis min and max with one more vertex keeps the box tight for the longer vertex list. |
| `Driver.ComputeModelBounds` | KG3.cpp:25-38 | With no vertices, `min` and `max` are untouched. Otherwise `min[j] <= v[j] <= max[j]` for every vertex and axis, and every bound component is attained by some vertex. |
| `Driver.ModelCenterInside` | KG3.cpp:53 | For a non-empty mesh, `min <= max` componentwise and `model_center` lies between them, as far from `min` as from `max`. |
| `Driver.InFrontIsVertexW` | KG3.cpp:138-140 | A corner passes the behind-camera test iff the vertex stage's return value for it has `w > 0`, whatever the shader's varyings held before. |
| `Driver.AcceptedIffAllCornersW` | KG3.cpp:137-146 | A face is accepted iff the vertex stage's result has `w > 0` at all three corners. |
| `Driver.CornersRun` | KG3.cpp:137-144 | The vertex stage runs on 1 to 3 corners of a face. Every corner before the last was in front. Stopping early means the last corner run was behind. All three run and pass iff the face is accepted. |
| `Driver.RunCorners` | KG3.cpp:135-144 | One face's corner loop makes exactly the calls for corners 0 .. first-behind. It reports the face valid iff all three `w > 0`. A valid face's screen coordinates and varyings are the face's own, whatever the shader held before. |
| `Driver.RenderFaces` | KG3.cpp:131-150 | The loop makes exactly the expected vertex-stage calls and `triangle()` calls. `rendered_faces` equals the number of `triangle()` calls and is <= `nfaces()`. |
| `Driver.FaceStep` | KG3.cpp:135-149 | One pass of the face loop appends that face's vertex-stage calls to the expected calls. It appends one `triangle()` call with the face's screen coordinates and varyings exactly when the face is valid. |
| `Driver.DrawnIffAccepted` | KG3.cpp:135-149 | A face is passed to `triangle()` iff it is one of the faces and all three of its vertex-stage results have `w > 0`. |
| `Driver.DrawnFacesAscend` | KG3.cpp:131-149 | The faces passed to `triangle()` for the first n faces lie below n and strictly increase. So no face is drawn twice, and with `DrawnIffAccepted` every accepted face is drawn exactly once. |
| `Driver.AscendAppend` | KG3.cpp:146-149 | Appending a call for a face above every face drawn so far, and below n, keeps the drawn faces below n and strictly increasing. |
| `Driver.DrawnAppend` | KG3.cpp:146-149 | After one more `triangle()` call, a face has been drawn iff it was drawn before or it is the face of the new call. |
| `Driver.DrawsAtMostFaces` | KG3.cpp:131-150 | There are never more `triangle()` calls than faces. |
| `Driver.CallIffEarlierCornersInFront` | KG3.cpp:137-143 | Corner k of a face is run iff every earlier corner of that face was in front. Processing stops at the first corner with `w <= 0`. |
| `Driver.CallsForIff` | KG3.cpp:131-144 | For any behind-camera test, the calls of the first n faces contain (face, k) iff the face is below n, k < 3 and the test passed on every earlier corner of that face. |
| `Driver.CornersRunIff` | KG3.cpp:137-144 | Corner k is among those a face's loop runs on iff k < 3 and every earlier corner was in front. |
| `Driver.FaceCallsMember` | KG3.cpp:137-138 | One face's calls contain (f, c) iff f is that face and c is below the number of corners run. |

## Left out

- Model loading, TGA image clearing, flipping and writing, and console output in the entry point: these are I/O. The `Model` and `TGAImage` implementations are not part of this model.
- `triangle()`, `viewport()`, `projection()` and `invert_transpose()`: they are not part of this model. `triangle()` is recorded as an event. The matrices the others build enter as parameters.
- IEEE float rounding, infinities and NaN: every `float` is an exact real. Constants such as `0.1f` and `0.8f` are taken at their decimal values.
- `Phong.PerspectiveDivide`: when `gl_Vertex` has `w = 0`, the C++ code stores IEEE infinities or NaN in `varying_tri`. The model stores the zero vector instead.
- `normalize`, `norm`, `powf`, `sinf`, `cosf` are uninterpreted. So no property states that lighting values are numerically right. Orbit positions lie on a sphere only under the stated trigonometric identity (`Cameras.OrbitOnSphere`).
- The vector header the renderer is built on (`geometry.h`, with `Vec3f`, `embed`, `proj` and the in-place `normalize()`) is not part of this model. Its operations are written out over exact reals in `Geometry`.
- `Phong.Fragment`: returns the uniforms the call leaves behind, but the face loop does not run the fragment stage, because `triangle()` is not part of this model. So the model does not follow `light_dir` and `view_dir` through a whole frame. The vertex stage does not read either of them.
- Overflow of `int rendered_faces` and of the float-to-int texel conversion: the counter is a `nat`, and over exact reals the converted value already lies in 0 .. size-1.
- The camera placement in the entry point (eye from `sinf`/`cosf` of a fixed angle, `focal_length / distance`) and the shader setup: these are configuration, and they only enter the model as parameter values.
