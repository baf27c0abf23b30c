/**
 The transcendental and square-root operations the renderer calls, kept
 uninterpreted: every model operation that needs them takes a `MathLib`
 and nothing is assumed about what its fields return.
 */
module Libm {
  import opened Geometry

  datatype MathLib = MathLib(
    normalize: Vec3 -> Vec3,      // `v.normalize()`
    norm: Vec3 -> real,           // `v.norm()`
    powf: (real, real) -> real,   // `powf(base, exponent)`
    sinf: real -> real,           // `sinf(angle)`
    cosf: real -> real            // `cosf(angle)`
  )
}
