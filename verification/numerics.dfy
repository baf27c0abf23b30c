/**
 Scalar helpers shared by the shader, the camera and the driver.

 Every `float` of the renderer is an exact `real` here; the C++ conversions
 that matter for indexing and quantisation (float to int truncation,
 float to unsigned char) and the `std::min`/`std::max` calls are written out.
 */
module Numerics {

  /** An 8-bit colour channel, as stored in a TGA texel. */
  type Byte = b: int | 0 <= b < 256

  /** `std::max(a, b)` on floats. */
  function Max(a: real, b: real): (r: real)
    ensures r >= a && r >= b
    ensures r == a || r == b
  {
    if a < b then b else a
  }

  /** `std::min(a, b)` on floats. */
  function Min(a: real, b: real): (r: real)
    ensures r <= a && r <= b
    ensures r == a || r == b
  {
    if b < a then b else a
  }

  /** `std::min(1.0f, std::max(0.0f, x))`: clamps a colour channel into [0, 1]. */
  function Clamp01(x: real): (r: real)
    ensures 0.0 <= r <= 1.0
    ensures 0.0 <= x <= 1.0 ==> r == x
    ensures x < 0.0 ==> r == 0.0
    ensures x > 1.0 ==> r == 1.0
  {
    Min(1.0, Max(0.0, x))
  }

  /** `x - floor(x)`: the fractional part used to wrap texture coordinates. */
  function Frac(x: real): (r: real)
    ensures 0.0 <= r < 1.0
    ensures (x - r).Floor as real == x - r
  {
    x - x.Floor as real
  }

  /** Shifting by a whole number does not change the fractional part. */
  lemma FracShift(x: real, k: int)
    ensures Frac(x + k as real) == Frac(x)
  {
    assert (x + k as real).Floor == x.Floor + k;
  }

  /** The C++ conversion `(int)x`, which truncates toward zero. */
  function Trunc(x: real): (r: int)
    ensures x >= 0.0 ==> 0 <= r && r as real <= x < r as real + 1.0
    ensures x < 0.0 ==> r <= 0 && r as real - 1.0 < x <= r as real
  {
    if x >= 0.0 then x.Floor else -((-x).Floor)
  }

  /** `(unsigned char)(x * 255)` for a channel already clamped into [0, 1]. */
  function Quantize(x: real): (b: Byte)
    requires 0.0 <= x <= 1.0
    ensures b as real <= x * 255.0 < b as real + 1.0
    ensures b == 255 <==> x == 1.0
    ensures b == 0 <==> x < 1.0 / 255.0
  {
    Trunc(x * 255.0)
  }
}
