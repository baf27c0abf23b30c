/**
 Real-valued vectors and 4x4 matrices: the part of the renderer's vector
 library that the shader, the camera and the driver rely on. Matrices are
 stored by rows, `m.r0` being row 0, as `Matrix` is indexed `m[row][col]`.
 */
module Geometry {

  datatype Vec2 = Vec2(x: real, y: real)

  datatype Vec3 = Vec3(x: real, y: real, z: real) {

    /** Component `j`, as `v[j]`. */
    function Get(j: int): real
      requires 0 <= j < 3
    {
      if j == 0 then x else if j == 1 then y else z
    }

    /** This vector with component `j` replaced, as `v[j] = c`. */
    function With(j: int, c: real): (r: Vec3)
      requires 0 <= j < 3
      ensures r.Get(j) == c
      ensures forall i :: 0 <= i < 3 && i != j ==> r.Get(i) == Get(i)
    {
      if j == 0 then this.(x := c) else if j == 1 then this.(y := c) else this.(z := c)
    }
  }

  datatype Vec4 = Vec4(x: real, y: real, z: real, w: real)

  function Add(a: Vec3, b: Vec3): Vec3 {
    Vec3(a.x + b.x, a.y + b.y, a.z + b.z)
  }

  function Sub(a: Vec3, b: Vec3): Vec3 {
    Vec3(a.x - b.x, a.y - b.y, a.z - b.z)
  }

  function Scale(a: Vec3, s: real): Vec3 {
    Vec3(a.x * s, a.y * s, a.z * s)
  }

  function Neg(a: Vec3): Vec3 {
    Vec3(-a.x, -a.y, -a.z)
  }

  /** The dot product, written `a * b` on vectors in the renderer. */
  function Dot(a: Vec3, b: Vec3): real {
    a.x * b.x + a.y * b.y + a.z * b.z
  }

  function Cross(a: Vec3, b: Vec3): Vec3 {
    Vec3(a.y * b.z - a.z * b.y, a.z * b.x - a.x * b.z, a.x * b.y - a.y * b.x)
  }

  /** Over exact reals a cross product is orthogonal to both of its operands. */
  lemma CrossOrthogonal(a: Vec3, b: Vec3)
    ensures Dot(Cross(a, b), a) == 0.0
    ensures Dot(Cross(a, b), b) == 0.0
  {
  }

  function Dot4(a: Vec4, b: Vec4): real {
    a.x * b.x + a.y * b.y + a.z * b.z + a.w * b.w
  }

  /** `embed<4>(v, fill)`: the homogeneous vector (v, fill). */
  function Embed(v: Vec3, fill: real): Vec4 {
    Vec4(v.x, v.y, v.z, fill)
  }

  /** `proj<3>(v)`: the first three components. */
  function Proj3(v: Vec4): Vec3 {
    Vec3(v.x, v.y, v.z)
  }

  datatype Mat4 = Mat4(r0: Vec4, r1: Vec4, r2: Vec4, r3: Vec4)

  const Identity: Mat4 :=
    Mat4(Vec4(1.0, 0.0, 0.0, 0.0), Vec4(0.0, 1.0, 0.0, 0.0),
         Vec4(0.0, 0.0, 1.0, 0.0), Vec4(0.0, 0.0, 0.0, 1.0))

  /** Row vector `r` times matrix `b`: component j is `r` dotted with column j of `b`. */
  function RowTimes(r: Vec4, b: Mat4): Vec4 {
    Vec4(r.x * b.r0.x + r.y * b.r1.x + r.z * b.r2.x + r.w * b.r3.x,
         r.x * b.r0.y + r.y * b.r1.y + r.z * b.r2.y + r.w * b.r3.y,
         r.x * b.r0.z + r.y * b.r1.z + r.z * b.r2.z + r.w * b.r3.z,
         r.x * b.r0.w + r.y * b.r1.w + r.z * b.r2.w + r.w * b.r3.w)
  }

  /** The matrix product `a * b`. */
  function Mul(a: Mat4, b: Mat4): Mat4 {
    Mat4(RowTimes(a.r0, b), RowTimes(a.r1, b), RowTimes(a.r2, b), RowTimes(a.r3, b))
  }

  /** The matrix-vector product `m * v`. */
  function Apply(m: Mat4, v: Vec4): Vec4 {
    Vec4(Dot4(m.r0, v), Dot4(m.r1, v), Dot4(m.r2, v), Dot4(m.r3, v))
  }

  function Add4(a: Vec4, b: Vec4): Vec4 {
    Vec4(a.x + b.x, a.y + b.y, a.z + b.z, a.w + b.w)
  }

  function Scale4(a: Vec4, k: real): Vec4 {
    Vec4(k * a.x, k * a.y, k * a.z, k * a.w)
  }

  /** A row times a matrix is the combination of the matrix's rows weighted by the row's entries. */
  lemma RowTimesCombination(r: Vec4, b: Mat4)
    ensures RowTimes(r, b) ==
      Add4(Add4(Add4(Scale4(b.r0, r.x), Scale4(b.r1, r.y)), Scale4(b.r2, r.z)), Scale4(b.r3, r.w))
  {
  }

  lemma Dot4Add(a: Vec4, b: Vec4, v: Vec4)
    ensures Dot4(Add4(a, b), v) == Dot4(a, v) + Dot4(b, v)
  {
  }

  lemma Dot4Scale(a: Vec4, k: real, v: Vec4)
    ensures Dot4(Scale4(a, k), v) == k * Dot4(a, v)
  {
  }

  lemma RowTimesApply(r: Vec4, b: Mat4, v: Vec4)
    ensures Dot4(RowTimes(r, b), v) == Dot4(r, Apply(b, v))
  {
    RowTimesCombination(r, b);
    var p01 := Add4(Scale4(b.r0, r.x), Scale4(b.r1, r.y));
    var p012 := Add4(p01, Scale4(b.r2, r.z));
    Dot4Add(p012, Scale4(b.r3, r.w), v);
    Dot4Add(p01, Scale4(b.r2, r.z), v);
    Dot4Add(Scale4(b.r0, r.x), Scale4(b.r1, r.y), v);
    Dot4Scale(b.r0, r.x, v);
    Dot4Scale(b.r1, r.y, v);
    Dot4Scale(b.r2, r.z, v);
    Dot4Scale(b.r3, r.w, v);
  }

  /** Applying a product is applying its factors right to left. */
  lemma ApplyMul(a: Mat4, b: Mat4, v: Vec4)
    ensures Apply(Mul(a, b), v) == Apply(a, Apply(b, v))
  {
    RowTimesApply(a.r0, b, v);
    RowTimesApply(a.r1, b, v);
    RowTimesApply(a.r2, b, v);
    RowTimesApply(a.r3, b, v);
  }
}
