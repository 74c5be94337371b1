/** The vector and matrix vocabulary the engine takes from GLM.
    Vectors are exact real triples; the operations the engine only passes
    around (matrix products, projections, trigonometry, 1/|v|) are
    uninterpreted, with just the one law the model needs (1/|v| > 0). */
module Glm {

  type PositiveReal = r: real | r > 0.0 witness 1.0

  datatype Vec2 = Vec2(x: real, y: real)
  datatype Vec3 = Vec3(x: real, y: real, z: real)
  datatype Vec4 = Vec4(x: real, y: real, z: real, w: real)

  const ZERO: Vec3 := Vec3(0.0, 0.0, 0.0)
  const ONES: Vec3 := Vec3(1.0, 1.0, 1.0)

  function Add(a: Vec3, b: Vec3): Vec3 { Vec3(a.x + b.x, a.y + b.y, a.z + b.z) }
  function Sub(a: Vec3, b: Vec3): Vec3 { Vec3(a.x - b.x, a.y - b.y, a.z - b.z) }
  function Neg(a: Vec3): Vec3 { Vec3(-a.x, -a.y, -a.z) }
  /** Component-wise product with a scalar (glm's vec3 * float). */
  function Scale(a: Vec3, s: real): Vec3 { Vec3(s * a.x, s * a.y, s * a.z) }

  function Cross(a: Vec3, b: Vec3): Vec3 {
    Vec3(a.y * b.z - a.z * b.y, a.z * b.x - a.x * b.z, a.x * b.y - a.y * b.x)
  }

  /** `glm::length(v) > 0`: over the reals the length is positive exactly
      when some coordinate is non-zero. */
  predicate HasPositiveLength(v: Vec3) { v != ZERO }

  /** 1 / |v|; only its sign is known. */
  const InverseLength: Vec3 -> PositiveReal

  /** glm::normalize: v scaled by 1 / |v|. */
  function Normalize(v: Vec3): Vec3 { Scale(v, InverseLength(v)) }

  lemma PositiveFactorCancels(s: real, x: real)
    requires s > 0.0
    ensures s * x == 0.0 <==> x == 0.0
  {
  }

  /** Scaling by a positive factor keeps a vector non-zero. */
  lemma ScalePositiveKeepsNonZero(v: Vec3, s: real)
    requires s > 0.0
    ensures HasPositiveLength(Scale(v, s)) <==> HasPositiveLength(v)
  {
    PositiveFactorCancels(s, v.x);
    PositiveFactorCancels(s, v.y);
    PositiveFactorCancels(s, v.z);
  }

  /** Normalising keeps a vector non-zero (and the zero vector zero). */
  lemma NormalizeKeepsLength(v: Vec3)
    ensures HasPositiveLength(Normalize(v)) <==> HasPositiveLength(v)
  {
    ScalePositiveKeepsNonZero(v, InverseLength(v));
  }

  const Sin: real -> real
  const Cos: real -> real

  /** glm::radians multiplies by this factor. */
  const RADIANS_PER_DEGREE: real := 0.01745329251994329576923690768489

  function Radians(degrees: real): real { degrees * RADIANS_PER_DEGREE }

  /** glm::clamp / std::clamp. */
  function Clamp(x: real, lo: real, hi: real): (r: real)
    requires lo <= hi
    ensures lo <= r <= hi
    ensures lo <= x <= hi ==> r == x
    ensures x < lo ==> r == lo
    ensures x > hi ==> r == hi
  {
    if x < lo then lo else if hi < x then hi else x
  }

  /** 4x4 single-precision matrices, only ever combined by the operations below. */
  type Mat4(==, 0)

  /** Matrix product a * b. */
  const Mul: (Mat4, Mat4) -> Mat4
  /** glm::mat4(1.0f). */
  const Identity: Mat4
  /** glm::translate(m, v). */
  const Translate: (Mat4, Vec3) -> Mat4
  /** glm::rotate(m, angleRadians, axis). */
  const Rotate: (Mat4, real, Vec3) -> Mat4
  /** glm::scale(m, v). */
  const ScaleBy: (Mat4, Vec3) -> Mat4
  /** glm::lookAt(eye, target, up). */
  const LookAt: (Vec3, Vec3, Vec3) -> Mat4
  /** glm::ortho(left, right, bottom, top, near, far). */
  const Ortho: (real, real, real, real, real, real) -> Mat4
  /** glm::perspective(fovyRadians, aspect, near, far). */
  const Perspective: (real, real, real, real) -> Mat4
  /** glm::mat4(c0, c1, c2, c3): the matrix with these columns. */
  const FromColumns: (Vec4, Vec4, Vec4, Vec4) -> Mat4

  function Plus4(a: Vec4, b: Vec4): Vec4 { Vec4(a.x + b.x, a.y + b.y, a.z + b.z, a.w + b.w) }
  function Times4(a: Vec4, s: real): Vec4 { Vec4(s * a.x, s * a.y, s * a.z, s * a.w) }

  /** (glm::mat4(c0, c1, c2, c3)) * v: GLM matrices are column-major, so the
      product is the combination of the columns weighted by v's coordinates. */
  function ApplyColumns(c0: Vec4, c1: Vec4, c2: Vec4, c3: Vec4, v: Vec4): Vec4 {
    Plus4(Plus4(Times4(c0, v.x), Times4(c1, v.y)), Plus4(Times4(c2, v.z), Times4(c3, v.w)))
  }
}
