/**
 * Vectors, quaternions and 4x4 matrices shared by the scene runtime.
 *
 * f32 and f64 values are modelled as `real`. Vectors and quaternions are
 * concrete records. A `Mat4` is a term over the operations the runtime
 * applies to matrices (identity, composition from scale/rotation/translation,
 * product, inverse); no algebraic law of matrices is assumed, so every
 * property proved about a matrix holds of glam's matrices as well.
 */
module Geometry {

  datatype Vec3 = Vec3(x: real, y: real, z: real)

  /** glam's quaternion, stored with fields named as in `from_xyzw`. */
  datatype Quat = Quat(x: real, y: real, z: real, w: real)

  datatype Mat4 =
    | Identity
    | FromScaleRotationTranslation(scale: Vec3, rotation: Quat, translation: Vec3)
    | Mul(lhs: Mat4, rhs: Mat4)
    | Inverse(m: Mat4)

  function Add(a: Vec3, b: Vec3): Vec3 { Vec3(a.x + b.x, a.y + b.y, a.z + b.z) }

  function Sub(a: Vec3, b: Vec3): Vec3 { Vec3(a.x - b.x, a.y - b.y, a.z - b.z) }

  function MulScalar(a: Vec3, k: real): Vec3 { Vec3(a.x * k, a.y * k, a.z * k) }

  function LengthSquared(a: Vec3): real { a.x * a.x + a.y * a.y + a.z * a.z }

  const Zero: Vec3 := Vec3(0.0, 0.0, 0.0)
}
