/** The engine's value types, kept abstract: only the operations the scripts use on them. */
module Geometry {

  /** A Vector3 with exact real components (floating point is not modelled). */
  datatype Vec3 = Vec3(x: real, y: real, z: real)

  /** A rotation, kept opaque: the scripts only store and restore it. */
  datatype Quaternion = Quaternion(x: real, y: real, z: real, w: real)

  const ZERO: Vec3 := Vec3(0.0, 0.0, 0.0)

  /** default(Quaternion): the all-zero value an unassigned field holds. */
  const ZERO_QUATERNION: Quaternion := Quaternion(0.0, 0.0, 0.0, 0.0)

  /** Mathf.Max on two values. */
  function Max(a: real, b: real): (m: real)
    ensures m >= a && m >= b
    ensures m == a || m == b
  {
    if a > b then a else b
  }
}
