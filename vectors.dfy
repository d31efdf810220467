/** Three-component real vectors: the `vec3` arithmetic the spring and kinematics code relies on. */
module Vectors {

  datatype Vec3 = Vec3(x: real, y: real, z: real)

  const Zero: Vec3 := Vec3(0.0, 0.0, 0.0)

  function Add(a: Vec3, b: Vec3): Vec3 {
    Vec3(a.x + b.x, a.y + b.y, a.z + b.z)
  }

  function Sub(a: Vec3, b: Vec3): Vec3 {
    Vec3(a.x - b.x, a.y - b.y, a.z - b.z)
  }

  /** `v * s` of the source: a vector times a scalar. */
  function Scale(v: Vec3, s: real): Vec3 {
    Vec3(v.x * s, v.y * s, v.z * s)
  }

  /** `s * v` of the source: a scalar times a vector. */
  function ScaleBy(s: real, v: Vec3): Vec3 {
    Vec3(s * v.x, s * v.y, s * v.z)
  }

  function Cross(a: Vec3, b: Vec3): Vec3 {
    Vec3(a.y * b.z - a.z * b.y, a.z * b.x - a.x * b.z, a.x * b.y - a.y * b.x)
  }

  // Identities the spring proofs rewrite with, one vector operation at a time.

  lemma ScaleOfZero(s: real)
    ensures Scale(Zero, s) == Zero
  {
  }

  lemma ScaleByOfZero(s: real)
    ensures ScaleBy(s, Zero) == Zero
  {
  }

  lemma ScaleByZero(v: Vec3)
    ensures Scale(v, 0.0) == Zero
  {
  }

  lemma ScaleByOne(v: Vec3)
    ensures ScaleBy(1.0, v) == v
  {
  }

  lemma AddZero(v: Vec3)
    ensures Add(v, Zero) == v && Add(Zero, v) == v
  {
  }

  lemma SubZero(v: Vec3)
    ensures Sub(v, Zero) == v && Sub(v, v) == Zero
  {
  }
}
