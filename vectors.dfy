/** The 3-vector helpers of the transform library (utils/helpers.js):
    `subtract`, `cross` and `dot`. A JavaScript array `[x, y, z]` is a `Vec3`. */
module Vectors {

  datatype Vec3 = Vec3(x: real, y: real, z: real)

  const ZERO: Vec3 := Vec3(0.0, 0.0, 0.0)

  /** Component `i` of `v`, for the array reading `v[i]`. */
  function Component(v: Vec3, i: nat): real
    requires i < 3
  {
    if i == 0 then v.x else if i == 1 then v.y else v.z
  }

  /** `subtract(a, b)`: the vector from `b` to `a`; it is zero exactly when the points coincide. */
  function Subtract(a: Vec3, b: Vec3): (r: Vec3)
    ensures r == ZERO <==> a == b
    ensures Vec3(r.x + b.x, r.y + b.y, r.z + b.z) == a
  {
    Vec3(a.x - b.x, a.y - b.y, a.z - b.z)
  }

  /** `dot(a, b)`. */
  function Dot(a: Vec3, b: Vec3): (r: real)
    ensures a == b ==> r >= 0.0
  {
    a.x * b.x + a.y * b.y + a.z * b.z
  }

  /** `cross(a, b)`: perpendicular to both of its arguments. */
  function Cross(a: Vec3, b: Vec3): (r: Vec3)
    ensures Dot(r, a) == 0.0 && Dot(r, b) == 0.0
  {
    Vec3(a.y * b.z - a.z * b.y, a.z * b.x - a.x * b.z, a.x * b.y - a.y * b.x)
  }

  /** `k` times `v`, component by component. */
  function Scale(k: real, v: Vec3): Vec3 {
    Vec3(k * v.x, k * v.y, k * v.z)
  }

  lemma DotSymmetric(a: Vec3, b: Vec3)
    ensures Dot(a, b) == Dot(b, a)
  {
  }

  /** Swapping the arguments of `cross` negates the result. */
  lemma CrossAntiCommutative(a: Vec3, b: Vec3)
    ensures Cross(a, b) == Vec3(-Cross(b, a).x, -Cross(b, a).y, -Cross(b, a).z)
  {
  }

  /** A vector crossed with itself is zero. */
  lemma CrossSelf(a: Vec3)
    ensures Cross(a, a) == ZERO
  {
  }
}
