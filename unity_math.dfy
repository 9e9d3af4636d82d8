/**
 * The engine value types the controller scripts compute with: 2D and 3D
 * vectors, vector length and normalisation, `Mathf.Clamp`, and the 32-bit
 * signed integer of C#. Floating-point values are modelled as exact reals.
 */
module UnityMath {

  datatype Vec2 = Vec2(x: real, y: real)
  datatype Vec3 = Vec3(x: real, y: real, z: real)

  const Zero2 := Vec2(0.0, 0.0)
  const Zero3 := Vec3(0.0, 0.0, 0.0)

  /** `k * v` for a scalar and a 3D vector. */
  function Scale(k: real, v: Vec3): Vec3 {
    Vec3(k * v.x, k * v.y, k * v.z)
  }

  /**
   * The product of two quantities that are both unknown. Written as a named
   * function so that the solver treats such products as terms and never
   * needs non-linear arithmetic to compare two of them.
   */
  function Mul(a: real, b: real): real {
    a * b
  }

  /**
   * What the model knows of `m` as the length of `v` (`Vector2.magnitude`):
   * it is non-negative and zero exactly for the zero vector. Its value for
   * other vectors (a square root) is left open.
   */
  predicate IsMagnitude(m: real, v: Vec2) {
    0.0 <= m && (m == 0.0 <==> v == Zero2)
  }

  /**
   * `new Vector3(v.x, 0, v.y).normalized` where `m` is the length of `v`:
   * the zero vector stays zero and any other vector is divided by its
   * length (so `m` times the result gives the vector back).
   */
  function Normalized(v: Vec2, m: real): (r: Vec3)
    requires IsMagnitude(m, v)
    ensures r.y == 0.0
    ensures v == Zero2 ==> r == Zero3
    ensures v != Zero2 ==> Mul(r.x, m) == v.x && Mul(r.z, m) == v.y
  {
    if m == 0.0 then Zero3 else Vec3(v.x / m, 0.0, v.y / m)
  }

  /**
   * `Mathf.Clamp(value, min, max)`: below `min` gives `min`, otherwise above
   * `max` gives `max`, otherwise the value itself.
   */
  function Clamp(value: real, min: real, max: real): (r: real)
    ensures min <= max ==> min <= r <= max
    ensures min <= value <= max ==> r == value
    ensures r == value || r == min || r == max
  {
    if value < min then min
    else if value > max then max
    else value
  }

  const Int32Min: int := -0x8000_0000
  const Int32Max: int := 0x7fff_ffff

  /** The C# `int`. */
  newtype int32 = x: int | Int32Min <= x <= Int32Max

  /** `n++` on a C# `int` in an unchecked context: the largest value wraps to the smallest. */
  function Increment(n: int32): (r: int32)
    ensures (r as int - n as int - 1) % 0x1_0000_0000 == 0
    ensures n as int < Int32Max ==> r as int == n as int + 1
  {
    if n as int == Int32Max then Int32Min as int32 else n + 1
  }
}
