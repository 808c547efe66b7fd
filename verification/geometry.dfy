/**
 * World-space vectors. Coordinates are idealised reals in place of the
 * engine's 32-bit floats; the vertical axis is y.
 */
module Geometry {

  datatype Vec3 = Vec3(x: real, y: real, z: real)

  const Zero := Vec3(0.0, 0.0, 0.0)

  function Add(a: Vec3, b: Vec3): Vec3 {
    Vec3(a.x + b.x, a.y + b.y, a.z + b.z)
  }

  function Sub(a: Vec3, b: Vec3): Vec3 {
    Vec3(a.x - b.x, a.y - b.y, a.z - b.z)
  }

  function Scale(a: Vec3, s: real): Vec3 {
    Vec3(a.x * s, a.y * s, a.z * s)
  }

  function Dot(a: Vec3, b: Vec3): real {
    a.x * b.x + a.y * b.y + a.z * b.z
  }

  /** A direction of length one, as `normalize` produces. */
  predicate IsUnit(a: Vec3) {
    Dot(a, a) == 1.0
  }

  /** `p` raised by `h` along the vertical axis. */
  function Raised(p: Vec3, h: real): Vec3 {
    Add(p, Vec3(0.0, h, 0.0))
  }

  lemma DotScaleLeft(a: Vec3, s: real, b: Vec3)
    ensures Dot(Scale(a, s), b) == s * Dot(a, b)
  {
  }

  lemma DotAddLeft(a: Vec3, b: Vec3, c: Vec3)
    ensures Dot(Add(a, b), c) == Dot(a, c) + Dot(b, c)
  {
  }
}
