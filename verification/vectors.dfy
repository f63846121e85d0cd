/**
  Small vector algebra over exact reals and integers, standing in for the glm
  vectors of the renderer. Rounding of single-precision floats is not modelled.
 */
module Vectors {

  datatype Vec2 = Vec2(x: real, y: real)

  datatype Vec3 = Vec3(x: real, y: real, z: real)

  /** An integer vector: the axis-aligned directions of the cube-face tables. */
  datatype IVec3 = IVec3(x: int, y: int, z: int)

  function Add(a: Vec3, b: Vec3): Vec3
  {
    Vec3(a.x + b.x, a.y + b.y, a.z + b.z)
  }

  function Sub(a: Vec3, b: Vec3): Vec3
  {
    Vec3(a.x - b.x, a.y - b.y, a.z - b.z)
  }

  function Scale(k: real, a: Vec3): Vec3
  {
    Vec3(k * a.x, k * a.y, k * a.z)
  }

  function Dot(a: Vec3, b: Vec3): real
  {
    a.x * b.x + a.y * b.y + a.z * b.z
  }

  function Cross(a: Vec3, b: Vec3): Vec3
  {
    Vec3(a.y * b.z - a.z * b.y, a.z * b.x - a.x * b.z, a.x * b.y - a.y * b.x)
  }

  /** Squared Euclidean length; `glm::length(v) < e` is `LengthSquared(v) < e * e` for e >= 0. */
  function LengthSquared(a: Vec3): real
  {
    Dot(a, a)
  }

  /** Squared distance between two points of the plane. */
  function DistanceSquared(a: Vec2, b: Vec2): real
  {
    (a.x - b.x) * (a.x - b.x) + (a.y - b.y) * (a.y - b.y)
  }

  function IDot(a: IVec3, b: IVec3): int
  {
    a.x * b.x + a.y * b.y + a.z * b.z
  }

  function ToReal(a: IVec3): Vec3
  {
    Vec3(a.x as real, a.y as real, a.z as real)
  }

  /** The straight-down vector (0, -1, 0), the fallback light direction. */
  const Down: Vec3 := Vec3(0.0, -1.0, 0.0)

  /** True when `a` is one of the six unit axis directions. */
  predicate IsUnitAxis(a: IVec3)
  {
    || a == IVec3(1, 0, 0) || a == IVec3(-1, 0, 0)
    || a == IVec3(0, 1, 0) || a == IVec3(0, -1, 0)
    || a == IVec3(0, 0, 1) || a == IVec3(0, 0, -1)
  }

  function Max(a: real, b: real): real
  {
    if a >= b then a else b
  }

  function Abs(a: real): real
  {
    if a >= 0.0 then a else -a
  }
}
