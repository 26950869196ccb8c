/** Vectors, colours and the wall constants shared by every room and door model. */
module Geometry {

  /** A Babylon `Vector3`, over exact reals. */
  datatype Vec3 = Vec3(x: real, y: real, z: real)

  /** A Babylon `Color3`. */
  datatype Color3 = Color3(r: real, g: real, b: real)

  const Zero: Vec3 := Vec3(0.0, 0.0, 0.0)

  function Add(a: Vec3, b: Vec3): Vec3 {
    Vec3(a.x + b.x, a.y + b.y, a.z + b.z)
  }

  function Sub(a: Vec3, b: Vec3): Vec3 {
    Vec3(a.x - b.x, a.y - b.y, a.z - b.z)
  }

  function Scale(a: Vec3, k: real): Vec3 {
    Vec3(a.x * k, a.y * k, a.z * k)
  }

  /** The `WallModel` constants (src/wallModel.ts). */
  const WALL_HEIGHT: real := 10.0
  const WALL_THICKNESS: real := 1.0

  /** A velocity written to a physics body, kept symbolic so that no square root is needed:
      `Heading(d, s, l)` stands for `normalize(d) * s + (0, l, 0)`, where normalizing the
      zero vector gives the zero vector, as Babylon's `normalize` does. */
  datatype VelocityCommand = Heading(direction: Vec3, speed: real, lift: real)

  /** The four wall names used by the rooms' exit tables and by `createExit`. */
  predicate IsDirectionName(direction: string) {
    direction == "north" || direction == "south" || direction == "east" || direction == "west"
  }

  /** A value of `Math.random()`: at least 0 and below 1. */
  type UnitInterval = r: real | 0.0 <= r < 1.0

  /** The horizontal part of a vector: its y component zeroed. */
  function Horizontal(v: Vec3): Vec3 {
    Vec3(v.x, 0.0, v.z)
  }

  /** The squared length of the vector's horizontal part. */
  function HorizontalLengthSquared(v: Vec3): real {
    v.x * v.x + v.z * v.z
  }
}
