// Three-component vectors of reals, standing for the renderer's
// single-precision `vec3` (rounding and NaN are not modelled).

module Vectors {
  datatype Vec3 = Vec3(x: real, y: real, z: real)

  function Add(a: Vec3, b: Vec3): Vec3
  {
    Vec3(a.x + b.x, a.y + b.y, a.z + b.z)
  }

  const ZERO: Vec3 := Vec3(0.0, 0.0, 0.0)
}
