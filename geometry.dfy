/** Three-component vectors over the reals. Distances, heights and velocities
    in the modelled scripts are only compared and added, so `real` stands for
    the engine's `float` (rounding is not modelled). */
module Geometry {

  datatype Vec3 = Vec3(x: real, y: real, z: real) {

    function Plus(other: Vec3): Vec3
    {
      Vec3(x + other.x, y + other.y, z + other.z)
    }

    function Scale(k: real): Vec3
    {
      Vec3(k * x, k * y, k * z)
    }

    /** The squared length of the horizontal (x, z) part, as `sqrMagnitude`
        of `new Vector3(v.x, 0, v.z)`. */
    function HorizontalSqrMagnitude(): (r: real)
      ensures r >= 0.0
    {
      x * x + z * z
    }

    /** The squared distance to `other`, as `(a - b).sqrMagnitude`. */
    function SqrDistance(other: Vec3): (r: real)
      ensures r >= 0.0
    {
      (x - other.x) * (x - other.x) + (y - other.y) * (y - other.y) + (z - other.z) * (z - other.z)
    }
  }

  const Zero := Vec3(0.0, 0.0, 0.0)
}
