/** Three-component vectors, standing for three.js `Vector3` values whose
    float components are modelled as reals. */
module Vectors {

  datatype Vec3 = Vec3(x: real, y: real, z: real)

  const Zero: Vec3 := Vec3(0.0, 0.0, 0.0)
}
