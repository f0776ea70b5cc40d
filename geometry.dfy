/** World-space values carried between the weapon, decal and impact actors. */
module Geometry {

  datatype Vec = Vec(x: real, y: real, z: real)

  /** A four-component vector; the impact actor packs a position and a damage value. */
  datatype Vec4 = Vec4(x: real, y: real, z: real, w: real)

  const Origin: Vec := Vec(0.0, 0.0, 0.0)
}
