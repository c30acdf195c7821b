/** Integer positions in the world; the originals are 32-bit, these are unbounded. */
module Vectors {
  datatype Vec2 = Vec2(x: int, y: int)

  datatype Vec3 = Vec3(x: int, y: int, z: int)
  {
    function Plus(d: Vec3): Vec3 {
      Vec3(x + d.x, y + d.y, z + d.z)
    }

    function Up(k: int): Vec3 {
      Vec3(x, y, z + k)
    }
  }
}
