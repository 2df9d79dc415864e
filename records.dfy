// The value types the mesh converters pass around (System.Numerics vectors,
// Material, ObjTriangle, MdbTriangle, CollisionBox).
module Records {
  import opened Wrappers
  import opened Machine
  import opened Float32

  datatype Vec2 = Vec2(x: F32, y: F32)
  datatype Vec3 = Vec3(x: F32, y: F32, z: F32)

  const Origin: Vec3 := Vec3(Zero, Zero, Zero)

  /** A material of the OBJ/MDB converters: its name and its texture file. */
  datatype Material = Material(matName: string, texName: string)

  /** One corner of an OBJ face: the 1-based vertex, texture and normal numbers (an `int[3]`). */
  type Corner = s: seq<int> | |s| == 3 witness [0, 0, 0]

  datatype ObjTriangle = ObjTriangle(p0: Corner, p1: Corner, p2: Corner)

  /** A face read from an MDB model block: three 0-based vertex numbers. */
  datatype MdbTriangle = MdbTriangle(p0: u16, p1: u16, p2: u16)

  /**
   * A collision box and its sub-boxes. Level is the depth the box was
   * created at; a box without a child has `None` there (a null reference).
   */
  datatype Box = Box(
    name: string, level: u32,
    position: Vec3, cross: Vec3, forward: Vec3, up: Vec3, length: Vec3,
    left: Option<Box>, right: Option<Box>)

  /** `new CollisionBox()`: no name, level 0, zero vectors, no children. */
  const NewBox: Box := Box("", 0, Origin, Origin, Origin, Origin, Origin, None, None)

  /** Number of boxes in a hierarchy. */
  function BoxCount(b: Box): (n: nat)
    ensures n >= 1
  {
    1 + (if b.left.Some? then BoxCount(b.left.value) else 0)
      + (if b.right.Some? then BoxCount(b.right.value) else 0)
  }

  /** The number of boxes in a child slot. */
  function SubCount(o: Option<Box>): nat
  {
    if o.Some? then BoxCount(o.value) else 0
  }
}
