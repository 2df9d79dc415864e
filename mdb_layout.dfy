// The byte layout of an MDB file as ObjTool writes it and MdbTool reads it:
// model blocks, the material table, the bounding values, the collision box
// records, the hit box and the trailing string table. Every record is a
// little-endian tagged structure; lengths and counts are back-patched.
module MdbLayout {
  import opened Wrappers
  import opened Machine
  import opened Float32
  import opened Binary
  import opened Records
  import opened Text
  import opened ObjPack

  // ================================================================ axes

  /** OBJ (x, y, z) to MDB (x, -z, y): what the converter stores for positions and box vectors. */
  function ToMdbAxes(p: Vec3): Vec3
  {
    Vec3(p.x, Neg(p.z), p.y)
  }

  /** What MdbTool.WriteObj prints for an MDB position: (X, Z, -Y). */
  function ToObjAxes(p: Vec3): Vec3
  {
    Vec3(p.x, p.z, Neg(p.y))
  }

  /** The two axis changes undo each other, in both orders. */
  lemma AxesRoundTrip(p: Vec3)
    ensures ToObjAxes(ToMdbAxes(p)) == p
    ensures ToMdbAxes(ToObjAxes(p)) == p
  {
    NegInvolution(p.y);
    NegInvolution(p.z);
  }

  /** The texture coordinate V negation, in either direction. */
  function FlipV(t: Vec2): Vec2
  {
    Vec2(t.x, Neg(t.y))
  }

  lemma FlipVRoundTrip(t: Vec2)
    ensures FlipV(FlipV(t)) == t
  {
    NegInvolution(t.y);
  }

  // ================================================================ model blocks

  /** A point of an MDB model as stored: position, texture coordinate and the two normal angles. */
  datatype MdbVertex = MdbVertex(v: Vec3, vt: Vec2, vn: Vec2)

  function Vec3Bytes(p: Vec3): (r: seq<byte>)
    ensures |r| == 12
  {
    FloatBytes(p.x) + (FloatBytes(p.y) + FloatBytes(p.z))
  }

  function Vec2Bytes(p: Vec2): (r: seq<byte>)
    ensures |r| == 8
  {
    FloatBytes(p.x) + FloatBytes(p.y)
  }

  /** One vertex record: tag 32, the seven floats, then FF FF FF FF. */
  function VertexRecord(m: MdbVertex): (r: seq<byte>)
    ensures |r| == 36
  {
    I32Bytes(32) + (Vec3Bytes(m.v) + (Vec2Bytes(m.vt) + (Vec2Bytes(m.vn) + I32Bytes(-1))))
  }

  function Vertices(vs: seq<MdbVertex>): (r: seq<byte>)
    ensures |r| == 36 * |vs|
  {
    if |vs| == 0 then [] else VertexRecord(vs[0]) + Vertices(vs[1..])
  }

  /** One triangle record: tag 8, the corners in reverse order, then the material index. */
  function TriRecord(t: MdbTriangle, mat: u16): (r: seq<byte>)
    ensures |r| == 12
  {
    I32Bytes(8) + (U16Bytes(t.p2) + (U16Bytes(t.p1) + (U16Bytes(t.p0) + U16Bytes(mat))))
  }

  function GroupTris(mat: u16, tris: seq<MdbTriangle>): (r: seq<byte>)
    ensures |r| == 12 * |tris|
  {
    if |tris| == 0 then [] else TriRecord(tris[0], mat) + GroupTris(mat, tris[1..])
  }

  /** The number of triangles of all face groups. */
  function TriCount(groups: seq<TriGroup>): nat
  {
    if |groups| == 0 then 0 else |groups[0].tris| + TriCount(groups[1..])
  }

  function AllTris(groups: seq<TriGroup>): (r: seq<byte>)
    ensures |r| == 12 * TriCount(groups)
  {
    if |groups| == 0 then [] else GroupTris(groups[0].matIndex, groups[0].tris) + AllTris(groups[1..])
  }

  /** The bytes from the block length field to the end of the last triangle. */
  function ModelLength(vCount: nat, tCount: nat): nat
  {
    16 + 36 * vCount + 12 * tCount
  }

  /**
   * What WriteGroup appends: the back-patched block length, the model index,
   * the vertex count and vertices, the back-patched triangle count and the
   * triangles, and a zero (the animation count).
   */
  function ModelBlock(modelIndex: int, verts: seq<MdbVertex>, groups: seq<TriGroup>): (r: seq<byte>)
    ensures |r| == ModelLength(|verts|, TriCount(groups)) + 4
  {
    I32Bytes(ModelLength(|verts|, TriCount(groups)))
    + (I32Bytes(modelIndex) + (I32Bytes(|verts|) + (Vertices(verts)
    + (I32Bytes(TriCount(groups)) + (AllTris(groups) + I32Bytes(0))))))
  }

  // ================================================================ materials

  const FloatOne := 1065353216

  /** The 72 bytes of constant material data: 1.0 x8, 0 x3, 1.0, 0 x3, 1.0, 0 x2. */
  function MaterialData(): (r: seq<byte>)
    ensures |r| == 72
  {
    var one := I32Bytes(FloatOne);
    var zero := I32Bytes(0);
    one + one + one + one + one + one + one + one + zero + zero + zero + one + zero + zero + zero + one + zero + zero
  }

  /** `n` consecutive Write(x) calls on an int. */
  function Words(x: int, n: nat): (r: seq<byte>)
    ensures |r| == 4 * n
  {
    if n == 0 then [] else Words(x, n - 1) + I32Bytes(x)
  }

  /** The constant material data as the runs of 1.0 and 0 WriteMaterials writes. */
  lemma MaterialDataWords()
    ensures MaterialData()
         == Words(FloatOne, 8) + Words(0, 3) + I32Bytes(FloatOne) + Words(0, 3) + I32Bytes(FloatOne) + Words(0, 2)
  {
  }

  /** One material record: the block length, the texture file name (length-prefixed) and the data. */
  function MaterialRecord(m: Material): (r: seq<byte>)
    ensures |r| == 80 + |GetFileName(m.texName)|
  {
    var t := GetFileName(m.texName);
    I32Bytes(76 + |t|) + (I32Bytes(|t|) + (StringBytes(t) + MaterialData()))
  }

  function MaterialRecords(mats: seq<Material>): seq<byte>
  {
    if |mats| == 0 then [] else MaterialRecord(mats[0]) + MaterialRecords(mats[1..])
  }

  lemma {:induction false} MaterialRecordsSnoc(mats: seq<Material>, m: Material)
    ensures MaterialRecords(mats + [m]) == MaterialRecords(mats) + MaterialRecord(m)
    decreases |mats|
  {
    if |mats| == 0 {
      assert MaterialRecords([m]) == MaterialRecord(m) + MaterialRecords([]);
    } else {
      assert (mats + [m])[1..] == mats[1..] + [m];
      MaterialRecordsSnoc(mats[1..], m);
      Assoc(MaterialRecord(mats[0]), MaterialRecords(mats[1..]), MaterialRecord(m));
    }
  }

  /** WriteMaterials: the count, the records, then a zero bone count. */
  function MaterialsBlock(mats: seq<Material>): seq<byte>
  {
    I32Bytes(|mats|) + (MaterialRecords(mats) + I32Bytes(0))
  }

  /** A material's block length counts the bytes after the length field. */
  lemma MaterialLengthField(m: Material)
    ensures MaterialRecord(m)[..4] == I32Bytes(|MaterialRecord(m)| - 4)
  {
  }

  // ================================================================ bounding values

  /**
   * WriteBoundingValues: the minimum and maximum corners and the centre in
   * MDB axes, then the radius. The centre and the radius are computed in
   * floating point and are inputs here.
   */
  function BoundingBlock(min: Vec3, max: Vec3, center: Vec3, radius: F32): (r: seq<byte>)
    ensures |r| == 40
  {
    Vec3Bytes(Vec3(min.x, Neg(max.z), min.y)) + Vec3Bytes(Vec3(max.x, Neg(min.z), max.y))
    + Vec3Bytes(ToMdbAxes(center)) + FloatBytes(radius)
  }

  // ================================================================ collision boxes

  /** Math.Max over the three half lengths: the radius field. */
  function Radius(length: Vec3): F32
  {
    Max(Max(length.x, length.y), length.z)
  }

  /** The box fields up to tag 11: tags 2, 72, 3, position, 4, 0, 5, cross, 6, up, 7, forward, 8, length, 9, radius, 10, level, 11. */
  function BoxHead(b: Box): (r: seq<byte>)
    ensures |r| == 116
  {
    I32Bytes(2) + (I32Bytes(72) + (I32Bytes(3) + (Vec3Bytes(ToMdbAxes(b.position))
    + (I32Bytes(4) + (I32Bytes(0) + (I32Bytes(5) + (Vec3Bytes(ToMdbAxes(b.cross))
    + (I32Bytes(6) + (Vec3Bytes(ToMdbAxes(b.up))
    + (I32Bytes(7) + (Vec3Bytes(ToMdbAxes(b.forward))
    + (I32Bytes(8) + (Vec3Bytes(b.length)
    + (I32Bytes(9) + (FloatBytes(Radius(b.length))
    + (I32Bytes(10) + (U32Bytes(b.level) + I32Bytes(11))))))))))))))))))
  }

  /** The triangle index list: 0 below the root; at level 0 the count and (15, i) for each i. */
  function IndexList(level: u32, tCount: nat): seq<byte>
  {
    if level != 0 then I32Bytes(0) else I32Bytes(tCount) + Indices(0, tCount)
  }

  function Indices(from: nat, to: nat): (r: seq<byte>)
    ensures |r| == 8 * (if from <= to then to - from else 0)
    decreases if from <= to then to - from else 0
  {
    if from >= to then [] else I32Bytes(15) + (I32Bytes(from) + Indices(from + 1, to))
  }

  /** The index loop one pass further: the pair (15, hi) is appended. */
  lemma {:induction false} IndicesSnoc(lo: nat, hi: nat)
    requires lo <= hi
    ensures Indices(lo, hi + 1) == Indices(lo, hi) + (I32Bytes(15) + I32Bytes(hi))
    decreases hi - lo
  {
    if lo < hi {
      IndicesSnoc(lo + 1, hi);
      Assoc(I32Bytes(15), I32Bytes(lo), Indices(lo + 1, hi) + (I32Bytes(15) + I32Bytes(hi)));
      Assoc(I32Bytes(15) + I32Bytes(lo), Indices(lo + 1, hi), I32Bytes(15) + I32Bytes(hi));
      Assoc(I32Bytes(15), I32Bytes(lo), Indices(lo + 1, hi));
    }
  }

  /**
   * WriteCollisionBox: the back-patched block length, then the body: the
   * head, the child flags (HasLeftChild, tag 12, HasRightChild) and the
   * child records (tag 13 before the left one, 16 before the right one),
   * tag 14 and the index list.
   */
  function BoxRecord(b: Box, tCount: nat): (r: seq<byte>)
    ensures |r| >= 4
    decreases b, 2
  {
    var body := BoxBody(b, tCount);
    I32Bytes(4 + |body|) + body
  }

  function BoxBody(b: Box, tCount: nat): seq<byte>
    decreases b, 1
  {
    BoxHead(b) + (Children(b, tCount) + (I32Bytes(14) + IndexList(b.level, tCount)))
  }

  function Children(b: Box, tCount: nat): seq<byte>
    decreases b, 0
  {
    BoolBytes(b.left.Some?) + (I32Bytes(12) + (BoolBytes(b.right.Some?)
    + ((if b.left.Some? then I32Bytes(13) + BoxRecord(b.left.value, tCount) else [])
    + (if b.right.Some? then I32Bytes(16) + BoxRecord(b.right.value, tCount) else []))))
  }

  /** A child's tag and record when there is one, nothing when there is none. */
  function ChildRecord(tag: int, child: Option<Box>, tCount: nat): (r: seq<byte>)
    ensures child.None? ==> r == []
  {
    if child.Some? then I32Bytes(tag) + BoxRecord(child.value, tCount) else []
  }

  /** The children part of a box: both flags, tag 12 between them, then the child records. */
  lemma ChildrenParts(b: Box, tCount: nat)
    ensures Children(b, tCount) == BoolBytes(b.left.Some?) + (I32Bytes(12) + (BoolBytes(b.right.Some?)
      + (ChildRecord(13, b.left, tCount) + ChildRecord(16, b.right, tCount))))
  {
  }

  /** Every box's length field counts the whole record, itself included. */
  lemma BoxLengthField(b: Box, tCount: nat)
    requires |BoxRecord(b, tCount)| < 0x8000_0000
    ensures ReadI32(BoxRecord(b, tCount)) == Some((|BoxRecord(b, tCount)|, BoxRecord(b, tCount)[4..]))
  {
    I32RoundTrip(4 + |BoxBody(b, tCount)|, BoxBody(b, tCount));
  }

  // ================================================================ hit box

  /** One hit box triangle: tags 19, 48 (the bytes that follow), 20, then the corners P2, P1, P0 in MDB axes with tags 21 and 22. */
  function HitRecord(p0: Vec3, p1: Vec3, p2: Vec3): (r: seq<byte>)
    ensures |r| == 56
  {
    I32Bytes(19) + (I32Bytes(48) + (I32Bytes(20) + (Vec3Bytes(ToMdbAxes(p2))
    + (I32Bytes(21) + (Vec3Bytes(ToMdbAxes(p1)) + (I32Bytes(22) + Vec3Bytes(ToMdbAxes(p0))))))))
  }

  /** The 48 announced by a hit box record is the number of bytes after it. */
  lemma HitRecordLength(p0: Vec3, p1: Vec3, p2: Vec3)
    ensures |HitRecord(p0, p1, p2)| - 8 == 48
  {
  }

  // ================================================================ strings

  /** The string table WriteStrings appends, as (length written, text written) pairs. */
  const StringTable: seq<(int, string)> := [
    (8, "MeshData"), (4, "Root"), (10, "LocalBasis"), (8, "Position"),
    (20, "LookAt Vector Length"), (19, "Orientation - Cross"), (21, "Orientation - Forward"),
    (16, "Orientation - Up"), (6, "Length"), (6, "Radius"), (5, "Level"),
    (12, "HasLeftChild"), (13, "HasRightChild"),
    (39, "Valid Collision Triangle Indices - Size"), (42, "Valid Collision Triangle Indices - Element"),
    (8, "MaxLevel"), (25, "CollisionTriangles - Size"), (28, "CollisionTriangles - Element"),
    (2, "P0"), (2, "P1"), (2, "P2")]

  /** The table holds as many entries as the count written before it, and every length written is the text's length. */
  lemma StringTableConsistent()
    ensures |StringTable| == 21
    ensures forall i :: 0 <= i < |StringTable| ==> StringTable[i].0 == |StringTable[i].1|
  {
  }

  function StringEntries(table: seq<(int, string)>): seq<byte>
  {
    if |table| == 0 then [] else I32Bytes(table[0].0) + StringBytes(table[0].1) + StringEntries(table[1..])
  }

  function StringsBlock(): seq<byte>
  {
    I32Bytes(21) + StringEntries(StringTable)
  }

  // ================================================================ file header

  /**
   * The 16-byte header rewritten at the end of a file: the position of the
   * end of the hit box plus one (a long), that position minus 11, and the
   * model count.
   */
  function Header(endPos: nat, models: nat): (r: seq<byte>)
    ensures |r| == 16
  {
    I64Bytes(endPos + 1) + I32Bytes(endPos - 11) + I32Bytes(models)
  }
}
