// MdbTool.ReadBox as a function of the box it fills, the box counter and
// the unread part of the file, and the vector reads it shares with ReadMdb.
module MdbBoxRead {
  import opened Wrappers
  import opened Machine
  import opened Float32
  import opened Binary
  import opened Records
  import opened Text
  import opened ObjPack
  import opened MtlRead
  import opened MdbLayout

  // ================================================================ vectors

  /** Three floats in file order: a vertex position or a box length. */
  function ReadVec3(s: seq<byte>): (r: Option<(Vec3, seq<byte>)>)
    ensures r.Some? ==> |r.value.1| == |s| - 12
  {
    match ReadFloat(s)
    case None => None
    case Some((x, s1)) =>
      match ReadFloat(s1)
      case None => None
      case Some((y, s2)) =>
        match ReadFloat(s2)
        case None => None
        case Some((z, s3)) => Some((Vec3(x, y, z), s3))
  }

  /** A box vector: X, then Z negated, then Y, which brings MDB axes back to OBJ axes. */
  function ReadSwapped(s: seq<byte>): (r: Option<(Vec3, seq<byte>)>)
    ensures r.Some? ==> |r.value.1| == |s| - 12
  {
    match ReadVec3(s)
    case None => None
    case Some((p, rest)) => Some((Vec3(p.x, p.z, Neg(p.y)), rest))
  }

  function ReadVec2(s: seq<byte>): (r: Option<(Vec2, seq<byte>)>)
    ensures r.Some? ==> |r.value.1| == |s| - 8
  {
    match ReadFloat(s)
    case None => None
    case Some((x, s1)) =>
      match ReadFloat(s1)
      case None => None
      case Some((y, s2)) => Some((Vec2(x, y), s2))
  }

  lemma ReadVec3Of(p: Vec3, rest: seq<byte>)
    ensures ReadVec3(Vec3Bytes(p) + rest) == Some((p, rest))
  {
    var fx, fy, fz := FloatBytes(p.x), FloatBytes(p.y), FloatBytes(p.z);
    assert Vec3Bytes(p) + rest == fx + (fy + (fz + rest));
    FloatRoundTrip(p.x, fy + (fz + rest));
    FloatRoundTrip(p.y, fz + rest);
    FloatRoundTrip(p.z, rest);
  }

  /** A vector written in MDB axes reads back as the OBJ-axes vector it came from. */
  lemma ReadSwappedOf(p: Vec3, rest: seq<byte>)
    ensures ReadSwapped(Vec3Bytes(ToMdbAxes(p)) + rest) == Some((p, rest))
  {
    ReadVec3Of(ToMdbAxes(p), rest);
    NegInvolution(p.z);
  }

  lemma ReadVec2Of(p: Vec2, rest: seq<byte>)
    ensures ReadVec2(Vec2Bytes(p) + rest) == Some((p, rest))
  {
    assert Vec2Bytes(p) + rest == FloatBytes(p.x) + (FloatBytes(p.y) + rest);
    FloatRoundTrip(p.x, FloatBytes(p.y) + rest);
    FloatRoundTrip(p.y, rest);
  }

  // ================================================================ collision boxes

  /** The fields ReadBox takes from one box record, up to its child flags. */
  datatype HeadFields = HeadFields(
    position: Vec3, cross: Vec3, up: Vec3, forward: Vec3, length: Vec3,
    hasLeft: bool, hasRight: bool)

  /**
   * The reads of ReadBox from the position to HasRightChild: the four
   * orientation vectors swapped back to OBJ axes, the length as stored, and
   * the skips over the tags, the radius and the level in between.
   */
  function ReadHead(s: seq<byte>): (r: Option<(HeadFields, seq<byte>)>)
    ensures r.Some? ==> |r.value.1| < |s|
  {
    match ReadSwapped(s)
    case None => None
    case Some((position, s1)) =>
      match ReadSwapped(Skip(s1, 12))
      case None => None
      case Some((cross, s2)) =>
        match ReadSwapped(Skip(s2, 4))
        case None => None
        case Some((up, s3)) =>
          match ReadSwapped(Skip(s3, 4))
          case None => None
          case Some((forward, s4)) =>
            match ReadVec3(Skip(s4, 4))
            case None => None
            case Some((length, s5)) =>
              match ReadBool(Skip(Skip(s5, 4), 16))
              case None => None
              case Some((hasLeft, s6)) =>
                match ReadBool(Skip(s6, 4))
                case None => None
                case Some((hasRight, s7)) =>
                  Some((HeadFields(position, cross, up, forward, length, hasLeft, hasRight), s7))
  }

  /** The box after ReadBox, the unread rest, the box counter, and whether every read succeeded. */
  datatype BoxStep = BoxStep(box: Box, rest: seq<byte>, counter: nat, ok: bool)

  function BoxName(counter: nat): string
  {
    "_BOX" + NatToString(counter)
  }

  /** `triCount * 8` in the source's unsigned 32-bit arithmetic: the bytes of an index list. */
  function IndexBytes(triCount: u32): (r: nat)
    ensures triCount * 8 < 0x1_0000_0000 ==> r == triCount * 8
  {
    (triCount * 8) % 0x1_0000_0000
  }

  /**
   * ReadBox(reader, box) with boxNumber == counter: the box is renamed
   * first; its level is not read; a child whose flag is set is replaced by a
   * new box read recursively, a child whose flag is clear is left as it was;
   * the triangle index list is skipped over (its size times 8, in 32-bit
   * unsigned arithmetic). A box whose fields cannot be read keeps only its
   * new name; a child that fails is still attached.
   */
  function ReadBoxSpec(b: Box, s: seq<byte>, counter: nat): (r: BoxStep)
    ensures |r.rest| <= |s|
    ensures r.counter > counter
    decreases |s|, 1
  {
    var named := b.(name := BoxName(counter));
    match ReadHead(Skip(s, 12))
    case None => BoxStep(named, [], counter + 1, false)
    case Some((h, s1)) =>
      ReadChildren(named.(position := h.position, cross := h.cross, up := h.up,
                          forward := h.forward, length := h.length), h, s1, counter + 1)
  }

  /** The rest of ReadBox once the fields are read: the left child, the right child, the index list. */
  function ReadChildren(b: Box, h: HeadFields, s: seq<byte>, counter: nat): (r: BoxStep)
    ensures |r.rest| <= |s|
    ensures r.counter >= counter
    decreases |s|, 3
  {
    var left := ReadChild(h.hasLeft, s, counter);
    var b1 := if h.hasLeft then b.(left := Some(left.box)) else b;
    if !left.ok then BoxStep(b1, [], left.counter, false)
    else
      var right := ReadChild(h.hasRight, left.rest, left.counter);
      var b2 := if h.hasRight then b1.(right := Some(right.box)) else b1;
      if !right.ok then BoxStep(b2, [], right.counter, false)
      else
        match SkipIndices(right.rest)
        case None => BoxStep(b2, [], right.counter, false)
        case Some(s2) => BoxStep(b2, s2, right.counter, true)
  }

  /** A child slot: when its flag is set, skip tag and length and read a new box into it. */
  function ReadChild(present: bool, s: seq<byte>, counter: nat): (r: BoxStep)
    ensures |r.rest| <= |s|
    ensures r.counter >= counter
    decreases |s|, 2
  {
    if present then ReadBoxSpec(NewBox, Skip(s, 8), counter) else BoxStep(NewBox, s, counter, true)
  }

  /** The end of a box record: tag 14, the index count, and that many 8-byte indices skipped. */
  function SkipIndices(s: seq<byte>): (r: Option<seq<byte>>)
    ensures r.Some? ==> |r.value| <= |s|
  {
    match ReadU32(Skip(s, 4))
    case None => None
    case Some((triCount, s2)) => Some(Skip(s2, IndexBytes(triCount)))
  }

  /**
   * The tree ReadBox builds from the records of `b` into `prev` with the
   * counter at `c`: `b`'s geometry and shape, names numbered in pre-order
   * from `c`, `prev`'s level, and `prev`'s children where `b` has none.
   */
  function ReadBack(prev: Box, b: Box, c: nat): (r: Box)
    decreases b
  {
    var leftCount := if b.left.Some? then BoxCount(b.left.value) else 0;
    Box(BoxName(c), prev.level, b.position, b.cross, b.forward, b.up, b.length,
        if b.left.Some? then Some(ReadBack(NewBox, b.left.value, c + 1)) else prev.left,
        if b.right.Some? then Some(ReadBack(NewBox, b.right.value, c + 1 + leftCount)) else prev.right)
  }

  /** The tail of a box head from the radius tag on, followed by `tail`. */
  function AfterLength(b: Box, tail: seq<byte>): seq<byte>
  {
    I32Bytes(9) + (FloatBytes(Radius(b.length)) + (I32Bytes(10) + (U32Bytes(b.level) + (I32Bytes(11) + tail))))
  }

  /** A box head followed by `tail`, regrouped so that each read takes the leftmost piece. */
  function HeadThen(b: Box, tail: seq<byte>): seq<byte>
  {
    I32Bytes(2) + (I32Bytes(72) + (I32Bytes(3) + (Vec3Bytes(ToMdbAxes(b.position))
    + (I32Bytes(4) + (I32Bytes(0) + (I32Bytes(5) + (Vec3Bytes(ToMdbAxes(b.cross))
    + (I32Bytes(6) + (Vec3Bytes(ToMdbAxes(b.up))
    + (I32Bytes(7) + (Vec3Bytes(ToMdbAxes(b.forward))
    + (I32Bytes(8) + (Vec3Bytes(b.length) + AfterLength(b, tail))))))))))))))
  }

  lemma HeadThenIs(b: Box, tail: seq<byte>)
    ensures BoxHead(b) + tail == HeadThen(b, tail)
  {
  }

  lemma SkipThree(a: seq<byte>, b: seq<byte>, c: seq<byte>, x: seq<byte>)
    requires |a| == |b| == |c| == 4
    ensures Skip(a + (b + (c + x)), 12) == x
  {
    assert (a + (b + (c + x)))[12..] == x;
  }

  lemma SkipFour(a: seq<byte>, b: seq<byte>, c: seq<byte>, d: seq<byte>, x: seq<byte>)
    requires |a| == |b| == |c| == |d| == 4
    ensures Skip(a + (b + (c + (d + x))), 16) == x
  {
    assert (a + (b + (c + (d + x))))[16..] == x;
  }

  lemma ReadFlags(hasLeft: bool, hasRight: bool, x: seq<byte>)
    ensures ReadBool(BoolBytes(hasLeft) + (I32Bytes(12) + (BoolBytes(hasRight) + x)))
         == Some((hasLeft, I32Bytes(12) + (BoolBytes(hasRight) + x)))
    ensures ReadBool(Skip(I32Bytes(12) + (BoolBytes(hasRight) + x), 4)) == Some((hasRight, x))
  {
    BoolRoundTrip(hasLeft, I32Bytes(12) + (BoolBytes(hasRight) + x));
    assert Skip(I32Bytes(12) + (BoolBytes(hasRight) + x), 4) == BoolBytes(hasRight) + x;
    BoolRoundTrip(hasRight, x);
  }

  /** ReadBox's reads over a box head written by WriteCollisionBox recover the five vectors and the two child flags. */
  lemma ReadHeadOf(b: Box, hasLeft: bool, hasRight: bool, x: seq<byte>)
    ensures ReadHead(Skip(BoxHead(b) + (BoolBytes(hasLeft) + (I32Bytes(12) + (BoolBytes(hasRight) + x))), 12))
         == Some((HeadFields(b.position, b.cross, b.up, b.forward, b.length, hasLeft, hasRight), x))
  {
    var tail := BoolBytes(hasLeft) + (I32Bytes(12) + (BoolBytes(hasRight) + x));
    var t9 := AfterLength(b, tail);
    var tL := Vec3Bytes(b.length) + t9;
    var t8 := I32Bytes(8) + tL;
    var tF := Vec3Bytes(ToMdbAxes(b.forward)) + t8;
    var t7 := I32Bytes(7) + tF;
    var tU := Vec3Bytes(ToMdbAxes(b.up)) + t7;
    var t6 := I32Bytes(6) + tU;
    var tC := Vec3Bytes(ToMdbAxes(b.cross)) + t6;
    var t4 := I32Bytes(4) + (I32Bytes(0) + (I32Bytes(5) + tC));
    var tP := Vec3Bytes(ToMdbAxes(b.position)) + t4;
    HeadThenIs(b, tail);
    SkipThree(I32Bytes(2), I32Bytes(72), I32Bytes(3), tP);
    ReadSwappedOf(b.position, t4);
    SkipThree(I32Bytes(4), I32Bytes(0), I32Bytes(5), tC);
    ReadSwappedOf(b.cross, t6);
    SkipPrefix(I32Bytes(6), tU);
    ReadSwappedOf(b.up, t7);
    SkipPrefix(I32Bytes(7), tF);
    ReadSwappedOf(b.forward, t8);
    SkipPrefix(I32Bytes(8), tL);
    ReadVec3Of(b.length, t9);
    SkipPrefix(I32Bytes(9), FloatBytes(Radius(b.length)) + (I32Bytes(10) + (U32Bytes(b.level) + (I32Bytes(11) + tail))));
    SkipFour(FloatBytes(Radius(b.length)), I32Bytes(10), U32Bytes(b.level), I32Bytes(11), tail);
    ReadFlags(hasLeft, hasRight, x);
  }

  /** After the children, tag 14 and the index list are skipped exactly, whatever the box's level. */
  lemma SkipIndexList(level: u32, t: nat, rest: seq<byte>)
    requires t * 8 < 0x1_0000_0000
    ensures SkipIndices(I32Bytes(14) + (IndexList(level, t) + rest)) == Some(rest)
  {
    if level != 0 {
      assert IndexList(level, t) == I32Bytes(0);
      SkipEmptyList(rest);
    } else {
      assert IndexList(level, t) == I32Bytes(t) + Indices(0, t);
      Assoc(I32Bytes(t), Indices(0, t), rest);
      SkipFullList(t, rest);
    }
  }

  lemma SkipEmptyList(rest: seq<byte>)
    ensures SkipIndices(I32Bytes(14) + (I32Bytes(0) + rest)) == Some(rest)
  {
    SkipPrefix(I32Bytes(14), I32Bytes(0) + rest);
    assert I32Bytes(0) == U32Bytes(0);
    U32RoundTrip(0, rest);
    assert Skip(rest, IndexBytes(0)) == rest;
  }

  lemma SkipFullList(t: nat, rest: seq<byte>)
    requires t * 8 < 0x1_0000_0000
    ensures SkipIndices(I32Bytes(14) + (I32Bytes(t) + (Indices(0, t) + rest))) == Some(rest)
  {
    SkipPrefix(I32Bytes(14), I32Bytes(t) + (Indices(0, t) + rest));
    assert I32Bytes(t) == U32Bytes(t);
    U32RoundTrip(t, Indices(0, t) + rest);
    assert IndexBytes(t) == |Indices(0, t)|;
    SkipPrefix(Indices(0, t), rest);
  }

  /** A child record after its 4-byte tag: the 8 bytes ReadBox skips lead to the child's body. */
  lemma SkipToChild(tag: int, c: Box, t: nat, x: seq<byte>)
    ensures Skip((I32Bytes(tag) + BoxRecord(c, t)) + x, 8) == BoxBody(c, t) + x
  {
    var body := BoxBody(c, t);
    var head := I32Bytes(tag) + I32Bytes(4 + |body|);
    assert BoxRecord(c, t) == I32Bytes(4 + |body|) + body;
    Assoc(I32Bytes(tag), I32Bytes(4 + |body|), body);
    Assoc(head, body, x);
    SkipPrefix(head, body + x);
  }

  /** A box body followed by `rest`, regrouped as ReadBox consumes it. */
  lemma BodyThen(b: Box, t: nat, rest: seq<byte>)
    ensures BoxBody(b, t) + rest
         == BoxHead(b) + (BoolBytes(b.left.Some?) + (I32Bytes(12) + (BoolBytes(b.right.Some?)
            + ((if b.left.Some? then I32Bytes(13) + BoxRecord(b.left.value, t) else [])
            + ((if b.right.Some? then I32Bytes(16) + BoxRecord(b.right.value, t) else [])
            + (I32Bytes(14) + (IndexList(b.level, t) + rest)))))))
  {
    var lb := if b.left.Some? then I32Bytes(13) + BoxRecord(b.left.value, t) else [];
    var rb := if b.right.Some? then I32Bytes(16) + BoxRecord(b.right.value, t) else [];
    var fl, tg, fr := BoolBytes(b.left.Some?), I32Bytes(12), BoolBytes(b.right.Some?);
    var idx := I32Bytes(14) + IndexList(b.level, t);
    assert Children(b, t) == fl + (tg + (fr + (lb + rb)));
    assert BoxBody(b, t) == BoxHead(b) + (fl + (tg + (fr + (lb + rb))) + idx);
    Assoc(BoxHead(b), fl + (tg + (fr + (lb + rb))), idx);
    Assoc(BoxHead(b), (fl + (tg + (fr + (lb + rb)))) + idx, rest);
    Assoc(fl + (tg + (fr + (lb + rb))), idx, rest);
    Assoc(fl, tg + (fr + (lb + rb)), idx + rest);
    Assoc(tg, fr + (lb + rb), idx + rest);
    Assoc(fr, lb + rb, idx + rest);
    Assoc(lb, rb, idx + rest);
    Assoc(I32Bytes(14), IndexList(b.level, t), rest);
  }

  /** The box ReadBox leaves after a successful read of the fields and of both children. */
  function Assembled(prev: Box, c: nat, h: HeadFields, left: Box, right: Box): Box
  {
    var filled := prev.(name := BoxName(c), position := h.position, cross := h.cross, up := h.up,
                        forward := h.forward, length := h.length);
    var b1 := if h.hasLeft then filled.(left := Some(left)) else filled;
    if h.hasRight then b1.(right := Some(right)) else b1
  }

  /** One successful pass of ReadBox, with the results of the recursive reads given. */
  lemma ReadBoxUnfold(prev: Box, s: seq<byte>, c: nat, h: HeadFields, x: seq<byte>,
                      left: Box, y: seq<byte>, leftCounter: nat,
                      right: Box, tail: seq<byte>, rightCounter: nat, rest: seq<byte>)
    requires ReadHead(Skip(s, 12)) == Some((h, x))
    requires ReadChild(h.hasLeft, x, c + 1) == BoxStep(left, y, leftCounter, true)
    requires ReadChild(h.hasRight, y, leftCounter) == BoxStep(right, tail, rightCounter, true)
    requires SkipIndices(tail) == Some(rest)
    ensures ReadBoxSpec(prev, s, c) == BoxStep(Assembled(prev, c, h, left, right), rest, rightCounter, true)
  {
    var filled := prev.(name := BoxName(c), position := h.position, cross := h.cross, up := h.up,
                        forward := h.forward, length := h.length);
    HeadUnfold(prev, s, c, h, x);
    ChildrenUnfold(filled, h, x, c + 1, left, y, leftCounter, right, tail, rightCounter, rest);
  }

  lemma HeadUnfold(prev: Box, s: seq<byte>, c: nat, h: HeadFields, x: seq<byte>)
    requires ReadHead(Skip(s, 12)) == Some((h, x))
    ensures ReadBoxSpec(prev, s, c)
         == ReadChildren(prev.(name := BoxName(c), position := h.position, cross := h.cross, up := h.up,
                               forward := h.forward, length := h.length), h, x, c + 1)
  {
  }

  lemma ChildrenUnfold(b: Box, h: HeadFields, x: seq<byte>, c: nat,
                       left: Box, y: seq<byte>, leftCounter: nat,
                       right: Box, tail: seq<byte>, rightCounter: nat, rest: seq<byte>)
    requires ReadChild(h.hasLeft, x, c) == BoxStep(left, y, leftCounter, true)
    requires ReadChild(h.hasRight, y, leftCounter) == BoxStep(right, tail, rightCounter, true)
    requires SkipIndices(tail) == Some(rest)
    ensures ReadChildren(b, h, x, c)
         == BoxStep(if h.hasRight then (if h.hasLeft then b.(left := Some(left)) else b).(right := Some(right))
                    else (if h.hasLeft then b.(left := Some(left)) else b), rest, rightCounter, true)
  {
  }

  /** The bytes of a child slot: nothing, or the tag and the child's record. */
  function ChildBytes(o: Option<Box>, tag: int, t: nat): seq<byte>
  {
    if o.Some? then I32Bytes(tag) + BoxRecord(o.value, t) else []
  }

  /** The head of a box record and its child flags, read from the record's body. */
  lemma HeadPart(b: Box, t: nat, rest: seq<byte>)
    ensures ReadHead(Skip(BoxBody(b, t) + rest, 12))
         == Some((HeadFields(b.position, b.cross, b.up, b.forward, b.length, b.left.Some?, b.right.Some?),
                  ChildBytes(b.left, 13, t) + (ChildBytes(b.right, 16, t) + (I32Bytes(14) + (IndexList(b.level, t) + rest)))))
  {
    var lb := ChildBytes(b.left, 13, t);
    var rb := ChildBytes(b.right, 16, t);
    BodyThen(b, t, rest);
    ReadHeadOf(b, b.left.Some?, b.right.Some?, lb + (rb + (I32Bytes(14) + (IndexList(b.level, t) + rest))));
  }

  /** A child slot of a box record: absent, or a tagged record that ReadBox reads into a new box. */
  lemma {:induction false} ChildPart(o: Option<Box>, tag: int, t: nat, y: seq<byte>, c: nat)
    requires t * 8 < 0x1_0000_0000
    ensures ReadChild(o.Some?, ChildBytes(o, tag, t) + y, c) == BoxStep(ChildRead(o, c), y, c + SubCount(o), true)
    decreases o
  {
    if o.Some? {
      SkipToChild(tag, o.value, t, y);
      ReadBoxOf(NewBox, o.value, t, y, c);
    } else {
      assert [] + y == y;
    }
  }

  /** The fields ReadBox finds at the head of `b`'s record. */
  function FieldsOf(b: Box): HeadFields
  {
    HeadFields(b.position, b.cross, b.up, b.forward, b.length, b.left.Some?, b.right.Some?)
  }

  /** The counter after reading `b`'s left sub-tree with the counter at `c`. */
  function AfterLeft(b: Box, c: nat): nat
  {
    c + 1 + SubCount(b.left)
  }

  /** The child box ReadChild produces for slot `o` with the counter at `c`. */
  function ChildRead(o: Option<Box>, c: nat): Box
  {
    if o.Some? then ReadBack(NewBox, o.value, c) else NewBox
  }

  /** The box ReadBox assembles from `b`'s fields and children is the tree ReadBack describes. */
  lemma AssembledIs(prev: Box, b: Box, c: nat)
    ensures Assembled(prev, c, FieldsOf(b), ChildRead(b.left, c + 1), ChildRead(b.right, AfterLeft(b, c)))
         == ReadBack(prev, b, c)
  {
  }

  /** A step that ends in the box assembled from `b`'s fields and children ends in ReadBack's tree. */
  lemma ReadBackIs(prev: Box, b: Box, c: nat, r: BoxStep, rest: seq<byte>)
    requires r == BoxStep(Assembled(prev, c, FieldsOf(b), ChildRead(b.left, c + 1), ChildRead(b.right, c + 1 + SubCount(b.left))),
                          rest, c + 1 + SubCount(b.left) + SubCount(b.right), true)
    ensures r == BoxStep(ReadBack(prev, b, c), rest, c + BoxCount(b), true)
  {
    assert BoxCount(b) == 1 + SubCount(b.left) + SubCount(b.right);
    AssembledIs(prev, b, c);
  }

  /**
   * Reading a box record written by WriteCollisionBox gives back the tree
   * with its geometry and shape, boxes named "_BOX" + n in pre-order from the
   * counter, and leaves the reader just after the record.
   */
  lemma {:induction false} ReadBoxOf(prev: Box, b: Box, t: nat, rest: seq<byte>, c: nat)
    requires t * 8 < 0x1_0000_0000
    ensures ReadBoxSpec(prev, BoxBody(b, t) + rest, c) == BoxStep(ReadBack(prev, b, c), rest, c + BoxCount(b), true)
    decreases b
  {
    var tail := I32Bytes(14) + (IndexList(b.level, t) + rest);
    var y := ChildBytes(b.right, 16, t) + tail;
    ChildPart(b.left, 13, t, y, c + 1);
    ChildPart(b.right, 16, t, tail, c + 1 + SubCount(b.left));
    ReadBoxAssemble(prev, b, t, rest, c, tail, y, ChildRead(b.left, c + 1), c + 1 + SubCount(b.left),
                    ChildRead(b.right, c + 1 + SubCount(b.left)), c + 1 + SubCount(b.left) + SubCount(b.right));
    ReadBackIs(prev, b, c, ReadBoxSpec(prev, BoxBody(b, t) + rest, c), rest);
  }

  /** ReadBoxOf once both children are known to read back, as whatever boxes they read as. */
  lemma ReadBoxAssemble(prev: Box, b: Box, t: nat, rest: seq<byte>, c: nat, tail: seq<byte>, y: seq<byte>,
                        left: Box, lc: nat, right: Box, rc: nat)
    requires t * 8 < 0x1_0000_0000
    requires tail == I32Bytes(14) + (IndexList(b.level, t) + rest) && y == ChildBytes(b.right, 16, t) + tail
    requires ReadChild(b.left.Some?, ChildBytes(b.left, 13, t) + y, c + 1) == BoxStep(left, y, lc, true)
    requires ReadChild(b.right.Some?, y, lc) == BoxStep(right, tail, rc, true)
    ensures ReadBoxSpec(prev, BoxBody(b, t) + rest, c) == BoxStep(Assembled(prev, c, FieldsOf(b), left, right), rest, rc, true)
  {
    RecordParts(b, t, rest, tail, y);
    ReadBoxUnfold(prev, BoxBody(b, t) + rest, c, FieldsOf(b), ChildBytes(b.left, 13, t) + y, left, y, lc, right, tail, rc, rest);
  }

  /** The head of a box record and the end of its index list, with the child slots in between. */
  lemma RecordParts(b: Box, t: nat, rest: seq<byte>, tail: seq<byte>, y: seq<byte>)
    requires t * 8 < 0x1_0000_0000
    requires tail == I32Bytes(14) + (IndexList(b.level, t) + rest) && y == ChildBytes(b.right, 16, t) + tail
    ensures ReadHead(Skip(BoxBody(b, t) + rest, 12)) == Some((FieldsOf(b), ChildBytes(b.left, 13, t) + y))
    ensures SkipIndices(tail) == Some(rest)
  {
    HeadPart(b, t, rest);
    SkipIndexList(b.level, t, rest);
  }
}
