// The bytes of a mesh scene (MSB) file as Export lays them out: a 12-byte
// head whose first and last ints are back-patched lengths, tagged fields
// whose tag is the position of the field's name in a table of names written
// at the end of the file, and blocks (element, attribute, motion, animation)
// whose length int counts the bytes that follow it.
module MsbFormat {
  import opened Machine
  import opened Float32
  import opened Text
  import opened Binary
  import opened MsbRecords

  // ---------------------------------------------------------------- the table of field names

  /**
   * The table of field names and the tags Export picks from it: `a` for the
   * mesh count, `b` for the bone count, `c` for the animation count, `d` for
   * the first element field (parent id) and `e` for a bone's influence map.
   */
  datatype Layout = Layout(table: seq<string>, a: int, b: int, c: int, d: int, e: int)

  const Head: seq<string> := ["Mesh Scene Data", "Name", "ID", "Nodes - Size"]

  /** The eight fields of an element after its block name, in tag order from `d`. */
  const ElementFields: seq<string> :=
    ["Parent ID", "Type", "Pivot Position", "Element", "Attributes - Size",
     "Attributes - Element", "AttributeName", "DescriptorName"]

  /** The sixteen fields of an animation, in tag order from `c + 1`. */
  const AnimationFields: seq<string> :=
    ["Animations - Element", "Duration", "Node Motion Count", "Node ID", "Motion", "Channel",
     "Keyframes - Size", "Keyframes - Element", "Time", "Value", "Smoothing", "Tension",
     "Continuity", "Bias", "Incoming Tangent", "Outgoing Tangent"]

  const BoneFields: seq<string> := ["Bones - Element", "Influence Map Name", "Rest Length"]

  /** The part of the table from the bone count on, and the tag `c` it fixes. */
  function BonesAndAnimations(t: seq<string>, hasBones: bool, hasAnimations: bool): (r: (seq<string>, int))
  {
    var t1 := t + ["Bones - Size"] + (if hasBones then BoneFields else []);
    (t1 + ["Animations - Size"] + (if hasAnimations then AnimationFields else []), |t1|)
  }

  /** The table and tags Export builds from which of the four lists are non-empty. */
  function StructLayout(hasNodes: bool, hasMeshes: bool, hasBones: bool, hasAnimations: bool): Layout
  {
    if hasNodes then
      var t := Head + ["Nodes - Element"] + ElementFields + ["Meshes - Size"]
               + (if hasMeshes then ["Meshes - Element"] else []);
      var rest := BonesAndAnimations(t, hasBones, hasAnimations);
      Layout(rest.0, 13, |t|, rest.1, 5, |t| + 2)
    else if hasMeshes then
      var t := Head + ["Meshes - Size"] + ["Nodes - Element"] + ElementFields;
      var rest := BonesAndAnimations(t, hasBones, hasAnimations);
      Layout(rest.0, 4, |t|, rest.1, 6, |t| + 2)
    else
      var t := Head + ["Meshes - Size"] + ["Bones - Size"]
               + (if hasBones then ["Bones - Element"] + ElementFields + ["Influence Map Name", "Rest Length"] else []);
      Layout(t + ["Animations - Size"] + (if hasAnimations then AnimationFields else []), 4, 5, |t|, 7, 15)
  }

  /** The names of the fields every element field tag `d + k` stands for. */
  predicate ElementTagsAt(table: seq<string>, d: int)
  {
    0 <= d && d + |ElementFields| <= |table| && table[d..d + |ElementFields|] == ElementFields
  }

  /** The names of the fields every animation field tag `c + 1 + k` stands for. */
  predicate AnimationTagsAt(table: seq<string>, c: int)
  {
    0 <= c && c + 1 + |AnimationFields| <= |table| && table[c + 1..c + 1 + |AnimationFields|] == AnimationFields
  }

  /** The bone and animation part of the table, after any start `t`. */
  lemma BonesAndAnimationsTags(t: seq<string>, hasBones: bool, hasAnimations: bool)
    ensures var r := BonesAndAnimations(t, hasBones, hasAnimations);
      && r.0[..|t|] == t && r.0[|t|] == "Bones - Size"
      && (hasBones ==> r.0[|t| + 1] == "Bones - Element" && r.0[|t| + 2] == "Influence Map Name" && r.0[|t| + 3] == "Rest Length")
      && |t| < r.1 < |r.0| && r.0[r.1] == "Animations - Size"
      && (hasAnimations ==> AnimationTagsAt(r.0, r.1))
  {
    var t1 := t + ["Bones - Size"] + (if hasBones then BoneFields else []);
    var t2 := t1 + ["Animations - Size"];
    var r := BonesAndAnimations(t, hasBones, hasAnimations);
    assert r.0 == t2 + (if hasAnimations then AnimationFields else []);
    assert r.0[..|t1|] == t1;
    if hasAnimations {
      assert r.0[|t2|..|t2| + |AnimationFields|] == AnimationFields;
    }
  }

  /** The tags when there are nodes: the node fields from 5, then the meshes, bones and animations. */
  lemma TableTagsWithNodes(hasMeshes: bool, hasBones: bool, hasAnimations: bool)
    ensures var l := StructLayout(true, hasMeshes, hasBones, hasAnimations);
      && l.table[..4] == Head && l.table[4] == "Nodes - Element" && l.d == 5 && ElementTagsAt(l.table, 5)
      && l.a == 13 && l.table[l.a] == "Meshes - Size"
      && (hasMeshes ==> l.table[l.a + 1] == "Meshes - Element")
      && 0 <= l.b && l.e == l.b + 2 && l.table[l.b] == "Bones - Size"
      && (hasBones ==> l.table[l.b + 1] == "Bones - Element" && l.table[l.e] == "Influence Map Name" && l.table[l.e + 1] == "Rest Length")
      && l.b < l.c < |l.table| && l.table[l.c] == "Animations - Size"
      && (hasAnimations ==> AnimationTagsAt(l.table, l.c))
  {
    var t := Head + ["Nodes - Element"] + ElementFields + ["Meshes - Size"] + (if hasMeshes then ["Meshes - Element"] else []);
    BonesAndAnimationsTags(t, hasBones, hasAnimations);
    var r := BonesAndAnimations(t, hasBones, hasAnimations);
    assert r.0[..|t|][5..13] == ElementFields;
  }

  /** The tags when there are meshes but no nodes: the element fields from 6, after "Nodes - Element" at 5. */
  lemma TableTagsWithMeshes(hasBones: bool, hasAnimations: bool)
    ensures var l := StructLayout(false, true, hasBones, hasAnimations);
      && l.table[..4] == Head && l.d == 6 && ElementTagsAt(l.table, 6)
      && l.a == 4 && l.table[l.a] == "Meshes - Size" && l.table[l.a + 1] == "Nodes - Element"
      && 0 <= l.b && l.e == l.b + 2 && l.table[l.b] == "Bones - Size"
      && (hasBones ==> l.table[l.b + 1] == "Bones - Element" && l.table[l.e] == "Influence Map Name" && l.table[l.e + 1] == "Rest Length")
      && l.b < l.c < |l.table| && l.table[l.c] == "Animations - Size"
      && (hasAnimations ==> AnimationTagsAt(l.table, l.c))
  {
    var t := Head + ["Meshes - Size"] + ["Nodes - Element"] + ElementFields;
    BonesAndAnimationsTags(t, hasBones, hasAnimations);
    var r := BonesAndAnimations(t, hasBones, hasAnimations);
    assert r.0[..|t|][6..14] == ElementFields;
  }

  /** The tags when there are neither nodes nor meshes: the element fields from 7, after "Bones - Element". */
  lemma TableTagsBonesOnly(hasBones: bool, hasAnimations: bool)
    ensures var l := StructLayout(false, false, hasBones, hasAnimations);
      && l.table[..4] == Head && l.a == 4 && l.table[l.a] == "Meshes - Size"
      && l.b == 5 && l.table[l.b] == "Bones - Size" && l.d == 7 && l.e == 15
      && (hasBones ==> l.table[l.b + 1] == "Bones - Element" && ElementTagsAt(l.table, 7)
                       && l.table[l.e] == "Influence Map Name" && l.table[l.e + 1] == "Rest Length")
      && l.b < l.c < |l.table| && l.table[l.c] == "Animations - Size"
      && (hasAnimations ==> AnimationTagsAt(l.table, l.c))
  {
    var t := Head + ["Meshes - Size"] + ["Bones - Size"]
             + (if hasBones then ["Bones - Element"] + ElementFields + ["Influence Map Name", "Rest Length"] else []);
    var l := StructLayout(false, false, hasBones, hasAnimations);
    assert l.table == t + ["Animations - Size"] + (if hasAnimations then AnimationFields else []);
    assert l.table[..|t|] == t;
    if hasBones {
      assert t[7..15] == ElementFields;
    }
    if hasAnimations {
      assert l.table[|t| + 1..|t| + 1 + |AnimationFields|] == AnimationFields;
    }
  }

  /**
   * Every tag Export writes is the position, in the table it appends, of the
   * name of the field it introduces, whichever of the lists are empty: the
   * element fields from `d` wherever an element block is written, the block
   * names, the three counts, a bone's two fields and the animation fields.
   */
  lemma TableTags(hasNodes: bool, hasMeshes: bool, hasBones: bool, hasAnimations: bool)
    ensures var l := StructLayout(hasNodes, hasMeshes, hasBones, hasAnimations);
      && l.table[..4] == Head
      && 0 <= l.a < |l.table| && l.table[l.a] == "Meshes - Size"
      && 0 <= l.b < |l.table| && l.table[l.b] == "Bones - Size"
      && 0 <= l.c < |l.table| && l.table[l.c] == "Animations - Size"
      && (hasNodes ==> l.table[4] == "Nodes - Element" && l.d == 5)
      && (hasMeshes ==> l.table[l.a + 1] == (if hasNodes then "Meshes - Element" else "Nodes - Element"))
      && (hasNodes || hasMeshes || hasBones ==> ElementTagsAt(l.table, l.d))
      && (hasBones ==> l.table[l.b + 1] == "Bones - Element"
                       && l.table[l.e] == "Influence Map Name" && l.table[l.e + 1] == "Rest Length")
      && (hasAnimations ==> AnimationTagsAt(l.table, l.c))
  {
    if hasNodes {
      TableTagsWithNodes(hasMeshes, hasBones, hasAnimations);
    } else if hasMeshes {
      TableTagsWithMeshes(hasBones, hasAnimations);
    } else {
      TableTagsBonesOnly(hasBones, hasAnimations);
    }
  }

  // ---------------------------------------------------------------- fields and blocks

  /** A tag followed by an int. */
  function TagInt(tag: int, x: int): (r: seq<byte>)
    ensures |r| == 8
  {
    I32Bytes(tag) + I32Bytes(x)
  }

  /** A tag followed by a float. */
  function TagFloat(tag: int, f: F32): (r: seq<byte>)
    ensures |r| == 8
  {
    I32Bytes(tag) + FloatBytes(f)
  }

  /** A tag followed by a length-prefixed string. */
  function TagString(tag: int, s: string): (r: seq<byte>)
    ensures |r| == 8 + |s|
  {
    I32Bytes(tag) + LengthPrefixed(s)
  }

  /** A block: its tag, the number of bytes that follow the length int, and those bytes. */
  function Block(tag: int, body: seq<byte>): (r: seq<byte>)
    ensures |r| == 8 + |body|
  {
    I32Bytes(tag) + (I32Bytes(|body|) + body)
  }

  function PointBytes(p: Point3d): (r: seq<byte>)
    ensures |r| == 12
  {
    FloatBytes(p.x) + (FloatBytes(p.y) + FloatBytes(p.z))
  }

  /** The three coordinates of a point, each after the same tag. */
  function TaggedPoint(tag: int, p: Point3d): (r: seq<byte>)
    ensures |r| == 24
  {
    TagFloat(tag, p.x) + (TagFloat(tag, p.y) + TagFloat(tag, p.z))
  }

  /** A tag followed by a uint. */
  function TagU32(tag: int, x: u32): (r: seq<byte>)
    ensures |r| == 8
  {
    I32Bytes(tag) + U32Bytes(x)
  }

  // ---------------------------------------------------------------- elements

  /** An attribute: block tag d + 5, its kind's spelling after d + 6, its descriptor after d + 7. */
  function AttributeRecord(d: int, a: Attribute): seq<byte>
  {
    Block(d + 5, TagString(d + 6, AttributeText(a.name)) + TagString(d + 7, a.descriptor))
  }

  function AttributeEncoder(d: int): Attribute -> seq<byte>
  {
    a => AttributeRecord(d, a)
  }

  function Attributes(d: int, attrs: seq<Attribute>): seq<byte>
  {
    Concat(attrs, AttributeEncoder(d))
  }

  /** Id (tag 2), parent id (d), type number (d + 1) and real name (tag 1). */
  function ElementHead(d: int, id: int, kind: Kind, x: ElementData): seq<byte>
  {
    TagInt(2, id) + (TagInt(d, x.parentId) + (TagInt(d + 1, TypeNumber(kind)) + TagString(1, x.realName)))
  }

  /** The pivot after d + 2, then position and scale, one float after each d + 3. */
  function Placement(d: int, x: ElementData): seq<byte>
  {
    I32Bytes(d + 2) + (PointBytes(x.pivot) + (TaggedPoint(d + 3, x.position) + TaggedPoint(d + 3, x.scale)))
  }

  /** The attribute count after d + 4, then the attributes. */
  function AttributeList(d: int, attrs: seq<Attribute>): seq<byte>
  {
    TagInt(d + 4, |attrs|) + Attributes(d, attrs)
  }

  /** A bone's influence map name after e and rest length after e + 1. */
  function BoneTail(e: int, x: ElementData): seq<byte>
  {
    TagString(e, x.influenceMapName) + TagFloat(e + 1, x.restLength)
  }

  /** The part of an element block written before a bone's own fields. */
  function ElementFront(d: int, id: int, kind: Kind, x: ElementData): seq<byte>
  {
    ElementHead(d, id, kind, x) + (Placement(d, x) + AttributeList(d, x.attributes))
  }

  /** What follows the attributes: a bone's own two fields, nothing for a node or a mesh. */
  function KindTail(e: int, kind: Kind, x: ElementData): seq<byte>
  {
    if kind == BoneKind then BoneTail(e, x) else []
  }

  function ElementBody(d: int, e: int, id: int, kind: Kind, x: ElementData): seq<byte>
  {
    ElementFront(d, id, kind, x) + KindTail(e, kind, x)
  }

  function ElementRecord(tag: int, d: int, e: int, id: int, kind: Kind, x: ElementData): seq<byte>
  {
    Block(tag, ElementBody(d, e, id, kind, x))
  }

  /** Each item paired with its id, counting up from `first`. */
  function Numbered<T>(first: int, xs: seq<T>): (r: seq<(int, T)>)
    ensures |r| == |xs|
  {
    if |xs| == 0 then [] else Numbered(first, xs[..|xs| - 1]) + [(first + |xs| - 1, xs[|xs| - 1])]
  }

  /** The item at `i` carries the id `first + i`. */
  lemma {:induction false} NumberedAt<T>(first: int, xs: seq<T>, i: nat)
    requires i < |xs|
    ensures Numbered(first, xs)[i] == (first + i, xs[i])
  {
    if i < |xs| - 1 {
      NumberedAt(first, xs[..|xs| - 1], i);
    }
  }

  /** Numbering the first `n` items gives the first `n` numbered items. */
  lemma NumberedPrefix<T>(first: int, xs: seq<T>, n: nat)
    requires n <= |xs|
    ensures Numbered(first, xs)[..n] == Numbered(first, xs[..n])
  {
    forall i | 0 <= i < n
      ensures Numbered(first, xs)[i] == Numbered(first, xs[..n])[i]
    {
      NumberedAt(first, xs, i);
      NumberedAt(first, xs[..n], i);
    }
  }

  /** The element block of one numbered item. */
  function ElementEncoder(tag: int, d: int, e: int, kind: Kind): ((int, ElementData)) -> seq<byte>
  {
    (p: (int, ElementData)) => ElementRecord(tag, d, e, p.0, kind, p.1)
  }

  /** Consecutive element blocks whose ids count up from `first`. */
  function Elements(tag: int, d: int, e: int, kind: Kind, first: int, xs: seq<ElementData>): seq<byte>
  {
    Concat(Numbered(first, xs), ElementEncoder(tag, d, e, kind))
  }

  // ---------------------------------------------------------------- animations

  /**
   * A keyframe: tag c + 8 and the length 64, then its eight values, each
   * after its own tag from c + 9 to c + 16 (the smoothing as a uint).
   */
  function KeyframeRecord(c: int, k: Keyframe): seq<byte>
  {
    TagInt(c + 8, 64) + KeyframeValues(c, k)
  }

  /** The eight values of a keyframe, each after its tag. */
  function KeyframeValues(c: int, k: Keyframe): (r: seq<byte>)
    ensures |r| == 64
  {
    TagFloat(c + 9, k.time) + (TagFloat(c + 10, k.value) + (TagU32(c + 11, k.smoothing)
    + (TagFloat(c + 12, k.tension) + (TagFloat(c + 13, k.continuity) + (TagFloat(c + 14, k.bias)
    + (TagFloat(c + 15, k.incoming) + TagFloat(c + 16, k.outgoing)))))))
  }

  function KeyframeEncoder(c: int): Keyframe -> seq<byte>
  {
    k => KeyframeRecord(c, k)
  }

  function Keyframes(c: int, ks: seq<Keyframe>): seq<byte>
  {
    Concat(ks, KeyframeEncoder(c))
  }

  /** A channel: its length (72 per keyframe, and 8) after c + 6, its keyframe count after c + 7, its keyframes. */
  function ChannelRecord(c: int, ks: seq<Keyframe>): seq<byte>
  {
    TagInt(c + 6, |ks| * 72 + 8) + (TagInt(c + 7, |ks|) + Keyframes(c, ks))
  }

  function ChannelEncoder(c: int): seq<Keyframe> -> seq<byte>
  {
    ks => ChannelRecord(c, ks)
  }

  function Channels(c: int, chs: seq<seq<Keyframe>>): seq<byte>
  {
    Concat(chs, ChannelEncoder(c))
  }

  /** A motion: its node id after c + 4, then a block (tag c + 5) of its channels. */
  function MotionRecord(c: int, m: MotionData): seq<byte>
  {
    TagInt(c + 4, m.nodeId) + Block(c + 5, Channels(c, m.channels))
  }

  function MotionEncoder(c: int): MotionData -> seq<byte>
  {
    m => MotionRecord(c, m)
  }

  function Motions(c: int, ms: seq<MotionData>): seq<byte>
  {
    Concat(ms, MotionEncoder(c))
  }

  /** Real name (tag 1), duration (c + 2), motion count (c + 3), then the motions. */
  function AnimationBody(c: int, x: AnimationData): seq<byte>
  {
    TagString(1, x.realName) + (TagFloat(c + 2, x.duration) + (TagInt(c + 3, |x.motions|) + Motions(c, x.motions)))
  }

  function AnimationRecord(c: int, x: AnimationData): seq<byte>
  {
    Block(c + 1, AnimationBody(c, x))
  }

  function AnimationEncoder(c: int): AnimationData -> seq<byte>
  {
    x => AnimationRecord(c, x)
  }

  function Animations(c: int, xs: seq<AnimationData>): seq<byte>
  {
    Concat(xs, AnimationEncoder(c))
  }

  /** The length a keyframe block announces, 64, is the number of bytes after it. */
  lemma KeyframeLength(c: int, k: Keyframe)
    ensures |KeyframeRecord(c, k)| == 8 + 64
  {
  }

  lemma KeyframesLength(c: int, ks: seq<Keyframe>)
    ensures |Keyframes(c, ks)| == 72 * |ks|
  {
    ConcatLength(ks, KeyframeEncoder(c), 72);
  }

  /** The length a channel announces, 72 per keyframe and 8, is the number of bytes after it. */
  lemma ChannelLength(c: int, ks: seq<Keyframe>)
    ensures |ChannelRecord(c, ks)| == 8 + (|ks| * 72 + 8)
  {
    KeyframesLength(c, ks);
  }

  // ---------------------------------------------------------------- the whole file

  /** What Export writes: the scene name, the root id and the four lists. */
  datatype Scene = Scene(name: string, rootId: int, nodes: seq<ElementData>, meshes: seq<ElementData>,
                         bones: seq<ElementData>, animations: seq<AnimationData>)

  function LayoutOf(s: Scene): Layout
  {
    StructLayout(|s.nodes| > 0, |s.meshes| > 0, |s.bones| > 0, |s.animations| > 0)
  }

  /** Name, root id, node count and the node blocks. */
  function NodeSection(s: Scene, l: Layout): seq<byte>
  {
    TagString(1, s.name) + (TagInt(2, s.rootId) + Section(3, 5, l.e, NodeKind, 0, s.nodes))
  }

  /** An element section: the count tagged `t`, then the element blocks, tagged `t + 1`. */
  function Section(t: int, d: int, e: int, kind: Kind, first: int, xs: seq<ElementData>): seq<byte>
  {
    TagInt(t, |xs|) + Elements(t + 1, d, e, kind, first, xs)
  }

  /** The id of the first bone: bones are numbered after the nodes and the meshes. */
  function FirstBoneId(s: Scene): int
  {
    |s.nodes| + |s.meshes|
  }

  /** The mesh count and the mesh blocks, whose ids follow the nodes'. */
  function MeshPart(s: Scene, l: Layout): seq<byte>
  {
    Section(l.a, l.d, l.e, MeshKind, |s.nodes|, s.meshes)
  }

  /** The bone count and the bone blocks, whose ids follow the meshes'. */
  function BonePart(s: Scene, l: Layout): seq<byte>
  {
    Section(l.b, l.d, l.e, BoneKind, FirstBoneId(s), s.bones)
  }

  /** The animation count and the animation blocks. */
  function AnimationPart(s: Scene, l: Layout): seq<byte>
  {
    TagInt(l.c, |s.animations|) + Animations(l.c, s.animations)
  }

  /** The four sections, with the tags of layout `l`. */
  function SceneBody(s: Scene, l: Layout): seq<byte>
  {
    NodeSection(s, l) + (MeshPart(s, l) + (BonePart(s, l) + AnimationPart(s, l)))
  }

  /** The count of the table, then each name length-prefixed. */
  function TableBytes(t: seq<string>): seq<byte>
  {
    I32Bytes(|t|) + Concat(t, LengthPrefixed)
  }

  /** The 12-byte head: the offset of the table, four zero bytes, and the length after the head. */
  function HeadBytes(total: int): (r: seq<byte>)
    ensures |r| == 12
  {
    I32Bytes(total) + (Zeros(4) + I32Bytes(total - 12))
  }

  /** A file: the head for `body`, the body, and the table. */
  function FileOf(body: seq<byte>, table: seq<byte>): seq<byte>
  {
    HeadBytes(12 + |body|) + (body + table)
  }

  /** The file with the tags and table of layout `l`. */
  function SceneFileIn(s: Scene, l: Layout): seq<byte>
  {
    FileOf(SceneBody(s, l), TableBytes(l.table))
  }

  /** The file Export writes, with the layout its lists call for. */
  function SceneFile(s: Scene): seq<byte>
  {
    SceneFileIn(s, LayoutOf(s))
  }

  /** The id of the `k`-th element of a list whose ids count up from `first`. */
  function ElementId(first: int, k: int): (r: int)
    ensures r - k == first
  {
    first + k
  }

  /**
   * What a bone block leaves when the bone has no influence map name: its
   * tag, the zero placeholder never patched, the part before the bone's own
   * fields, and the tag `e` written just before the name's length is read.
   */
  function FailedBone(l: Layout, id: int, x: ElementData): seq<byte>
  {
    I32Bytes(l.b + 1) + (I32Bytes(0) + (ElementFront(l.d, id, BoneKind, x) + I32Bytes(l.e)))
  }

  /**
   * The file Export leaves when bone `i` has no influence map name: the
   * zeroed head, everything up to that bone's attributes with its block
   * length still zero, and the tag `e`.
   */
  function FileFailedAtBone(s: Scene, i: nat): seq<byte>
    requires i < |s.bones|
  {
    var l := LayoutOf(s);
    Zeros(12)
      + (NodeSection(s, l)
         + (MeshPart(s, l)
            + (TagInt(l.b, |s.bones|)
               + (Elements(l.b + 1, l.d, l.e, BoneKind, FirstBoneId(s), s.bones[..i])
                  + FailedBone(l, ElementId(FirstBoneId(s), i), s.bones[i])))))
  }

  /** A tag then one more part, appended one after the other. */
  lemma AppendedPair(start: seq<byte>, t: seq<byte>, a: seq<byte>, d0: seq<byte>, d1: seq<byte>)
    requires d0 == start + t && d1 == d0 + a
    ensures d1 == start + (t + a)
  {
  }

  /** A count, then every element block after it, make up the section. */
  lemma SectionWritten(t: int, d: int, e: int, kind: Kind, first: int, xs: seq<ElementData>,
                       start: seq<byte>, d0: seq<byte>, data: seq<byte>)
    requires d0 == start + TagInt(t, |xs|)
    requires data == d0 + Elements(t + 1, d, e, kind, first, xs)
    ensures data == start + Section(t, d, e, kind, first, xs)
  {
    AppendedPair(start, TagInt(t, |xs|), Elements(t + 1, d, e, kind, first, xs), d0, data);
  }

  /** The bone count, then every bone block, make up the bone part. */
  lemma BonePartWritten(s: Scene, l: Layout, start: seq<byte>, d0: seq<byte>, data: seq<byte>)
    requires d0 == start + TagInt(l.b, |s.bones|)
    requires data == d0 + Elements(l.b + 1, l.d, l.e, BoneKind, FirstBoneId(s), s.bones)
    ensures data == start + BonePart(s, l)
  {
    SectionWritten(l.b, l.d, l.e, BoneKind, FirstBoneId(s), s.bones, start, d0, data);
  }

  /** Where the head's two lengths point, for any body and table. */
  lemma HeadLayout(body: seq<byte>, table: seq<byte>)
    ensures var t := 12 + |body|;
            var f := FileOf(body, table);
      && f[..4] == I32Bytes(t) && f[4..8] == Zeros(4) && f[8..12] == I32Bytes(t - 12)
      && f[12..t] == body && f[t..] == table
  {
    var t := 12 + |body|;
    var h := HeadBytes(t);
    var f := h + (body + table);
    assert f[..12] == h && f[12..t] == body && f[t..] == table;
    assert f[..4] == h[..4] == I32Bytes(t);
    assert f[4..8] == h[4..8] == Zeros(4);
    assert f[8..12] == h[8..12] == I32Bytes(t - 12);
  }
}
