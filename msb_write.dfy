// The writing half of MsbTool.Export, on the values Export reads from the
// tool's lists: each method appends, through the stream writer, exactly the
// bytes the MsbFormat function of the same part describes, and every block
// is written as the toolkit writes it — a zero length placeholder, the body,
// then a seek back to patch in the body's length and a seek to the end.
module MsbWrite {
  import opened Wrappers
  import opened Machine
  import opened Float32
  import opened Text
  import opened Binary
  import opened MsbRecords
  import opened MsbNames
  import opened MsbFormat
  import opened MsbLayout

  // ---------------------------------------------------------------- fields

  /** A tag, then an int. */
  method PutInt(w: Writer, tag: int, x: int)
    requires w.pos == |w.data|
    modifies w
    ensures w.data == old(w.data) + TagInt(tag, x) && w.pos == |w.data|
  {
    w.Append(I32Bytes(tag));
    w.Append(I32Bytes(x));
    Assoc(old(w.data), I32Bytes(tag), I32Bytes(x));
  }

  /** A tag, then a float. */
  method PutFloat(w: Writer, tag: int, f: F32)
    requires w.pos == |w.data|
    modifies w
    ensures w.data == old(w.data) + TagFloat(tag, f) && w.pos == |w.data|
  {
    w.Append(I32Bytes(tag));
    w.Append(FloatBytes(f));
    Assoc(old(w.data), I32Bytes(tag), FloatBytes(f));
  }

  /** A tag, then a uint. */
  method PutU32(w: Writer, tag: int, x: u32)
    requires w.pos == |w.data|
    modifies w
    ensures w.data == old(w.data) + TagU32(tag, x) && w.pos == |w.data|
  {
    w.Append(I32Bytes(tag));
    w.Append(U32Bytes(x));
    Assoc(old(w.data), I32Bytes(tag), U32Bytes(x));
  }

  /** A string's length, then its bytes. */
  method PutText(w: Writer, s: string)
    requires w.pos == |w.data|
    modifies w
    ensures w.data == old(w.data) + LengthPrefixed(s) && w.pos == |w.data|
  {
    w.Append(I32Bytes(|s|));
    w.Append(StringBytes(s));
    Assoc(old(w.data), I32Bytes(|s|), StringBytes(s));
  }

  /** A tag, then a string's length and bytes. */
  method PutString(w: Writer, tag: int, s: string)
    requires w.pos == |w.data|
    modifies w
    ensures w.data == old(w.data) + TagString(tag, s) && w.pos == |w.data|
  {
    w.Append(I32Bytes(tag));
    PutText(w, s);
    Assoc(old(w.data), I32Bytes(tag), LengthPrefixed(s));
  }

  /** The three coordinates of a point. */
  method PutPoint(w: Writer, p: Point3d)
    requires w.pos == |w.data|
    modifies w
    ensures w.data == old(w.data) + PointBytes(p) && w.pos == |w.data|
  {
    w.Append(FloatBytes(p.x));
    w.Append(FloatBytes(p.y));
    w.Append(FloatBytes(p.z));
    Assoc(old(w.data) + FloatBytes(p.x), FloatBytes(p.y), FloatBytes(p.z));
    Assoc(old(w.data), FloatBytes(p.x), FloatBytes(p.y) + FloatBytes(p.z));
  }

  /** The three coordinates of a point, each after the tag. */
  method PutTaggedPoint(w: Writer, tag: int, p: Point3d)
    requires w.pos == |w.data|
    modifies w
    ensures w.data == old(w.data) + TaggedPoint(tag, p) && w.pos == |w.data|
  {
    PutFloat(w, tag, p.x);
    PutFloat(w, tag, p.y);
    PutFloat(w, tag, p.z);
    Assoc(old(w.data) + TagFloat(tag, p.x), TagFloat(tag, p.y), TagFloat(tag, p.z));
    Assoc(old(w.data), TagFloat(tag, p.x), TagFloat(tag, p.y) + TagFloat(tag, p.z));
  }

  // ---------------------------------------------------------------- elements

  /** What an attribute block holds: the kind's spelling after d + 6 and the descriptor after d + 7. */
  function AttributeBody(d: int, a: Attribute): (r: seq<byte>)
    ensures Block(d + 5, r) == AttributeRecord(d, a)
  {
    TagString(d + 6, AttributeText(a.name)) + TagString(d + 7, a.descriptor)
  }

  /** The two fields of an attribute block. */
  method WriteAttributeBody(w: Writer, d: int, a: Attribute)
    requires w.pos == |w.data|
    modifies w
    ensures w.data == old(w.data) + AttributeBody(d, a) && w.pos == |w.data|
  {
    PutString(w, d + 6, AttributeText(a.name));
    PutString(w, d + 7, a.descriptor);
    Assoc(old(w.data), TagString(d + 6, AttributeText(a.name)), TagString(d + 7, a.descriptor));
  }

  /** An attribute block, its length patched after its two fields. */
  method WriteAttribute(w: Writer, d: int, a: Attribute)
    requires w.pos == |w.data|
    modifies w
    ensures w.data == old(w.data) + AttributeRecord(d, a) && w.pos == |w.data|
  {
    ghost var start := w.data;
    w.Append(I32Bytes(d + 5));
    var at := w.pos;
    w.Append(I32Bytes(0));
    WriteAttributeBody(w, d, a);
    var blockLength := w.pos - at - 4;
    w.Patch(at, I32Bytes(blockLength));
    BlockPatched(start, I32Bytes(d + 5), I32Bytes(0), AttributeBody(d, a), I32Bytes(blockLength));
  }

  /** The attribute blocks of one element, in order. */
  method WriteAttributes(w: Writer, d: int, attrs: seq<Attribute>)
    requires w.pos == |w.data|
    modifies w
    ensures w.data == old(w.data) + Attributes(d, attrs) && w.pos == |w.data|
  {
    ghost var start := w.data;
    ghost var recs := Encoded(attrs, AttributeEncoder(d));
    for i := 0 to |attrs|
      invariant w.data == start + Flatten(recs[..i]) && w.pos == |w.data|
    {
      ghost var d0 := w.data;
      WriteAttribute(w, d, attrs[i]);
      AttributeEncoded(d, attrs[i]);
      FlattenStep(start, recs, i, d0, w.data);
    }
    Whole(recs);
    ConcatFlat(attrs, AttributeEncoder(d));
  }

  /** An element block up to its attributes: id, parent id, type, real name, placement and attributes. */
  method WriteElementFront(w: Writer, d: int, id: int, kind: Kind, x: ElementData)
    requires w.pos == |w.data|
    modifies w
    ensures w.data == old(w.data) + ElementFront(d, id, kind, x) && w.pos == |w.data|
  {
    ghost var s0 := w.data;
    PutInt(w, 2, id);
    PutInt(w, d, x.parentId);
    PutInt(w, d + 1, TypeNumber(kind));
    PutString(w, 1, x.realName);
    Assoc4(s0, TagInt(2, id), TagInt(d, x.parentId), TagInt(d + 1, TypeNumber(kind)), TagString(1, x.realName));
    ghost var s1 := w.data;
    w.Append(I32Bytes(d + 2));
    PutPoint(w, x.pivot);
    PutTaggedPoint(w, d + 3, x.position);
    PutTaggedPoint(w, d + 3, x.scale);
    Assoc4(s1, I32Bytes(d + 2), PointBytes(x.pivot), TaggedPoint(d + 3, x.position), TaggedPoint(d + 3, x.scale));
    ghost var s2 := w.data;
    PutInt(w, d + 4, |x.attributes|);
    WriteAttributes(w, d, x.attributes);
    Assoc(s2, TagInt(d + 4, |x.attributes|), Attributes(d, x.attributes));
    ghost var head, placement, list := ElementHead(d, id, kind, x), Placement(d, x), AttributeList(d, x.attributes);
    Assoc(s0 + head, placement, list);
    Assoc(s0, head, placement + list);
  }

  /** A bone's influence map name after e and its rest length after e + 1. */
  method WriteBoneTail(w: Writer, e: int, x: ElementData)
    requires w.pos == |w.data|
    modifies w
    ensures w.data == old(w.data) + BoneTail(e, x) && w.pos == |w.data|
  {
    PutString(w, e, x.influenceMapName);
    PutFloat(w, e + 1, x.restLength);
    Assoc(old(w.data), TagString(e, x.influenceMapName), TagFloat(e + 1, x.restLength));
  }

  /** What an element block holds: the front, then a bone's tail. */
  method WriteElementBody(w: Writer, d: int, e: int, id: int, kind: Kind, x: ElementData)
    requires w.pos == |w.data|
    modifies w
    ensures w.data == old(w.data) + ElementBody(d, e, id, kind, x) && w.pos == |w.data|
  {
    WriteElementFront(w, d, id, kind, x);
    if kind == BoneKind {
      WriteBoneTail(w, e, x);
      Assoc(old(w.data), ElementFront(d, id, kind, x), BoneTail(e, x));
    } else {
      assert ElementBody(d, e, id, kind, x) == ElementFront(d, id, kind, x) + [];
    }
  }

  /** One node, mesh or bone block numbered `id`, its length patched after its body. */
  method WriteElement(w: Writer, tag: int, d: int, e: int, id: int, kind: Kind, x: ElementData)
    requires w.pos == |w.data|
    modifies w
    ensures w.data == old(w.data) + ElementRecord(tag, d, e, id, kind, x) && w.pos == |w.data|
  {
    ghost var start := w.data;
    w.Append(I32Bytes(tag));
    var at := w.pos;
    w.Append(I32Bytes(0));
    WriteElementBody(w, d, e, id, kind, x);
    var blockLength := w.pos - at - 4;
    w.Patch(at, I32Bytes(blockLength));
    BlockPatched(start, I32Bytes(tag), I32Bytes(0), ElementBody(d, e, id, kind, x), I32Bytes(blockLength));
  }

  /** Consecutive element blocks, numbered from `first`. */
  method WriteElements(w: Writer, tag: int, d: int, e: int, kind: Kind, first: int, xs: seq<ElementData>)
    requires w.pos == |w.data|
    modifies w
    ensures w.data == old(w.data) + Elements(tag, d, e, kind, first, xs) && w.pos == |w.data|
  {
    ghost var start := w.data;
    ghost var recs := Encoded(Numbered(first, xs), ElementEncoder(tag, d, e, kind));
    for i := 0 to |xs|
      invariant w.data == start + Flatten(recs[..i]) && w.pos == |w.data|
    {
      ghost var d0 := w.data;
      var id := first + i;
      WriteElement(w, tag, d, e, id, kind, xs[i]);
      NumberedEncoded(tag, d, e, kind, first, xs, i, id);
      FlattenStep(start, recs, i, d0, w.data);
    }
    Whole(recs);
    ConcatFlat(Numbered(first, xs), ElementEncoder(tag, d, e, kind));
  }

  /** The part of a bone block written before the missing influence map name stops the loop. */
  method WriteFailedBone(w: Writer, l: Layout, id: int, x: ElementData)
    requires w.pos == |w.data|
    modifies w
    ensures w.data == old(w.data) + FailedBone(l, id, x) && w.pos == |w.data|
  {
    ghost var d0 := w.data;
    w.Append(I32Bytes(l.b + 1));
    w.Append(I32Bytes(0));
    ghost var d1 := w.data;
    WriteElementFront(w, l.d, id, BoneKind, x);
    ghost var d2 := w.data;
    w.Append(I32Bytes(l.e));
    FailedBoneWritten(l, id, x, d0, d1, d2, w.data);
  }

  /**
   * The bones loop: the bone blocks, numbered from `first`, up to the first
   * bone without an influence map name (`maps[k]` is None), where the loop
   * stops after a partial block; `k` is -1 when every bone has one.
   */
  method WriteBones(w: Writer, l: Layout, first: int, xs: seq<ElementData>, maps: seq<Option<string>>) returns (k: int)
    requires |maps| == |xs|
    requires w.pos == |w.data|
    modifies w
    ensures k == FirstIndex(maps, None) && w.pos == |w.data|
    ensures k == -1 ==> w.data == old(w.data) + Elements(l.b + 1, l.d, l.e, BoneKind, first, xs)
    ensures k >= 0 ==> w.data == old(w.data) + (Elements(l.b + 1, l.d, l.e, BoneKind, first, xs[..k])
                                                 + FailedBone(l, ElementId(first, k), xs[k]))
  {
    ghost var start := w.data;
    k := WriteMappedBones(w, l, first, xs, maps);
    StopIsFirstIndex(maps, k);
    if k < |xs| {
      ghost var d0 := w.data;
      WriteFailedBone(w, l, ElementId(first, k), xs[k]);
      AppendedPair(start, Elements(l.b + 1, l.d, l.e, BoneKind, first, xs[..k]), FailedBone(l, ElementId(first, k), xs[k]), d0, w.data);
    } else {
      k := -1;
    }
  }

  /** The bone blocks written while each bone has an influence map name: `n` bones, all of them when `n == |xs|`. */
  method WriteMappedBones(w: Writer, l: Layout, first: int, xs: seq<ElementData>, maps: seq<Option<string>>) returns (n: int)
    requires |maps| == |xs|
    requires w.pos == |w.data|
    modifies w
    ensures 0 <= n <= |xs| && w.pos == |w.data|
    ensures forall j :: 0 <= j < n ==> maps[j].Some?
    ensures n < |xs| ==> maps[n].None?
    ensures w.data == old(w.data) + Elements(l.b + 1, l.d, l.e, BoneKind, first, xs[..n])
    ensures n == |xs| ==> w.data == old(w.data) + Elements(l.b + 1, l.d, l.e, BoneKind, first, xs)
  {
    ghost var start := w.data;
    ghost var recs := Encoded(Numbered(first, xs), ElementEncoder(l.b + 1, l.d, l.e, BoneKind));
    n := 0;
    while n < |xs| && maps[n].Some?
      invariant 0 <= n <= |xs|
      invariant forall j :: 0 <= j < n ==> maps[j].Some?
      invariant w.data == start + Flatten(recs[..n]) && w.pos == |w.data|
    {
      ghost var d0 := w.data;
      var id := first + n;
      WriteElement(w, l.b + 1, l.d, l.e, id, BoneKind, xs[n]);
      NumberedEncoded(l.b + 1, l.d, l.e, BoneKind, first, xs, n, id);
      ghost var m := n;
      n := n + 1;
      FlattenStepTo(start, recs, m, n, d0, w.data);
      NamedStep(maps, m, n);
    }
    ElementsSoFar(l.b + 1, l.d, l.e, BoneKind, first, xs, n, recs, start, w.data);
  }

  // ---------------------------------------------------------------- animations

  /** A keyframe: tag c + 8 and the length 64, then its eight values, each after its tag. */
  method WriteKeyframe(w: Writer, c: int, k: Keyframe)
    requires w.pos == |w.data|
    modifies w
    ensures w.data == old(w.data) + KeyframeRecord(c, k) && w.pos == |w.data|
  {
    PutInt(w, c + 8, 64);
    ghost var s0 := w.data;
    PutFloat(w, c + 9, k.time);
    PutFloat(w, c + 10, k.value);
    PutU32(w, c + 11, k.smoothing);
    PutFloat(w, c + 12, k.tension);
    PutFloat(w, c + 13, k.continuity);
    PutFloat(w, c + 14, k.bias);
    PutFloat(w, c + 15, k.incoming);
    PutFloat(w, c + 16, k.outgoing);
    Assoc8(s0, TagFloat(c + 9, k.time), TagFloat(c + 10, k.value), TagU32(c + 11, k.smoothing),
           TagFloat(c + 12, k.tension), TagFloat(c + 13, k.continuity), TagFloat(c + 14, k.bias),
           TagFloat(c + 15, k.incoming), TagFloat(c + 16, k.outgoing));
    Assoc(old(w.data), TagInt(c + 8, 64), KeyframeValues(c, k));
  }

  /** The keyframes of one channel, in order. */
  method WriteKeyframes(w: Writer, c: int, ks: seq<Keyframe>)
    requires w.pos == |w.data|
    modifies w
    ensures w.data == old(w.data) + Keyframes(c, ks) && w.pos == |w.data|
  {
    ghost var start := w.data;
    ghost var recs := Encoded(ks, KeyframeEncoder(c));
    for i := 0 to |ks|
      invariant w.data == start + Flatten(recs[..i]) && w.pos == |w.data|
    {
      ghost var d0 := w.data;
      WriteKeyframe(w, c, ks[i]);
      KeyframeEncoded(c, ks[i]);
      FlattenStep(start, recs, i, d0, w.data);
    }
    Whole(recs);
    ConcatFlat(ks, KeyframeEncoder(c));
  }

  /** A channel: its length and keyframe count, then its keyframes. */
  method WriteChannel(w: Writer, c: int, ks: seq<Keyframe>)
    requires w.pos == |w.data|
    modifies w
    ensures w.data == old(w.data) + ChannelRecord(c, ks) && w.pos == |w.data|
  {
    PutInt(w, c + 6, |ks| * 72 + 8);
    PutInt(w, c + 7, |ks|);
    WriteKeyframes(w, c, ks);
    Assoc(old(w.data) + TagInt(c + 6, |ks| * 72 + 8), TagInt(c + 7, |ks|), Keyframes(c, ks));
    Assoc(old(w.data), TagInt(c + 6, |ks| * 72 + 8), TagInt(c + 7, |ks|) + Keyframes(c, ks));
  }

  /** The channels of one motion, in order. */
  method WriteChannels(w: Writer, c: int, chs: seq<seq<Keyframe>>)
    requires w.pos == |w.data|
    modifies w
    ensures w.data == old(w.data) + Channels(c, chs) && w.pos == |w.data|
  {
    ghost var start := w.data;
    ghost var recs := Encoded(chs, ChannelEncoder(c));
    for j := 0 to |chs|
      invariant w.data == start + Flatten(recs[..j]) && w.pos == |w.data|
    {
      ghost var d0 := w.data;
      WriteChannel(w, c, chs[j]);
      ChannelEncoded(c, chs[j]);
      FlattenStep(start, recs, j, d0, w.data);
    }
    Whole(recs);
    ConcatFlat(chs, ChannelEncoder(c));
  }

  /** A motion: its node id, then a block of its channels, the length patched after them. */
  method WriteMotion(w: Writer, c: int, m: MotionData)
    requires w.pos == |w.data|
    modifies w
    ensures w.data == old(w.data) + MotionRecord(c, m) && w.pos == |w.data|
  {
    PutInt(w, c + 4, m.nodeId);
    ghost var start := w.data;
    w.Append(I32Bytes(c + 5));
    var at := w.pos;
    w.Append(I32Bytes(0));
    WriteChannels(w, c, m.channels);
    var blockLength := w.pos - at - 4;
    w.Patch(at, I32Bytes(blockLength));
    BlockPatched(start, I32Bytes(c + 5), I32Bytes(0), Channels(c, m.channels), I32Bytes(blockLength));
    Assoc(old(w.data), TagInt(c + 4, m.nodeId), Block(c + 5, Channels(c, m.channels)));
  }

  /** The motions of one animation, in order. */
  method WriteMotions(w: Writer, c: int, ms: seq<MotionData>)
    requires w.pos == |w.data|
    modifies w
    ensures w.data == old(w.data) + Motions(c, ms) && w.pos == |w.data|
  {
    ghost var start := w.data;
    ghost var recs := Encoded(ms, MotionEncoder(c));
    for i := 0 to |ms|
      invariant w.data == start + Flatten(recs[..i]) && w.pos == |w.data|
    {
      ghost var d0 := w.data;
      WriteMotion(w, c, ms[i]);
      MotionEncoded(c, ms[i]);
      FlattenStep(start, recs, i, d0, w.data);
    }
    Whole(recs);
    ConcatFlat(ms, MotionEncoder(c));
  }

  /** What an animation block holds: real name, duration, motion count and motions. */
  method WriteAnimationBody(w: Writer, c: int, x: AnimationData)
    requires w.pos == |w.data|
    modifies w
    ensures w.data == old(w.data) + AnimationBody(c, x) && w.pos == |w.data|
  {
    PutString(w, 1, x.realName);
    PutFloat(w, c + 2, x.duration);
    PutInt(w, c + 3, |x.motions|);
    WriteMotions(w, c, x.motions);
    Assoc4(old(w.data), TagString(1, x.realName), TagFloat(c + 2, x.duration), TagInt(c + 3, |x.motions|), Motions(c, x.motions));
  }

  /** An animation block, its length patched after its body. */
  method WriteAnimation(w: Writer, c: int, x: AnimationData)
    requires w.pos == |w.data|
    modifies w
    ensures w.data == old(w.data) + AnimationRecord(c, x) && w.pos == |w.data|
  {
    ghost var start := w.data;
    w.Append(I32Bytes(c + 1));
    var at := w.pos;
    w.Append(I32Bytes(0));
    WriteAnimationBody(w, c, x);
    var blockLength := w.pos - at - 4;
    w.Patch(at, I32Bytes(blockLength));
    BlockPatched(start, I32Bytes(c + 1), I32Bytes(0), AnimationBody(c, x), I32Bytes(blockLength));
  }

  /** The animation blocks, in order. */
  method WriteAnimations(w: Writer, c: int, xs: seq<AnimationData>)
    requires w.pos == |w.data|
    modifies w
    ensures w.data == old(w.data) + Animations(c, xs) && w.pos == |w.data|
  {
    ghost var start := w.data;
    ghost var recs := Encoded(xs, AnimationEncoder(c));
    for i := 0 to |xs|
      invariant w.data == start + Flatten(recs[..i]) && w.pos == |w.data|
    {
      ghost var d0 := w.data;
      WriteAnimation(w, c, xs[i]);
      AnimationEncoded(c, xs[i]);
      FlattenStep(start, recs, i, d0, w.data);
    }
    Whole(recs);
    ConcatFlat(xs, AnimationEncoder(c));
  }

  // ---------------------------------------------------------------- the file

  /** The table of field names: its count, then each name's length and bytes. */
  method WriteTable(w: Writer, t: seq<string>)
    requires w.pos == |w.data|
    modifies w
    ensures w.data == old(w.data) + TableBytes(t) && w.pos == |w.data|
  {
    w.Append(I32Bytes(|t|));
    ghost var start := w.data;
    ghost var recs := Encoded(t, LengthPrefixed);
    for i := 0 to |t|
      invariant w.data == start + Flatten(recs[..i]) && w.pos == |w.data|
    {
      ghost var d0 := w.data;
      PutText(w, t[i]);
      FlattenStep(start, recs, i, d0, w.data);
    }
    Whole(recs);
    ConcatFlat(t, LengthPrefixed);
    Assoc(old(w.data), I32Bytes(|t|), Concat(t, LengthPrefixed));
  }

  /** The scene name, the root id, the node count and the node blocks (whose field tags are fixed from 5). */
  method WriteNodeSection(w: Writer, s: Scene, l: Layout)
    requires w.pos == |w.data|
    modifies w
    ensures w.data == old(w.data) + NodeSection(s, l) && w.pos == |w.data|
  {
    PutString(w, 1, s.name);
    PutInt(w, 2, s.rootId);
    WriteSection(w, 3, 5, l.e, NodeKind, 0, s.nodes);
    Assoc(old(w.data) + TagString(1, s.name), TagInt(2, s.rootId), Section(3, 5, l.e, NodeKind, 0, s.nodes));
    Assoc(old(w.data), TagString(1, s.name), TagInt(2, s.rootId) + Section(3, 5, l.e, NodeKind, 0, s.nodes));
  }

  /** The mesh count and the mesh blocks. */
  method WriteMeshPart(w: Writer, s: Scene, l: Layout)
    requires w.pos == |w.data|
    modifies w
    ensures w.data == old(w.data) + MeshPart(s, l) && w.pos == |w.data|
  {
    WriteSection(w, l.a, l.d, l.e, MeshKind, |s.nodes|, s.meshes);
  }

  /** An element section: the count, then the element blocks. */
  method WriteSection(w: Writer, t: int, d: int, e: int, kind: Kind, first: int, xs: seq<ElementData>)
    requires w.pos == |w.data|
    modifies w
    ensures w.data == old(w.data) + Section(t, d, e, kind, first, xs) && w.pos == |w.data|
  {
    PutInt(w, t, |xs|);
    ghost var d0 := w.data;
    WriteElements(w, t + 1, d, e, kind, first, xs);
    SectionWritten(t, d, e, kind, first, xs, old(w.data), d0, w.data);
  }

  /** The bone count and the bones loop; `k` is where the loop stopped, or -1. */
  method WriteBonePart(w: Writer, s: Scene, l: Layout, maps: seq<Option<string>>) returns (k: int)
    requires |maps| == |s.bones|
    requires w.pos == |w.data|
    modifies w
    ensures k == FirstIndex(maps, None) && -1 <= k < |s.bones| && w.pos == |w.data|
    ensures k == -1 ==> w.data == old(w.data) + BonePart(s, l)
    ensures k >= 0 ==> w.data == old(w.data) + (TagInt(l.b, |s.bones|) + (Elements(l.b + 1, l.d, l.e, BoneKind, FirstBoneId(s), s.bones[..k]) + FailedBone(l, ElementId(FirstBoneId(s), k), s.bones[k])))
  {
    PutInt(w, l.b, |s.bones|);
    ghost var d0 := w.data;
    k := WriteBones(w, l, FirstBoneId(s), s.bones, maps);
    if k == -1 {
      BonePartWritten(s, l, old(w.data), d0, w.data);
    } else {
      AppendedPair(old(w.data), TagInt(l.b, |s.bones|),
                   Elements(l.b + 1, l.d, l.e, BoneKind, FirstBoneId(s), s.bones[..k])
                   + FailedBone(l, ElementId(FirstBoneId(s), k), s.bones[k]), d0, w.data);
    }
  }

  /** The animation count and the animation blocks. */
  method WriteAnimationPart(w: Writer, s: Scene, l: Layout)
    requires w.pos == |w.data|
    modifies w
    ensures w.data == old(w.data) + AnimationPart(s, l) && w.pos == |w.data|
  {
    PutInt(w, l.c, |s.animations|);
    WriteAnimations(w, l.c, s.animations);
    Assoc(old(w.data), TagInt(l.c, |s.animations|), Animations(l.c, s.animations));
  }

  /** The message Export reports for the bone at index `k`, counted from 1 (and, as written, called a node). */
  function BoneFailure(k: int): string
  {
    "Failed to write node " + IntToString(k + 1) + ".\n"
  }

  /**
   * What Export leaves for a scene whose bones have the influence map names
   * `maps`: the whole file, or — at the first bone without one — the file as
   * far as that bone's tag `e`, with the head still zero, and the message.
   */
  function ExportResult(s: Scene, maps: seq<Option<string>>): (seq<byte>, Outcome)
    requires |maps| == |s.bones|
  {
    var k := FirstIndex(maps, None);
    if k == -1 then (SceneFile(s), Pass)
    else (FileFailedAtBone(s, k), Fail(BoneFailure(k)))
  }

  /** Everything after the head: the four sections, the bones as far as the loop went, and the animations only when it went to the end. */
  method WriteSceneBody(w: Writer, s: Scene, l: Layout, maps: seq<Option<string>>) returns (k: int)
    requires |maps| == |s.bones|
    requires w.pos == |w.data|
    modifies w
    ensures k == FirstIndex(maps, None) && -1 <= k < |s.bones| && w.pos == |w.data|
    ensures k == -1 ==> w.data == old(w.data) + SceneBody(s, l)
    ensures k >= 0 ==> w.data == old(w.data) + (NodeSection(s, l) + (MeshPart(s, l) + (TagInt(l.b, |s.bones|) + (Elements(l.b + 1, l.d, l.e, BoneKind, FirstBoneId(s), s.bones[..k]) + FailedBone(l, ElementId(FirstBoneId(s), k), s.bones[k])))))
  {
    WriteNodeSection(w, s, l);
    WriteMeshPart(w, s, l);
    k := WriteBonePart(w, s, l, maps);
    if k >= 0 {
      Assoc(old(w.data) + NodeSection(s, l), MeshPart(s, l), (TagInt(l.b, |s.bones|) + (Elements(l.b + 1, l.d, l.e, BoneKind, FirstBoneId(s), s.bones[..k]) + FailedBone(l, ElementId(FirstBoneId(s), k), s.bones[k]))));
      Assoc(old(w.data), NodeSection(s, l), MeshPart(s, l) + (TagInt(l.b, |s.bones|) + (Elements(l.b + 1, l.d, l.e, BoneKind, FirstBoneId(s), s.bones[..k]) + FailedBone(l, ElementId(FirstBoneId(s), k), s.bones[k]))));
      return;
    }
    WriteAnimationPart(w, s, l);
    Assoc4(old(w.data), NodeSection(s, l), MeshPart(s, l), BonePart(s, l), AnimationPart(s, l));
  }

  /** A fresh stream holding the zero head that Export patches at the end. */
  method NewSceneWriter() returns (w: Writer)
    ensures fresh(w) && w.data == Zeros(4) + Zeros(4) + Zeros(4) && w.pos == |w.data|
  {
    w := new Writer();
    w.Append(Zeros(4));
    w.Append(Zeros(4));
    w.Append(Zeros(4));
    assert [] + Zeros(4) == Zeros(4);
  }

  /**
   * The end of Export: the head patched with the stream's length and the
   * length after the head, then the table of field names.
   */
  method FinishScene(w: Writer, s: Scene, l: Layout)
    requires l == LayoutOf(s)
    requires w.data == Zeros(4) + Zeros(4) + Zeros(4) + SceneBody(s, l) && w.pos == |w.data|
    modifies w
    ensures w.data == SceneFile(s)
  {
    ghost var d0 := w.data;
    var blockLength := w.pos;
    w.Patch(0, I32Bytes(blockLength));
    ghost var d1 := w.data;
    w.Patch(8, I32Bytes(blockLength - 12));
    HeadWritten(SceneBody(s, l), blockLength, d0, d1, w.data);
    ghost var d2 := w.data;
    WriteTable(w, l.table);
    FileWritten(SceneBody(s, l), TableBytes(l.table), blockLength, d2, w.data);
    SceneFileIs(s, w.data);
  }

  /**
   * The body of Export after the counts are known: the zero head (a double
   * and an int, twelve zero bytes), the sections, the head patched with the
   * file's lengths, and the table of field names.
   */
  method WriteScene(s: Scene, maps: seq<Option<string>>) returns (file: seq<byte>, o: Outcome)
    requires |maps| == |s.bones|
    ensures (file, o) == ExportResult(s, maps)
  {
    var l := LayoutOf(s);
    var w := NewSceneWriter();
    var k := WriteSceneBody(w, s, l, maps);
    if k >= 0 {
      FailedFile(s, k, w.data);
      return w.data, Fail(BoneFailure(k));
    }
    FinishScene(w, s, l);
    return w.data, Pass;
  }
}
