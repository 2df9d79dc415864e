// Reading a mesh scene (MSB) file back as Import does: every tag and block
// length is skipped unchecked, counts are read as uints, strings as a uint
// length then that many characters, and the rest as ints, uints and floats.
// Each reader returns what it read and the part of the stream after it, or
// None where Import's BinaryReader throws. The round-trip lemmas show that
// the bytes Export lays out read back as the values it wrote.
module MsbParse {
  import opened Wrappers
  import opened Machine
  import opened Float32
  import opened Text
  import opened Binary
  import opened MsbRecords
  import opened MsbFormat

  // ---------------------------------------------------------------- fields

  /**
   * ReadUInt32, then ReadChars((int)length): a length above int.MaxValue
   * turns negative and throws; a stream that ends first yields fewer characters.
   */
  function ReadString(s: seq<byte>): Option<(string, seq<byte>)>
  {
    match ReadU32(s)
    case None => None
    case Some((n, r)) => if n > Int32Max then None else Some(ReadChars(r, n))
  }

  /** Seek past a 4-byte tag, then ReadInt32. */
  function TaggedI32(s: seq<byte>): Option<(int, seq<byte>)>
  {
    ReadI32(Skip(s, 4))
  }

  /** Seek past a 4-byte tag, then ReadUInt32. */
  function TaggedU32(s: seq<byte>): Option<(u32, seq<byte>)>
  {
    ReadU32(Skip(s, 4))
  }

  /** Seek past a 4-byte tag, then ReadSingle. */
  function TaggedFloat(s: seq<byte>): Option<(F32, seq<byte>)>
  {
    ReadFloat(Skip(s, 4))
  }

  /** Seek past a 4-byte tag, then a string. */
  function TaggedString(s: seq<byte>): Option<(string, seq<byte>)>
  {
    ReadString(Skip(s, 4))
  }

  /** Text that reads back as written: one byte per character, and a length that fits an int. */
  predicate Readable(s: string)
  {
    IsAscii(s) && |s| <= Int32Max
  }

  lemma TagIntRead(t: int, x: int, rest: seq<byte>)
    requires IsInt32(x)
    ensures TaggedI32(TagInt(t, x) + rest) == Some((x, rest))
  {
    Assoc(I32Bytes(t), I32Bytes(x), rest);
    SkipPrefix(I32Bytes(t), I32Bytes(x) + rest);
    I32RoundTrip(x, rest);
  }

  /** A count written as an int reads back as the same uint. */
  lemma TagCountRead(t: int, n: int, rest: seq<byte>)
    requires 0 <= n <= UInt32Max
    ensures TaggedU32(TagInt(t, n) + rest) == Some((n as u32, rest))
  {
    Assoc(I32Bytes(t), I32Bytes(n), rest);
    SkipPrefix(I32Bytes(t), I32Bytes(n) + rest);
    U32RoundTrip(n as u32, rest);
  }

  lemma TagU32Read(t: int, x: u32, rest: seq<byte>)
    ensures TaggedU32(TagU32(t, x) + rest) == Some((x, rest))
  {
    Assoc(I32Bytes(t), U32Bytes(x), rest);
    SkipPrefix(I32Bytes(t), U32Bytes(x) + rest);
    U32RoundTrip(x, rest);
  }

  lemma TagFloatRead(t: int, f: F32, rest: seq<byte>)
    ensures TaggedFloat(TagFloat(t, f) + rest) == Some((f, rest))
  {
    Assoc(I32Bytes(t), FloatBytes(f), rest);
    SkipPrefix(I32Bytes(t), FloatBytes(f) + rest);
    FloatRoundTrip(f, rest);
  }

  lemma StringRead(s: string, rest: seq<byte>)
    requires Readable(s)
    ensures ReadString(LengthPrefixed(s) + rest) == Some((s, rest))
  {
    Assoc(I32Bytes(|s|), StringBytes(s), rest);
    U32RoundTrip(|s| as u32, StringBytes(s) + rest);
    CharsRoundTrip(s, rest);
  }

  lemma TagStringRead(t: int, s: string, rest: seq<byte>)
    requires Readable(s)
    ensures TaggedString(TagString(t, s) + rest) == Some((s, rest))
  {
    Assoc(I32Bytes(t), LengthPrefixed(s), rest);
    SkipPrefix(I32Bytes(t), LengthPrefixed(s) + rest);
    StringRead(s, rest);
  }

  /** Seeking 8 bytes past a block's tag and length lands on its body. */
  lemma BlockSkip(tag: int, body: seq<byte>, rest: seq<byte>)
    ensures Skip(Block(tag, body) + rest, 8) == body + rest
  {
    var head := I32Bytes(tag) + I32Bytes(|body|);
    assert Block(tag, body) + rest == head + (body + rest);
    SkipPrefix(head, body + rest);
  }

  /** Seeking 8 bytes past a tagged int. */
  lemma FieldSkip(t: int, x: int, rest: seq<byte>)
    ensures Skip(TagInt(t, x) + rest, 8) == rest
  {
    SkipPrefix(TagInt(t, x), rest);
  }

  // ---------------------------------------------------------------- attributes

  /** An attribute: seek past its block head, then its kind's spelling and its descriptor. */
  function ReadAttribute(s: seq<byte>): Option<(Attribute, seq<byte>)>
  {
    match TaggedString(Skip(s, 8))
    case None => None
    case Some((text, r)) =>
      match TaggedString(r)
      case None => None
      case Some((descriptor, r')) => Some((Attribute(GetAttributeName(text), descriptor), r'))
  }

  // The kinds' spellings, a few at a time to keep each proof small.
  lemma SpellingsAscii1()
    ensures IsAscii("GunPlacement") && IsAscii("BoardingEffectPoint") && IsAscii("DamageSection")
  {
  }

  lemma SpellingsAscii2()
    ensures IsAscii("DockPoint") && IsAscii("EnginePortPlacement") && IsAscii("FlagAttachmentPoint")
  {
  }

  lemma SpellingsAscii3()
    ensures IsAscii("GunMuzzlePlacement") && IsAscii("GunVerticalPivotPlacement") && IsAscii("PlayEffect")
  {
  }

  lemma SpellingsAscii4()
    ensures IsAscii("TorpedoHomingPoint") && IsAscii("ToweePoint") && IsAscii("TowerPoint") && IsAscii("WakePlacement")
  {
  }

  /** Every kind's spelling is plain ASCII. */
  lemma AttributeTextReadable(a: AttributeName)
    ensures Readable(AttributeText(a))
  {
    SpellingsAscii1();
    SpellingsAscii2();
    SpellingsAscii3();
    SpellingsAscii4();
  }

  lemma AttributeRead(d: int, a: Attribute, rest: seq<byte>)
    requires Readable(a.descriptor)
    ensures ReadAttribute(AttributeRecord(d, a) + rest) == Some((a, rest))
  {
    var text := AttributeText(a.name);
    var body := TagString(d + 6, text) + TagString(d + 7, a.descriptor);
    BlockSkip(d + 5, body, rest);
    Assoc(TagString(d + 6, text), TagString(d + 7, a.descriptor), rest);
    AttributeTextReadable(a.name);
    TagStringRead(d + 6, text, TagString(d + 7, a.descriptor) + rest);
    TagStringRead(d + 7, a.descriptor, rest);
    AttributeNameRoundTrip(a.name);
  }

  /** The attributes Export writes read back in order. */
  lemma AttributesRead(d: int, attrs: seq<Attribute>, rest: seq<byte>)
    requires forall i :: 0 <= i < |attrs| ==> Readable(attrs[i].descriptor)
    ensures ReadRun(ReadAttribute, Attributes(d, attrs) + rest, |attrs|) == Run(attrs, rest, true)
  {
    forall i, r | 0 <= i < |attrs|
      ensures ReadAttribute(AttributeEncoder(d)(attrs[i]) + r) == Some((attrs[i], r))
    {
      AttributeRead(d, attrs[i], r);
    }
    ConcatRead(ReadAttribute, AttributeEncoder(d), attrs, attrs, rest);
  }

  // ---------------------------------------------------------------- elements

  /** Seek past the id field, read the parent id, seek past the type field, read the real name. */
  function ReadHead(s: seq<byte>): Option<(int, string, seq<byte>)>
  {
    match TaggedI32(Skip(s, 8))
    case None => None
    case Some((parent, r)) =>
      match TaggedString(Skip(r, 8))
      case None => None
      case Some((name, r')) => Some((parent, name, r'))
  }

  /** Three floats. */
  function ReadPoint(s: seq<byte>): Option<(Point3d, seq<byte>)>
  {
    match ReadFloat(s)
    case None => None
    case Some((x, r)) =>
      match ReadFloat(r)
      case None => None
      case Some((y, r')) =>
        match ReadFloat(r')
        case None => None
        case Some((z, r'')) => Some((Point3d(x, y, z), r''))
  }

  /** Three floats, each after a tag. */
  function ReadTaggedPoint(s: seq<byte>): Option<(Point3d, seq<byte>)>
  {
    match TaggedFloat(s)
    case None => None
    case Some((x, r)) =>
      match TaggedFloat(r)
      case None => None
      case Some((y, r')) =>
        match TaggedFloat(r')
        case None => None
        case Some((z, r'')) => Some((Point3d(x, y, z), r''))
  }

  /** The pivot after its tag, then position and scale. */
  function ReadPlacement(s: seq<byte>): Option<(Point3d, Point3d, Point3d, seq<byte>)>
  {
    match ReadPoint(Skip(s, 4))
    case None => None
    case Some((pivot, r)) =>
      match ReadTaggedPoint(r)
      case None => None
      case Some((position, r')) =>
        match ReadTaggedPoint(r')
        case None => None
        case Some((scale, r'')) => Some((pivot, position, scale, r''))
  }

  /** A bone's influence map name and rest length. */
  function ReadBoneTail(s: seq<byte>): Option<(string, F32, seq<byte>)>
  {
    match TaggedString(s)
    case None => None
    case Some((influence, r)) =>
      match TaggedFloat(r)
      case None => None
      case Some((restLength, r')) => Some((influence, restLength, r'))
  }

  /**
   * The fields every element has, after the block head: the raw parent id
   * (not yet shifted), the real name, pivot, position, scale and attributes;
   * the two bone fields are left empty and zero.
   */
  function ReadFront(s: seq<byte>): Option<(ElementData, seq<byte>)>
  {
    match ReadHead(s)
    case None => None
    case Some((parent, name, r1)) =>
      match ReadPlacement(r1)
      case None => None
      case Some((pivot, position, scale, r2)) =>
        match TaggedU32(r2)
        case None => None
        case Some((n, r3)) =>
          match ReadAll(ReadAttribute, r3, n)
          case None => None
          case Some((attrs, r4)) => Some((ElementData(parent, name, pivot, position, scale, attrs, "", Zero), r4))
  }

  /** One node, mesh or bone block as Import reads it: its fields, and a bone's two fields after them. */
  function ReadElement(kind: Kind, s: seq<byte>): Option<(ElementData, seq<byte>)>
  {
    match ReadFront(Skip(s, 8))
    case None => None
    case Some((x, r)) =>
      if kind != BoneKind then Some((x, r))
      else
        match ReadBoneTail(r)
        case None => None
        case Some((influence, restLength, r')) => Some((x.(influenceMapName := influence, restLength := restLength), r'))
  }

  function ReadNode(s: seq<byte>): Option<(ElementData, seq<byte>)>
  {
    ReadElement(NodeKind, s)
  }

  function ReadMesh(s: seq<byte>): Option<(ElementData, seq<byte>)>
  {
    ReadElement(MeshKind, s)
  }

  function ReadBone(s: seq<byte>): Option<(ElementData, seq<byte>)>
  {
    ReadElement(BoneKind, s)
  }

  /** The reader of one block of the given kind. */
  function ElementReader(kind: Kind): seq<byte> -> Option<(ElementData, seq<byte>)>
  {
    match kind
    case NodeKind => ReadNode
    case MeshKind => ReadMesh
    case BoneKind => ReadBone
  }

  /**
   * An element that reads back as written: an int parent id, readable names,
   * a count that fits a uint, and for a node or a mesh the two bone fields
   * at the values a read gives them.
   */
  predicate ElementReadable(kind: Kind, x: ElementData)
  {
    && IsInt32(x.parentId) && Readable(x.realName) && |x.attributes| <= UInt32Max
    && (forall i :: 0 <= i < |x.attributes| ==> Readable(x.attributes[i].descriptor))
    && (if kind == BoneKind then Readable(x.influenceMapName) else x.influenceMapName == "" && x.restLength == Zero)
  }

  lemma HeadRead(d: int, id: int, kind: Kind, x: ElementData, rest: seq<byte>)
    requires IsInt32(x.parentId) && Readable(x.realName)
    ensures ReadHead(ElementHead(d, id, kind, x) + rest) == Some((x.parentId, x.realName, rest))
  {
    var a, b, c, n := TagInt(2, id), TagInt(d, x.parentId), TagInt(d + 1, TypeNumber(kind)), TagString(1, x.realName);
    assert ElementHead(d, id, kind, x) + rest == a + (b + (c + (n + rest)));
    FieldSkip(2, id, b + (c + (n + rest)));
    TagIntRead(d, x.parentId, c + (n + rest));
    FieldSkip(d + 1, TypeNumber(kind), n + rest);
    TagStringRead(1, x.realName, rest);
  }

  lemma PointRead(p: Point3d, rest: seq<byte>)
    ensures ReadPoint(PointBytes(p) + rest) == Some((p, rest))
  {
    assert PointBytes(p) + rest == FloatBytes(p.x) + (FloatBytes(p.y) + (FloatBytes(p.z) + rest));
    FloatRoundTrip(p.x, FloatBytes(p.y) + (FloatBytes(p.z) + rest));
    FloatRoundTrip(p.y, FloatBytes(p.z) + rest);
    FloatRoundTrip(p.z, rest);
  }

  lemma TaggedPointRead(t: int, p: Point3d, rest: seq<byte>)
    ensures ReadTaggedPoint(TaggedPoint(t, p) + rest) == Some((p, rest))
  {
    assert TaggedPoint(t, p) + rest == TagFloat(t, p.x) + (TagFloat(t, p.y) + (TagFloat(t, p.z) + rest));
    TagFloatRead(t, p.x, TagFloat(t, p.y) + (TagFloat(t, p.z) + rest));
    TagFloatRead(t, p.y, TagFloat(t, p.z) + rest);
    TagFloatRead(t, p.z, rest);
  }

  lemma PlacementRead(d: int, x: ElementData, rest: seq<byte>)
    ensures ReadPlacement(Placement(d, x) + rest) == Some((x.pivot, x.position, x.scale, rest))
  {
    var pos, scale := TaggedPoint(d + 3, x.position), TaggedPoint(d + 3, x.scale);
    assert Placement(d, x) + rest == I32Bytes(d + 2) + (PointBytes(x.pivot) + (pos + (scale + rest)));
    SkipPrefix(I32Bytes(d + 2), PointBytes(x.pivot) + (pos + (scale + rest)));
    PointRead(x.pivot, pos + (scale + rest));
    TaggedPointRead(d + 3, x.position, scale + rest);
    TaggedPointRead(d + 3, x.scale, rest);
  }

  lemma BoneTailRead(e: int, x: ElementData, rest: seq<byte>)
    requires Readable(x.influenceMapName)
    ensures ReadBoneTail(BoneTail(e, x) + rest) == Some((x.influenceMapName, x.restLength, rest))
  {
    Assoc(TagString(e, x.influenceMapName), TagFloat(e + 1, x.restLength), rest);
    TagStringRead(e, x.influenceMapName, TagFloat(e + 1, x.restLength) + rest);
    TagFloatRead(e + 1, x.restLength, rest);
  }

  /** ReadFront, one field group after another. */
  lemma FrontSteps(s: seq<byte>, x: ElementData, r1: seq<byte>, r2: seq<byte>, r3: seq<byte>, rest: seq<byte>)
    requires ReadHead(s) == Some((x.parentId, x.realName, r1))
    requires ReadPlacement(r1) == Some((x.pivot, x.position, x.scale, r2))
    requires |x.attributes| <= UInt32Max && TaggedU32(r2) == Some((|x.attributes| as u32, r3))
    requires ReadRun(ReadAttribute, r3, |x.attributes|) == Run(x.attributes, rest, true)
    ensures ReadFront(s) == Some((x.(influenceMapName := "", restLength := Zero), rest))
  {
  }

  /** The fields every element has read back, with the two bone fields empty and zero. */
  lemma FrontRead(d: int, id: int, kind: Kind, x: ElementData, rest: seq<byte>)
    requires ElementReadable(kind, x)
    ensures ReadFront(ElementFront(d, id, kind, x) + rest) == Some((x.(influenceMapName := "", restLength := Zero), rest))
  {
    var head, place := ElementHead(d, id, kind, x), Placement(d, x);
    var count, attrs := TagInt(d + 4, |x.attributes|), Attributes(d, x.attributes);
    var r3 := attrs + rest;
    var r2 := count + r3;
    var r1 := place + r2;
    assert ElementFront(d, id, kind, x) + rest == head + r1 by {
      Assoc(head, place + (count + attrs), rest);
      Assoc(place, count + attrs, rest);
      Assoc(count, attrs, rest);
    }
    HeadRead(d, id, kind, x, r1);
    PlacementRead(d, x, r2);
    TagCountRead(d + 4, |x.attributes|, r3);
    AttributesRead(d, x.attributes, rest);
    FrontSteps(head + r1, x, r1, r2, r3, rest);
  }

  /** An element block reads back as the element Export wrote, whatever its tags and id. */
  lemma ElementRead(tag: int, d: int, e: int, id: int, kind: Kind, x: ElementData, rest: seq<byte>)
    requires ElementReadable(kind, x)
    ensures ReadElement(kind, ElementRecord(tag, d, e, id, kind, x) + rest) == Some((x, rest))
  {
    var front, tail := ElementFront(d, id, kind, x), KindTail(e, kind, x);
    var r := tail + rest;
    assert Skip(ElementRecord(tag, d, e, id, kind, x) + rest, 8) == front + r by {
      BlockSkip(tag, ElementBody(d, e, id, kind, x), rest);
      Assoc(front, tail, rest);
    }
    FrontRead(d, id, kind, x, r);
    if kind == BoneKind {
      BoneTailRead(e, x, rest);
    } else {
      assert r == rest;
    }
  }

  /** ElementRead, through the encoder and the reader Export's and Import's loops use. */
  lemma ElementEncodedRead(tag: int, d: int, e: int, kind: Kind, p: (int, ElementData), r: seq<byte>)
    requires ElementReadable(kind, p.1)
    ensures ElementReader(kind)(ElementEncoder(tag, d, e, kind)(p) + r) == Some((p.1, r))
  {
    ElementRead(tag, d, e, p.0, kind, p.1, r);
    match kind
    case NodeKind =>
    case MeshKind =>
    case BoneKind =>
  }

  /** Each numbered element's block reads back as that element. */
  lemma ElementEncoderRead(tag: int, d: int, e: int, kind: Kind, first: int, xs: seq<ElementData>)
    requires forall i :: 0 <= i < |xs| ==> ElementReadable(kind, xs[i])
    ensures forall i, r :: 0 <= i < |xs| ==>
      ElementReader(kind)(ElementEncoder(tag, d, e, kind)(Numbered(first, xs)[i]) + r) == Some((xs[i], r))
  {
    forall i, r | 0 <= i < |xs|
      ensures ElementReader(kind)(ElementEncoder(tag, d, e, kind)(Numbered(first, xs)[i]) + r) == Some((xs[i], r))
    {
      NumberedAt(first, xs, i);
      ElementEncodedRead(tag, d, e, kind, Numbered(first, xs)[i], r);
    }
  }

  /** The element blocks Export writes read back in order. */
  lemma ElementsRead(tag: int, d: int, e: int, kind: Kind, first: int, xs: seq<ElementData>, rest: seq<byte>)
    requires forall i :: 0 <= i < |xs| ==> ElementReadable(kind, xs[i])
    ensures ReadRun(ElementReader(kind), Elements(tag, d, e, kind, first, xs) + rest, |xs|) == Run(xs, rest, true)
  {
    ElementEncoderRead(tag, d, e, kind, first, xs);
    ConcatRead(ElementReader(kind), ElementEncoder(tag, d, e, kind), Numbered(first, xs), xs, rest);
  }

  // ---------------------------------------------------------------- animations

  /** The eight values of a keyframe, each after its tag (the smoothing as a uint). */
  function ReadKeyframeValues(s: seq<byte>): Option<(Keyframe, seq<byte>)>
  {
    match TaggedFloat(s)
    case None => None
    case Some((time, r1)) =>
      match TaggedFloat(r1)
      case None => None
      case Some((value, r2)) =>
        match TaggedU32(r2)
        case None => None
        case Some((smoothing, r3)) =>
          match TaggedFloat(r3)
          case None => None
          case Some((tension, r4)) =>
            match TaggedFloat(r4)
            case None => None
            case Some((continuity, r5)) =>
              match TaggedFloat(r5)
              case None => None
              case Some((bias, r6)) =>
                match TaggedFloat(r6)
                case None => None
                case Some((incoming, r7)) =>
                  match TaggedFloat(r7)
                  case None => None
                  case Some((outgoing, r8)) =>
                    Some((Keyframe(time, value, smoothing, tension, continuity, bias, incoming, outgoing), r8))
  }

  /** A keyframe: seek past its tag and length, then its values. */
  function ReadKeyframe(s: seq<byte>): Option<(Keyframe, seq<byte>)>
  {
    ReadKeyframeValues(Skip(s, 8))
  }

  /** A channel: seek past its tag and length, read the keyframe count, then the keyframes. */
  function ReadChannel(s: seq<byte>): Option<(seq<Keyframe>, seq<byte>)>
  {
    match TaggedU32(Skip(s, 8))
    case None => None
    case Some((n, r)) => ReadAll(ReadKeyframe, r, n)
  }

  /** A motion: its node id (not yet shifted), then, past the block head, six channels. */
  function ReadMotion(s: seq<byte>): Option<(MotionData, seq<byte>)>
  {
    match TaggedI32(s)
    case None => None
    case Some((id, r)) =>
      match ReadAll(ReadChannel, Skip(r, 8), 6)
      case None => None
      case Some((channels, r')) => Some((MotionData(id, channels), r'))
  }

  /** An animation: past the block head, its real name, duration, motion count and motions. */
  function ReadAnimation(s: seq<byte>): Option<(AnimationData, seq<byte>)>
  {
    match TaggedString(Skip(s, 8))
    case None => None
    case Some((name, r1)) =>
      match TaggedFloat(r1)
      case None => None
      case Some((duration, r2)) =>
        match TaggedU32(r2)
        case None => None
        case Some((n, r3)) =>
          match ReadAll(ReadMotion, r3, n)
          case None => None
          case Some((motions, r4)) => Some((AnimationData(name, duration, motions), r4))
  }

  /** A motion that reads back as written: an int node id and six channels whose counts fit a uint. */
  predicate MotionReadable(m: MotionData)
  {
    IsInt32(m.nodeId) && |m.channels| == 6 && forall k :: 0 <= k < 6 ==> |m.channels[k]| <= UInt32Max
  }

  predicate AnimationReadable(x: AnimationData)
  {
    Readable(x.realName) && |x.motions| <= UInt32Max && forall j :: 0 <= j < |x.motions| ==> MotionReadable(x.motions[j])
  }

  /** Every motion has the six channels the channel loop reads. */
  predicate SixChannels(ms: seq<MotionData>)
  {
    forall j :: 0 <= j < |ms| ==> |ms[j].channels| == 6
  }

  /** A motion read from a stream has six channels. */
  lemma MotionSix(s: seq<byte>)
    ensures ReadMotion(s).Some? ==> |ReadMotion(s).value.0.channels| == 6
  {
    match TaggedI32(s)
    case None =>
    case Some((id, r)) =>
      var all := ReadAll(ReadChannel, Skip(r, 8), 6);
      if all.Some? {
        assert ReadMotion(s) == Some((MotionData(id, all.value.0), all.value.1));
      }
  }

  /** Motions read one after another each carry six channels. */
  lemma {:induction false} MotionRunSix(s: seq<byte>, n: nat)
    ensures SixChannels(ReadRun(ReadMotion, s, n).items)
  {
    if n > 0 {
      MotionRunSix(s, n - 1);
      var run := ReadRun(ReadMotion, s, n - 1);
      MotionSix(run.rest);
    }
  }

  /** An animation read from a stream has six channels in each motion. */
  lemma ReadAnimationSix(s: seq<byte>, x: AnimationData, rest: seq<byte>)
    requires ReadAnimation(s) == Some((x, rest))
    ensures SixChannels(x.motions)
  {
    var (name, r1) := TaggedString(Skip(s, 8)).value;
    var (duration, r2) := TaggedFloat(r1).value;
    var (n, r3) := TaggedU32(r2).value;
    MotionRunSix(r3, n);
    assert x.motions == ReadRun(ReadMotion, r3, n).items;
  }

  /** ReadKeyframeValues, one value after another. */
  lemma ValuesSteps(s: seq<byte>, k: Keyframe, r1: seq<byte>, r2: seq<byte>, r3: seq<byte>, r4: seq<byte>,
                    r5: seq<byte>, r6: seq<byte>, r7: seq<byte>, rest: seq<byte>)
    requires TaggedFloat(s) == Some((k.time, r1)) && TaggedFloat(r1) == Some((k.value, r2))
    requires TaggedU32(r2) == Some((k.smoothing, r3)) && TaggedFloat(r3) == Some((k.tension, r4))
    requires TaggedFloat(r4) == Some((k.continuity, r5)) && TaggedFloat(r5) == Some((k.bias, r6))
    requires TaggedFloat(r6) == Some((k.incoming, r7)) && TaggedFloat(r7) == Some((k.outgoing, rest))
    ensures ReadKeyframeValues(s) == Some((k, rest))
  {
  }

  lemma KeyframeValuesRead(c: int, k: Keyframe, rest: seq<byte>)
    ensures ReadKeyframeValues(KeyframeValues(c, k) + rest) == Some((k, rest))
  {
    var f8 := TagFloat(c + 16, k.outgoing);
    var f7 := TagFloat(c + 15, k.incoming);
    var f6 := TagFloat(c + 14, k.bias);
    var f5 := TagFloat(c + 13, k.continuity);
    var f4 := TagFloat(c + 12, k.tension);
    var f3 := TagU32(c + 11, k.smoothing);
    var f2 := TagFloat(c + 10, k.value);
    var f1 := TagFloat(c + 9, k.time);
    var r7 := f8 + rest;
    var r6 := f7 + r7;
    var r5 := f6 + r6;
    var r4 := f5 + r5;
    var r3 := f4 + r4;
    var r2 := f3 + r3;
    var r1 := f2 + r2;
    assert KeyframeValues(c, k) + rest == f1 + r1 by {
      Assoc(f7, f8, rest);
      Assoc(f6, f7 + f8, rest);
      Assoc(f5, f6 + (f7 + f8), rest);
      Assoc(f4, f5 + (f6 + (f7 + f8)), rest);
      Assoc(f3, f4 + (f5 + (f6 + (f7 + f8))), rest);
      Assoc(f2, f3 + (f4 + (f5 + (f6 + (f7 + f8)))), rest);
      Assoc(f1, f2 + (f3 + (f4 + (f5 + (f6 + (f7 + f8))))), rest);
    }
    TagFloatRead(c + 9, k.time, r1);
    TagFloatRead(c + 10, k.value, r2);
    TagU32Read(c + 11, k.smoothing, r3);
    TagFloatRead(c + 12, k.tension, r4);
    TagFloatRead(c + 13, k.continuity, r5);
    TagFloatRead(c + 14, k.bias, r6);
    TagFloatRead(c + 15, k.incoming, r7);
    TagFloatRead(c + 16, k.outgoing, rest);
    ValuesSteps(f1 + r1, k, r1, r2, r3, r4, r5, r6, r7, rest);
  }

  lemma KeyframeRead(c: int, k: Keyframe, rest: seq<byte>)
    ensures ReadKeyframe(KeyframeEncoder(c)(k) + rest) == Some((k, rest))
  {
    Assoc(TagInt(c + 8, 64), KeyframeValues(c, k), rest);
    FieldSkip(c + 8, 64, KeyframeValues(c, k) + rest);
    KeyframeValuesRead(c, k, rest);
  }

  lemma KeyframesRead(c: int, ks: seq<Keyframe>, rest: seq<byte>)
    ensures ReadRun(ReadKeyframe, Keyframes(c, ks) + rest, |ks|) == Run(ks, rest, true)
  {
    forall i, r | 0 <= i < |ks|
      ensures ReadKeyframe(KeyframeEncoder(c)(ks[i]) + r) == Some((ks[i], r))
    {
      KeyframeRead(c, ks[i], r);
    }
    ConcatRead(ReadKeyframe, KeyframeEncoder(c), ks, ks, rest);
  }

  /** ReadChannel, on a stream whose fields read as given. */
  lemma ChannelSteps(s: seq<byte>, ks: seq<Keyframe>, r: seq<byte>, rest: seq<byte>)
    requires |ks| <= UInt32Max && TaggedU32(Skip(s, 8)) == Some((|ks| as u32, r))
    requires ReadRun(ReadKeyframe, r, |ks|) == Run(ks, rest, true)
    ensures ReadChannel(s) == Some((ks, rest))
  {
  }

  lemma ChannelRead(c: int, ks: seq<Keyframe>, rest: seq<byte>)
    requires |ks| <= UInt32Max
    ensures ReadChannel(ChannelEncoder(c)(ks) + rest) == Some((ks, rest))
  {
    var size, count, frames := TagInt(c + 6, |ks| * 72 + 8), TagInt(c + 7, |ks|), Keyframes(c, ks);
    var r := frames + rest;
    assert ChannelRecord(c, ks) + rest == size + (count + r) by {
      Assoc(size, count + frames, rest);
      Assoc(count, frames, rest);
    }
    FieldSkip(c + 6, |ks| * 72 + 8, count + r);
    TagCountRead(c + 7, |ks|, r);
    KeyframesRead(c, ks, rest);
    ChannelSteps(size + (count + r), ks, r, rest);
  }

  lemma ChannelsRead(c: int, chs: seq<seq<Keyframe>>, rest: seq<byte>)
    requires forall k :: 0 <= k < |chs| ==> |chs[k]| <= UInt32Max
    ensures ReadRun(ReadChannel, Channels(c, chs) + rest, |chs|) == Run(chs, rest, true)
  {
    forall i, r | 0 <= i < |chs|
      ensures ReadChannel(ChannelEncoder(c)(chs[i]) + r) == Some((chs[i], r))
    {
      ChannelRead(c, chs[i], r);
    }
    ConcatRead(ReadChannel, ChannelEncoder(c), chs, chs, rest);
  }

  lemma MotionSteps(s: seq<byte>, m: MotionData, r: seq<byte>, rest: seq<byte>)
    requires TaggedI32(s) == Some((m.nodeId, r))
    requires ReadRun(ReadChannel, Skip(r, 8), 6) == Run(m.channels, rest, true)
    ensures ReadMotion(s) == Some((m, rest))
  {
  }

  lemma MotionRead(c: int, m: MotionData, rest: seq<byte>)
    requires MotionReadable(m)
    ensures ReadMotion(MotionEncoder(c)(m) + rest) == Some((m, rest))
  {
    var block := Block(c + 5, Channels(c, m.channels));
    Assoc(TagInt(c + 4, m.nodeId), block, rest);
    TagIntRead(c + 4, m.nodeId, block + rest);
    BlockSkip(c + 5, Channels(c, m.channels), rest);
    ChannelsRead(c, m.channels, rest);
    MotionSteps(TagInt(c + 4, m.nodeId) + (block + rest), m, block + rest, rest);
  }

  lemma MotionsRead(c: int, ms: seq<MotionData>, rest: seq<byte>)
    requires forall j :: 0 <= j < |ms| ==> MotionReadable(ms[j])
    ensures ReadRun(ReadMotion, Motions(c, ms) + rest, |ms|) == Run(ms, rest, true)
  {
    forall i, r | 0 <= i < |ms|
      ensures ReadMotion(MotionEncoder(c)(ms[i]) + r) == Some((ms[i], r))
    {
      MotionRead(c, ms[i], r);
    }
    ConcatRead(ReadMotion, MotionEncoder(c), ms, ms, rest);
  }

  lemma AnimationSteps(s: seq<byte>, x: AnimationData, r1: seq<byte>, r2: seq<byte>, r3: seq<byte>, rest: seq<byte>)
    requires TaggedString(Skip(s, 8)) == Some((x.realName, r1)) && TaggedFloat(r1) == Some((x.duration, r2))
    requires |x.motions| <= UInt32Max && TaggedU32(r2) == Some((|x.motions| as u32, r3))
    requires ReadRun(ReadMotion, r3, |x.motions|) == Run(x.motions, rest, true)
    ensures ReadAnimation(s) == Some((x, rest))
  {
  }

  lemma AnimationRead(c: int, x: AnimationData, rest: seq<byte>)
    requires AnimationReadable(x)
    ensures ReadAnimation(AnimationEncoder(c)(x) + rest) == Some((x, rest))
  {
    var name, duration := TagString(1, x.realName), TagFloat(c + 2, x.duration);
    var count, motions := TagInt(c + 3, |x.motions|), Motions(c, x.motions);
    var r3 := motions + rest;
    var r2 := count + r3;
    var r1 := duration + r2;
    assert Skip(AnimationRecord(c, x) + rest, 8) == name + r1 by {
      BlockSkip(c + 1, AnimationBody(c, x), rest);
      Assoc(name, duration + (count + motions), rest);
      Assoc(duration, count + motions, rest);
      Assoc(count, motions, rest);
    }
    TagStringRead(1, x.realName, r1);
    TagFloatRead(c + 2, x.duration, r2);
    TagCountRead(c + 3, |x.motions|, r3);
    MotionsRead(c, x.motions, rest);
    AnimationSteps(AnimationRecord(c, x) + rest, x, r1, r2, r3, rest);
  }

  lemma AnimationsRead(c: int, xs: seq<AnimationData>, rest: seq<byte>)
    requires forall i :: 0 <= i < |xs| ==> AnimationReadable(xs[i])
    ensures ReadRun(ReadAnimation, Animations(c, xs) + rest, |xs|) == Run(xs, rest, true)
  {
    forall i, r | 0 <= i < |xs|
      ensures ReadAnimation(AnimationEncoder(c)(xs[i]) + r) == Some((xs[i], r))
    {
      AnimationRead(c, xs[i], r);
    }
    ConcatRead(ReadAnimation, AnimationEncoder(c), xs, xs, rest);
  }

  // ---------------------------------------------------------------- the whole file

  /**
   * ReadHeaderData: seek past the 12-byte head and the name's tag, read the
   * name's length as a uint and seek past the name, then past the tagged root
   * id. Only the length read can fail; a seek beyond the end does not.
   */
  function ReadHeader(s: seq<byte>): Option<seq<byte>>
  {
    match TaggedU32(Skip(s, 12))
    case None => None
    case Some((n, r)) => Some(Skip(Skip(r, n as int), 8))
  }

  /** A tagged uint count, then that many items. */
  function ReadSection<T>(read: seq<byte> -> Option<(T, seq<byte>)>, s: seq<byte>): Option<(seq<T>, seq<byte>)>
  {
    match TaggedU32(s)
    case None => None
    case Some((n, r)) => ReadAll(read, r, n as int)
  }

  /** What a whole import reads: the four lists, ids not yet shifted. */
  datatype Contents = Contents(nodes: seq<ElementData>, meshes: seq<ElementData>, bones: seq<ElementData>,
                               animations: seq<AnimationData>)

  /** The header, then the node, mesh, bone and animation sections; the table after them is never read. */
  function ReadScene(s: seq<byte>): Option<Contents>
  {
    match ReadHeader(s)
    case None => None
    case Some(r0) =>
      match ReadSection(ElementReader(NodeKind), r0)
      case None => None
      case Some((nodes, r1)) =>
        match ReadSection(ElementReader(MeshKind), r1)
        case None => None
        case Some((meshes, r2)) =>
          match ReadSection(ElementReader(BoneKind), r2)
          case None => None
          case Some((bones, r3)) =>
            match ReadSection(ReadAnimation, r3)
            case None => None
            case Some((animations, _)) => Some(Contents(nodes, meshes, bones, animations))
  }

  /** A scene whose file reads back as written. */
  predicate SceneReadable(s: Scene)
  {
    && |s.name| <= UInt32Max
    && |s.nodes| <= UInt32Max && |s.meshes| <= UInt32Max && |s.bones| <= UInt32Max && |s.animations| <= UInt32Max
    && (forall i :: 0 <= i < |s.nodes| ==> ElementReadable(NodeKind, s.nodes[i]))
    && (forall i :: 0 <= i < |s.meshes| ==> ElementReadable(MeshKind, s.meshes[i]))
    && (forall i :: 0 <= i < |s.bones| ==> ElementReadable(BoneKind, s.bones[i]))
    && (forall i :: 0 <= i < |s.animations| ==> AnimationReadable(s.animations[i]))
  }
}
