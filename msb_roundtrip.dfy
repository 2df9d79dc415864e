// The round trip of a whole mesh scene file: the header is skipped, and
// each section's count and blocks read back as the list Export wrote,
// whatever tags the layout assigns.
module MsbRoundTrip {
  import opened Wrappers
  import opened Machine
  import opened Text
  import opened Binary
  import opened MsbRecords
  import opened MsbFormat
  import opened MsbParse

  /** The header is skipped whatever the head, name and root id hold, up to the node count. */
  lemma HeaderRead(head: seq<byte>, name: string, rootId: int, nodes: seq<byte>, rest: seq<byte>)
    requires |head| == 12 && |name| <= UInt32Max
    ensures ReadHeader(head + ((TagString(1, name) + (TagInt(2, rootId) + nodes)) + rest)) == Some(nodes + rest)
  {
    var chars, root := StringBytes(name), TagInt(2, rootId);
    var r := chars + (root + (nodes + rest));
    assert Skip(head + ((TagString(1, name) + (root + nodes)) + rest), 12) == TagInt(1, |name|) + r by {
      SkipPrefix(head, (TagString(1, name) + (root + nodes)) + rest);
      Assoc(TagString(1, name), root + nodes, rest);
      Assoc(root, nodes, rest);
      Assoc(I32Bytes(1), LengthPrefixed(name), root + (nodes + rest));
      Assoc(I32Bytes(|name|), chars, root + (nodes + rest));
      Assoc(I32Bytes(1), I32Bytes(|name|), r);
    }
    TagCountRead(1, |name|, r);
    SkipPrefix(chars, root + (nodes + rest));
    FieldSkip(2, rootId, nodes + rest);
  }

  /** A count written as an int, then blocks that read back as `xs`. */
  lemma CountedRead<T>(read: seq<byte> -> Option<(T, seq<byte>)>, t: int, xs: seq<T>, blocks: seq<byte>, rest: seq<byte>)
    requires |xs| <= UInt32Max && ReadRun(read, blocks + rest, |xs|) == Run(xs, rest, true)
    ensures ReadSection(read, TagInt(t, |xs|) + blocks + rest) == Some((xs, rest))
  {
    Assoc(TagInt(t, |xs|), blocks, rest);
    TagCountRead(t, |xs|, blocks + rest);
  }

  /** Reading a file made of a head, four parts that read as given, and a table. */
  lemma FileSteps(head: seq<byte>, n: seq<byte>, m: seq<byte>, b: seq<byte>, a: seq<byte>, table: seq<byte>,
                  c: Contents, r0: seq<byte>)
    requires ReadHeader(head + (n + (m + (b + (a + table))))) == Some(r0)
    requires ReadSection(ElementReader(NodeKind), r0) == Some((c.nodes, m + (b + (a + table))))
    requires ReadSection(ElementReader(MeshKind), m + (b + (a + table))) == Some((c.meshes, b + (a + table)))
    requires ReadSection(ElementReader(BoneKind), b + (a + table)) == Some((c.bones, a + table))
    requires ReadSection(ReadAnimation, a + table) == Some((c.animations, table))
    ensures ReadScene(head + (n + (m + (b + (a + table))))) == Some(c)
  {
  }

  /** The header, then the node count and the node blocks; `r0` is what the header leaves. */
  lemma NodePartRead(s: Scene, l: Layout, head: seq<byte>, rest: seq<byte>) returns (r0: seq<byte>)
    requires |head| == 12 && |s.name| <= UInt32Max
    requires |s.nodes| <= UInt32Max && forall i :: 0 <= i < |s.nodes| ==> ElementReadable(NodeKind, s.nodes[i])
    ensures ReadHeader(head + (NodeSection(s, l) + rest)) == Some(r0)
    ensures ReadSection(ElementReader(NodeKind), r0) == Some((s.nodes, rest))
  {
    r0 := Section(3, 5, l.e, NodeKind, 0, s.nodes) + rest;
    HeaderRead(head, s.name, s.rootId, Section(3, 5, l.e, NodeKind, 0, s.nodes), rest);
    ElementSectionRead(3, 5, l.e, NodeKind, 0, s.nodes, rest);
  }

  /** A count, then element blocks that read back in order. */
  lemma ElementSectionRead(t: int, d: int, e: int, kind: Kind, first: int, xs: seq<ElementData>, rest: seq<byte>)
    requires |xs| <= UInt32Max && forall i :: 0 <= i < |xs| ==> ElementReadable(kind, xs[i])
    ensures ReadSection(ElementReader(kind), Section(t, d, e, kind, first, xs) + rest) == Some((xs, rest))
  {
    ElementsRead(t + 1, d, e, kind, first, xs, rest);
    CountedRead(ElementReader(kind), t, xs, Elements(t + 1, d, e, kind, first, xs), rest);
  }

  /** A count, then animation blocks that read back in order. */
  lemma AnimationSectionRead(c: int, xs: seq<AnimationData>, rest: seq<byte>)
    requires |xs| <= UInt32Max && forall i :: 0 <= i < |xs| ==> AnimationReadable(xs[i])
    ensures ReadSection(ReadAnimation, TagInt(c, |xs|) + Animations(c, xs) + rest) == Some((xs, rest))
  {
    AnimationsRead(c, xs, rest);
    CountedRead(ReadAnimation, c, xs, Animations(c, xs), rest);
  }

  /** Any file whose body is four parts, regrouped for reading part by part. */
  lemma FileParts(n: seq<byte>, m: seq<byte>, b: seq<byte>, a: seq<byte>, table: seq<byte>)
    ensures FileOf(n + (m + (b + a)), table) == HeadBytes(12 + |n + (m + (b + a))|) + (n + (m + (b + (a + table))))
  {
    Assoc(n, m + (b + a), table);
    Assoc(m, b + a, table);
    Assoc(b, a, table);
  }

  /** The mesh part reads back as the meshes in front of whatever follows it. */
  lemma MeshPartRead(s: Scene, l: Layout, rest: seq<byte>)
    requires |s.meshes| <= UInt32Max && forall i :: 0 <= i < |s.meshes| ==> ElementReadable(MeshKind, s.meshes[i])
    ensures ReadSection(ElementReader(MeshKind), MeshPart(s, l) + rest) == Some((s.meshes, rest))
  {
    ElementSectionRead(l.a, l.d, l.e, MeshKind, |s.nodes|, s.meshes, rest);
  }

  /** The bone part reads back as the bones in front of whatever follows it. */
  lemma BonePartRead(s: Scene, l: Layout, rest: seq<byte>)
    requires |s.bones| <= UInt32Max && forall i :: 0 <= i < |s.bones| ==> ElementReadable(BoneKind, s.bones[i])
    ensures ReadSection(ElementReader(BoneKind), BonePart(s, l) + rest) == Some((s.bones, rest))
  {
    ElementSectionRead(l.b, l.d, l.e, BoneKind, FirstBoneId(s), s.bones, rest);
  }

  /** The animation part reads back as the animations in front of whatever follows it. */
  lemma AnimationPartRead(s: Scene, l: Layout, rest: seq<byte>)
    requires |s.animations| <= UInt32Max && forall i :: 0 <= i < |s.animations| ==> AnimationReadable(s.animations[i])
    ensures ReadSection(ReadAnimation, AnimationPart(s, l) + rest) == Some((s.animations, rest))
  {
    AnimationSectionRead(l.c, s.animations, rest);
  }

  /** Whatever the tags, Import reads back exactly the four lists Export wrote. */
  lemma SceneInRead(s: Scene, l: Layout)
    requires SceneReadable(s)
    ensures ReadScene(SceneFileIn(s, l)) == Some(Contents(s.nodes, s.meshes, s.bones, s.animations))
  {
    var table := TableBytes(l.table);
    var n, m, b, a := NodeSection(s, l), MeshPart(s, l), BonePart(s, l), AnimationPart(s, l);
    FileParts(n, m, b, a, table);
    MeshPartRead(s, l, b + (a + table));
    BonePartRead(s, l, a + table);
    AnimationPartRead(s, l, table);
    var r0 := NodePartRead(s, l, HeadBytes(12 + |n + (m + (b + a))|), m + (b + (a + table)));
    FileSteps(HeadBytes(12 + |n + (m + (b + a))|), n, m, b, a, table, Contents(s.nodes, s.meshes, s.bones, s.animations), r0);
  }

  /** Import reads back exactly the four lists Export wrote. */
  lemma SceneRead(s: Scene)
    requires SceneReadable(s)
    ensures ReadScene(SceneFile(s)) == Some(Contents(s.nodes, s.meshes, s.bones, s.animations))
  {
    SceneInRead(s, LayoutOf(s));
  }
}
