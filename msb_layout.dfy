// Facts about the byte streams the writer produces: a block whose length
// placeholder is patched, the patched head, lists of records laid end to
// end, and the pieces the bones loop leaves when it stops early.
module MsbLayout {
  import opened Wrappers
  import opened Machine
  import opened Text
  import opened Binary
  import opened MsbRecords
  import opened MsbNames
  import opened MsbFormat

  // ---------------------------------------------------------------- layout of the written stream

  /** A block whose zero length placeholder `z` is patched with `v` once the body is written. */
  lemma BlockPatched(start: seq<byte>, t: seq<byte>, z: seq<byte>, body: seq<byte>, v: seq<byte>)
    requires |z| == |v|
    ensures Overwrite(start + t + z + body, |start + t|, v) == start + (t + (v + body))
  {
    OverwriteField(start + t, z, body, v);
    Assoc(start + t, v, body);
    Assoc(start, t, v + body);
  }

  /**
   * The head, written as three zero ints, after the first is patched with
   * `v0` and the third with `v2`.
   */
  lemma HeadPatched(z0: seq<byte>, z1: seq<byte>, z2: seq<byte>, body: seq<byte>, v0: seq<byte>, v2: seq<byte>)
    requires |z0| == 4 && |z1| == 4 && |z2| == 4 && |v0| == 4 && |v2| == 4
    ensures Overwrite(Overwrite(z0 + z1 + z2 + body, 0, v0), 8, v2) == v0 + (z1 + v2) + body
  {
    var rest := z1 + (z2 + body);
    Assoc(z0 + z1, z2, body);
    Assoc(z0, z1, z2 + body);
    PatchedFirst(z0, rest, v0, z0 + z1 + z2 + body);
    PatchedThird(v0, z1, z2, body, v2, v0 + rest);
  }

  /** Patching the first field of a stream that starts with it. */
  lemma PatchedFirst(z0: seq<byte>, rest: seq<byte>, v0: seq<byte>, d: seq<byte>)
    requires |z0| == |v0| && d == z0 + rest
    ensures Overwrite(d, 0, v0) == v0 + rest
  {
    var none: seq<byte> := [];
    EmptyFirst(z0);
    EmptyFirst(v0);
    OverwriteField(none, z0, rest, v0);
  }

  /** The empty sequence is a left unit of concatenation. */
  lemma EmptyFirst(x: seq<byte>)
    ensures [] + x == x
  {
  }

  /** Patching the third four-byte field, `z2`, with `v2`. */
  lemma PatchedThird(v0: seq<byte>, z1: seq<byte>, z2: seq<byte>, body: seq<byte>, v2: seq<byte>, d: seq<byte>)
    requires |v0| == 4 && |z1| == 4 && |z2| == 4 && |v2| == 4 && d == v0 + (z1 + (z2 + body))
    ensures Overwrite(d, 8, v2) == v0 + (z1 + v2) + body
  {
    Assoc(v0, z1, z2 + body);
    Assoc(v0 + z1, z2, body);
    OverwriteField(v0 + z1, z2, body, v2);
    Assoc(v0, z1, v2);
  }

  /**
   * The head of a file after the body is written: three zero ints, the
   * first patched with the stream length `bl`, the third with `bl - 12`.
   */
  lemma HeadWritten(body: seq<byte>, bl: int, d0: seq<byte>, d1: seq<byte>, d2: seq<byte>)
    requires d0 == Zeros(4) + Zeros(4) + Zeros(4) + body
    requires bl == |d0|
    requires d1 == Overwrite(d0, 0, I32Bytes(bl)) && d2 == Overwrite(d1, 8, I32Bytes(bl - 12))
    ensures bl == 12 + |body|
    ensures d2 == I32Bytes(bl) + (Zeros(4) + I32Bytes(bl - 12)) + body
  {
    HeadPatched(Zeros(4), Zeros(4), Zeros(4), body, I32Bytes(bl), I32Bytes(bl - 12));
  }

  /** The patched head, the body and the table make the file. */
  lemma FileWritten(body: seq<byte>, table: seq<byte>, bl: int, d2: seq<byte>, d3: seq<byte>)
    requires bl == 12 + |body|
    requires d2 == I32Bytes(bl) + (Zeros(4) + I32Bytes(bl - 12)) + body && d3 == d2 + table
    ensures d3 == FileOf(body, table)
  {
    assert HeadBytes(12 + |body|) == I32Bytes(bl) + (Zeros(4) + I32Bytes(bl - 12));
    Assoc(HeadBytes(12 + |body|), body, table);
  }

  /** The file of a scene's body and table is the scene's file. */
  lemma SceneFileIs(s: Scene, d: seq<byte>)
    requires d == FileOf(SceneBody(s, LayoutOf(s)), TableBytes(LayoutOf(s).table))
    ensures d == SceneFile(s)
  {
  }

  /** Byte strings laid end to end. */
  function Flatten(rs: seq<seq<byte>>): seq<byte>
  {
    if |rs| == 0 then [] else Flatten(rs[..|rs| - 1]) + rs[|rs| - 1]
  }

  /** Each item's encoding, in order. */
  function Encoded<T>(xs: seq<T>, enc: T -> seq<byte>): (r: seq<seq<byte>>)
    ensures |r| == |xs| && forall j :: 0 <= j < |xs| ==> r[j] == enc(xs[j])
  {
    seq(|xs|, j requires 0 <= j < |xs| => enc(xs[j]))
  }

  /** Encoding a list is laying its items' encodings end to end. */
  lemma {:induction false} ConcatFlat<T>(xs: seq<T>, enc: T -> seq<byte>)
    ensures Concat(xs, enc) == Flatten(Encoded(xs, enc))
    decreases |xs|
  {
    if |xs| > 0 {
      var n := |xs| - 1;
      ConcatFlat(xs[..n], enc);
      assert Encoded(xs, enc)[..n] == Encoded(xs[..n], enc);
    }
  }

  /** The stream after one more item: `d0` before it, `d1` after it. */
  lemma FlattenStep(start: seq<byte>, rs: seq<seq<byte>>, i: nat, d0: seq<byte>, d1: seq<byte>)
    requires i < |rs|
    requires d0 == start + Flatten(rs[..i]) && d1 == d0 + rs[i]
    ensures d1 == start + Flatten(rs[..i + 1])
  {
    assert rs[..i + 1][..i] == rs[..i];
    Assoc(start, Flatten(rs[..i]), rs[i]);
  }

  /** FlattenStep, for a loop that has already counted the item: `j` is `i + 1`. */
  lemma FlattenStepTo(start: seq<byte>, rs: seq<seq<byte>>, i: nat, j: nat, d0: seq<byte>, d1: seq<byte>)
    requires i < |rs| && j == i + 1
    requires d0 == start + Flatten(rs[..i]) && d1 == d0 + rs[i]
    ensures d1 == start + Flatten(rs[..j])
  {
    FlattenStep(start, rs, i, d0, d1);
  }

  /** A list ran to its end. */
  lemma Whole<T>(xs: seq<T>)
    ensures xs[..|xs|] == xs
  {
  }

  /** The eight fields of a keyframe appended one after another. */
  lemma Assoc8<T>(s: seq<T>, p1: seq<T>, p2: seq<T>, p3: seq<T>, p4: seq<T>, p5: seq<T>, p6: seq<T>, p7: seq<T>, p8: seq<T>)
    ensures s + p1 + p2 + p3 + p4 + p5 + p6 + p7 + p8
         == s + (p1 + (p2 + (p3 + (p4 + (p5 + (p6 + (p7 + p8)))))))
  {
    Assoc4(s + p1 + p2 + p3 + p4, p5, p6, p7, p8);
    Assoc4(s, p1, p2, p3, p4 + (p5 + (p6 + (p7 + p8))));
    Assoc(s + p1 + p2 + p3, p4, p5 + (p6 + (p7 + p8)));
  }

  /** The encoders applied to one item. */
  lemma AttributeEncoded(d: int, a: Attribute)
    ensures AttributeEncoder(d)(a) == AttributeRecord(d, a)
  {
  }

  lemma ElementEncoded(tag: int, d: int, e: int, kind: Kind, id: int, x: ElementData)
    ensures ElementEncoder(tag, d, e, kind)((id, x)) == ElementRecord(tag, d, e, id, kind, x)
  {
  }

  lemma KeyframeEncoded(c: int, k: Keyframe)
    ensures KeyframeEncoder(c)(k) == KeyframeRecord(c, k)
  {
  }

  lemma ChannelEncoded(c: int, ks: seq<Keyframe>)
    ensures ChannelEncoder(c)(ks) == ChannelRecord(c, ks)
  {
  }

  lemma MotionEncoded(c: int, m: MotionData)
    ensures MotionEncoder(c)(m) == MotionRecord(c, m)
  {
  }

  lemma AnimationEncoded(c: int, x: AnimationData)
    ensures AnimationEncoder(c)(x) == AnimationRecord(c, x)
  {
  }

  /** The numbered element at `i` carries the id `first + i`. */
  lemma NumberedEncoded(tag: int, d: int, e: int, kind: Kind, first: int, xs: seq<ElementData>, i: nat, id: int)
    requires i < |xs| && id == first + i
    ensures Encoded(Numbered(first, xs), ElementEncoder(tag, d, e, kind))[i] == ElementRecord(tag, d, e, id, kind, xs[i])
  {
    NumberedAt(first, xs, i);
    EncodedAt(Numbered(first, xs), ElementEncoder(tag, d, e, kind), i, (id, xs[i]));
    ElementEncoded(tag, d, e, kind, id, xs[i]);
  }

  /** The encoding at `i` is the encoder applied to the item there. */
  lemma EncodedAt<T>(xs: seq<T>, enc: T -> seq<byte>, i: nat, x: T)
    requires i < |xs| && xs[i] == x
    ensures Encoded(xs, enc)[i] == enc(x)
  {
  }

  /** The four appends of WriteFailedBone, regrouped as the partial block. */
  lemma FailedBoneWritten(l: Layout, id: int, x: ElementData, d0: seq<byte>, d1: seq<byte>, d2: seq<byte>, d3: seq<byte>)
    requires d1 == d0 + I32Bytes(l.b + 1) + I32Bytes(0)
    requires d2 == d1 + ElementFront(l.d, id, BoneKind, x)
    requires d3 == d2 + I32Bytes(l.e)
    ensures d3 == d0 + FailedBone(l, id, x)
  {
    Regrouped4(d0, I32Bytes(l.b + 1), I32Bytes(0), ElementFront(l.d, id, BoneKind, x), I32Bytes(l.e), d1, d2, d3);
    FailedBoneAfter(l, id, x, d0, d3);
  }

  lemma FailedBoneAfter(l: Layout, id: int, x: ElementData, start: seq<byte>, d: seq<byte>)
    requires d == start + (I32Bytes(l.b + 1) + (I32Bytes(0) + (ElementFront(l.d, id, BoneKind, x) + I32Bytes(l.e))))
    ensures d == start + FailedBone(l, id, x)
  {
  }

  /** Four parts appended in three steps, regrouped to the right. */
  lemma Regrouped4(start: seq<byte>, a: seq<byte>, b: seq<byte>, c: seq<byte>, e: seq<byte>,
                   d1: seq<byte>, d2: seq<byte>, d3: seq<byte>)
    requires d1 == start + a + b && d2 == d1 + c && d3 == d2 + e
    ensures d3 == start + (a + (b + (c + e)))
  {
    Assoc4(start, a, b, c, e);
  }

  /** The first `n` encoded, numbered blocks laid end to end are the blocks of the first `n` elements. */
  lemma PrefixElements(tag: int, d: int, e: int, kind: Kind, first: int, xs: seq<ElementData>, n: nat)
    requires n <= |xs|
    ensures Flatten(Encoded(Numbered(first, xs), ElementEncoder(tag, d, e, kind))[..n])
         == Elements(tag, d, e, kind, first, xs[..n])
  {
    var enc := ElementEncoder(tag, d, e, kind);
    NumberedPrefix(first, xs, n);
    assert Encoded(Numbered(first, xs), enc)[..n] == Encoded(Numbered(first, xs[..n]), enc);
    ConcatFlat(Numbered(first, xs[..n]), enc);
  }

  /** The stream after `n` numbered element blocks, as a loop keeps it, is the blocks of the first `n` elements. */
  lemma ElementsSoFar(tag: int, d: int, e: int, kind: Kind, first: int, xs: seq<ElementData>, n: nat,
                      recs: seq<seq<byte>>, start: seq<byte>, data: seq<byte>)
    requires n <= |xs| && recs == Encoded(Numbered(first, xs), ElementEncoder(tag, d, e, kind))
    requires data == start + Flatten(recs[..n])
    ensures data == start + Elements(tag, d, e, kind, first, xs[..n])
    ensures n == |xs| ==> data == start + Elements(tag, d, e, kind, first, xs)
  {
    PrefixElements(tag, d, e, kind, first, xs, n);
    if n == |xs| {
      Whole(xs);
    }
  }

  /** The bones loop counting one more bone that has a name. */
  lemma NamedStep(maps: seq<Option<string>>, m: nat, n: nat)
    requires m < |maps| && n == m + 1
    requires forall j :: 0 <= j < m ==> maps[j].Some?
    requires maps[m].Some?
    ensures forall j :: 0 <= j < n ==> maps[j].Some?
  {
  }

  /** Where the bones loop stopped is the first bone without a name, or -1 past the end. */
  lemma StopIsFirstIndex(maps: seq<Option<string>>, n: int)
    requires 0 <= n <= |maps|
    requires forall j :: 0 <= j < n ==> maps[j].Some?
    requires n < |maps| ==> maps[n].None?
    ensures FirstIndex(maps, None) == if n < |maps| then n else -1
  {
    assert None !in maps[..n];
    if n < |maps| {
      FirstIndexIs(maps, None, n);
    } else {
      assert maps[..n] == maps;
    }
  }

  /** The stream left when bone `k` stops the loop is the file cut short there. */
  lemma FailedFile(s: Scene, k: int, data: seq<byte>)
    requires 0 <= k < |s.bones|
    requires data == Zeros(4) + Zeros(4) + Zeros(4)
                  + (NodeSection(s, LayoutOf(s)) + (MeshPart(s, LayoutOf(s)) + (TagInt(LayoutOf(s).b, |s.bones|) + (Elements(LayoutOf(s).b + 1, LayoutOf(s).d, LayoutOf(s).e, BoneKind, FirstBoneId(s), s.bones[..k]) + FailedBone(LayoutOf(s), ElementId(FirstBoneId(s), k), s.bones[k])))))
    ensures data == FileFailedAtBone(s, k)
  {
    ZerosSplit();
  }

  /** Twelve zero bytes are three zero ints. */
  lemma ZerosSplit()
    ensures Zeros(4) + Zeros(4) + Zeros(4) == Zeros(12)
  {
  }
}
