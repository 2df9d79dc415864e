// MdbTool.WriteObj, WriteBox and WriteMtl as functions from the converter's
// state to the lines they write, and what ObjTool's readers make of those
// lines: the OBJ points and faces, the CBOX description lines and the MTL
// materials.
module MdbWrite {
  import opened Wrappers
  import opened Machine
  import opened Float32
  import opened Records
  import opened Text
  import opened ObjPack
  import opened ObjRead
  import opened MtlRead
  import opened MdbLayout
  import opened MdbRead

  /**
   * The number formatting and float arithmetic the writers leave to .NET:
   * float.ToString, the text of a normal's three components (Math.Sin and
   * Math.Cos of the two stored angles), and the eight corners of a collision
   * box (its centre plus or minus each axis times its half-length).
   */
  datatype Numbers = Numbers(single: F32 -> string, normal: Vec2 -> string, corner: (Box, nat) -> Vec3)

  /** float.ToString and float.Parse agree: every printed number is one word that parses back to itself. */
  ghost predicate PrintsReadably(f: Numbers, parse: FloatParser)
  {
    forall x :: ' ' !in f.single(x) && parse(f.single(x)) == Some(x)
  }

  // ================================================================ points

  /** "v x y z" with the three numbers as printed: the words of a line, joined with single spaces. */
  function PointLine(f: Numbers, p: Vec3): string
  {
    Join(["v", f.single(p.x), f.single(p.y), f.single(p.z)], ' ')
  }

  /** A position of the MDB file, written on the OBJ axes (X, Z, -Y). */
  function VertexLine(f: Numbers, p: Vec3): string
  {
    PointLine(f, ToObjAxes(p))
  }

  /** A texture coordinate, written with V negated. */
  function TexLine(f: Numbers, t: Vec2): string
  {
    var u := FlipV(t);
    Join(["vt", f.single(u.x), f.single(u.y)], ' ')
  }

  /** A normal, written as the three components computed from its two angles. */
  function NormalLine(f: Numbers, n: Vec2): string
  {
    "vn " + f.normal(n)
  }

  function VertexLines(f: Numbers, vs: seq<Vec3>): (r: seq<string>)
    ensures |r| == |vs|
  {
    if |vs| == 0 then [] else [VertexLine(f, vs[0])] + VertexLines(f, vs[1..])
  }

  function TexLines(f: Numbers, ts: seq<Vec2>): (r: seq<string>)
    ensures |r| == |ts|
  {
    if |ts| == 0 then [] else [TexLine(f, ts[0])] + TexLines(f, ts[1..])
  }

  function NormalLines(f: Numbers, ns: seq<Vec2>): (r: seq<string>)
    ensures |r| == |ns|
  {
    if |ns| == 0 then [] else [NormalLine(f, ns[0])] + NormalLines(f, ns[1..])
  }

  /** The first part of WriteObj: every position, then every texture coordinate, then every normal. */
  function PointLines(f: Numbers, st: MdbState): seq<string>
  {
    VertexLines(f, st.v) + TexLines(f, st.vt) + NormalLines(f, st.vn)
  }

  /** ReadObj reads a written point back. */
  lemma PointLineReads(f: Numbers, parse: FloatParser, p: Vec3)
    requires PrintsReadably(f, parse)
    ensures KindOf(PointLine(f, p)) == Vertex
    ensures ParseVec3(PointLine(f, p), parse) == Some(p)
  {
    var words := ["v", f.single(p.x), f.single(p.y), f.single(p.z)];
    JoinStart(words, ' ');
    JoinSplitN(words, ' ', 4);
  }

  /** ReadObj reads a written position back on the OBJ axes. */
  lemma VertexLineReads(f: Numbers, parse: FloatParser, p: Vec3)
    requires PrintsReadably(f, parse)
    ensures KindOf(VertexLine(f, p)) == Vertex
    ensures ParseVec3(VertexLine(f, p), parse) == Some(ToObjAxes(p))
  {
    PointLineReads(f, parse, ToObjAxes(p));
  }

  /** ReadObj reads a written texture coordinate back with V negated. */
  lemma TexLineReads(f: Numbers, parse: FloatParser, t: Vec2)
    requires PrintsReadably(f, parse)
    ensures KindOf(TexLine(f, t)) == TexCoord
    ensures ParseVec2(TexLine(f, t), parse) == Some(FlipV(t))
  {
    var u := FlipV(t);
    var words := ["vt", f.single(u.x), f.single(u.y)];
    TexLineKind(f, t);
    JoinSplitN(words, ' ', 3);
  }

  lemma TexLineKind(f: Numbers, t: Vec2)
    ensures KindOf(TexLine(f, t)) == TexCoord
  {
    var u := FlipV(t);
    var words := ["vt", f.single(u.x), f.single(u.y)];
    var line := TexLine(f, t);
    JoinStart(words, ' ');
    assert line[..3] == "vt ";
    assert line[..2] == line[..3][..2];
    assert UpperAscii(line[1]) != UpperAscii(' ');
  }

  lemma NormalLineKind(f: Numbers, n: Vec2)
    ensures KindOf(NormalLine(f, n)) == Normal
  {
    var line := NormalLine(f, n);
    assert line[..3] == "vn ";
    assert line[..2] == line[..3][..2];
    assert UpperAscii(line[1]) != UpperAscii(' ');
  }

  lemma {:induction false} VerticesOfAppend(a: seq<string>, b: seq<string>, parse: FloatParser)
    ensures VerticesOf(a + b, parse) == VerticesOf(a, parse) + VerticesOf(b, parse)
    decreases |a|
  {
    if |a| > 0 {
      assert (a + b)[0] == a[0] && (a + b)[1..] == a[1..] + b;
      VerticesOfAppend(a[1..], b, parse);
    } else {
      assert a + b == b;
    }
  }

  /** Every written position is read back, in order, on the OBJ axes. */
  lemma {:induction false} VertexLinesRead(f: Numbers, parse: FloatParser, vs: seq<Vec3>)
    requires PrintsReadably(f, parse)
    ensures VerticesOf(VertexLines(f, vs), parse) == ObjPositions(vs)
    decreases |vs|
  {
    if |vs| > 0 {
      VertexLineReads(f, parse, vs[0]);
      VerticesOfAppend([VertexLine(f, vs[0])], VertexLines(f, vs[1..]), parse);
      VertexLinesRead(f, parse, vs[1..]);
    }
  }

  /** Positions on the OBJ axes. */
  function ObjPositions(vs: seq<Vec3>): (r: seq<Vec3>)
    ensures |r| == |vs|
  {
    if |vs| == 0 then [] else [ToObjAxes(vs[0])] + ObjPositions(vs[1..])
  }

  lemma {:induction false} TexLinesNoVertex(f: Numbers, parse: FloatParser, ts: seq<Vec2>)
    ensures VerticesOf(TexLines(f, ts), parse) == []
    decreases |ts|
  {
    if |ts| > 0 {
      var line := TexLine(f, ts[0]);
      TexLineKind(f, ts[0]);
      VerticesOfAppend([line], TexLines(f, ts[1..]), parse);
      TexLinesNoVertex(f, parse, ts[1..]);
    }
  }

  lemma {:induction false} NormalLinesNoVertex(f: Numbers, parse: FloatParser, ns: seq<Vec2>)
    ensures VerticesOf(NormalLines(f, ns), parse) == []
    decreases |ns|
  {
    if |ns| > 0 {
      NormalLineKind(f, ns[0]);
      VerticesOfAppend([NormalLine(f, ns[0])], NormalLines(f, ns[1..]), parse);
      NormalLinesNoVertex(f, parse, ns[1..]);
    }
  }

  /**
   * The point lines give ReadObj exactly the file's positions, in order and
   * on the OBJ axes: texture and normal lines add no vertex.
   */
  lemma PointLinesRead(f: Numbers, parse: FloatParser, st: MdbState)
    requires PrintsReadably(f, parse)
    ensures VerticesOf(PointLines(f, st), parse) == ObjPositions(st.v)
  {
    VertexLinesRead(f, parse, st.v);
    TexLinesNoVertex(f, parse, st.vt);
    NormalLinesNoVertex(f, parse, st.vn);
    VerticesOfAppend(VertexLines(f, st.v), TexLines(f, st.vt), parse);
    VerticesOfAppend(VertexLines(f, st.v) + TexLines(f, st.vt), NormalLines(f, st.vn), parse);
  }

  /** Written positions of a model the OBJ-to-MDB converter stored come back as they were in the OBJ file. */
  lemma {:induction false} StoredPositionsRoundTrip(ps: seq<Vec3>)
    ensures ObjPositions(MdbPositions(ps)) == ps
    decreases |ps|
  {
    if |ps| > 0 {
      AxesRoundTrip(ps[0]);
      StoredPositionsRoundTrip(ps[1..]);
    }
  }

  /** Positions on the MDB axes, as the OBJ-to-MDB converter stores them. */
  function MdbPositions(ps: seq<Vec3>): (r: seq<Vec3>)
    ensures |r| == |ps|
  {
    if |ps| == 0 then [] else [ToMdbAxes(ps[0])] + MdbPositions(ps[1..])
  }

  // ================================================================ faces

  /** A corner as WriteObj numbers it, "v/vt/vn": the stored point number plus each running offset. */
  function CornerText(p: u16, st: MdbState): string
  {
    NumbersText(p + st.gVCount, p + st.gVtCount, p + st.gVnCount)
  }

  /** "x/y/z" in decimal. */
  function NumbersText(x: nat, y: nat, z: nat): string
  {
    Join([NatToString(x), NatToString(y), NatToString(z)], '/')
  }

  /** "f" with the corners in the order P2, P1, P0. */
  function FaceLine(t: MdbTriangle, st: MdbState): string
  {
    Join(["f", CornerText(t.p2, st), CornerText(t.p1, st), CornerText(t.p0, st)], ' ')
  }

  function FaceLines(tris: seq<MdbTriangle>, st: MdbState): (r: seq<string>)
    ensures |r| == |tris|
  {
    if |tris| == 0 then [] else [FaceLine(tris[0], st)] + FaceLines(tris[1..], st)
  }

  /** The 1-based OBJ numbers of a stored point. */
  function ObjCorner(p: u16, st: MdbState): Corner
  {
    [p + st.gVCount, p + st.gVtCount, p + st.gVnCount]
  }

  /** Offsets small enough that every written number is an int the OBJ reader accepts. */
  predicate OffsetsFit(st: MdbState)
  {
    0xFFFF + st.gVCount <= Int32Max && 0xFFFF + st.gVtCount <= Int32Max && 0xFFFF + st.gVnCount <= Int32Max
  }

  lemma NumberReads(n: nat)
    requires n <= Int32Max
    ensures ParsedOrZero(NatToString(n)) == n && '/' !in NatToString(n) && ' ' !in NatToString(n)
  {
    IntToStringRoundTrip(n);
    NatToStringHasNo(n, '/');
    NatToStringHasNo(n, ' ');
  }

  lemma CornerReads(p: u16, st: MdbState)
    requires OffsetsFit(st)
    ensures ParseCorner(CornerText(p, st)) == ObjCorner(p, st)
    ensures ' ' !in CornerText(p, st)
  {
    var x, y, z := p + st.gVCount, p + st.gVtCount, p + st.gVnCount;
    assert CornerText(p, st) == NumbersText(x, y, z) && ObjCorner(p, st) == [x, y, z];
    CornerWordsRead(x, y, z);
  }

  /** Three numbers joined with '/' read back as a corner. */
  lemma CornerWordsRead(x: nat, y: nat, z: nat)
    requires x <= Int32Max && y <= Int32Max && z <= Int32Max
    ensures ParseCorner(NumbersText(x, y, z)) == [x, y, z]
    ensures ' ' !in NumbersText(x, y, z)
  {
    NumberReads(x);
    NumberReads(y);
    NumberReads(z);
    CornerFieldsRead(NatToString(x), NatToString(y), NatToString(z));
  }

  /** Three words free of '/' and ' ' joined with '/' read back field by field. */
  lemma CornerFieldsRead(a: string, b: string, c: string)
    requires '/' !in a && '/' !in b && '/' !in c
    requires ' ' !in a && ' ' !in b && ' ' !in c
    ensures ParseCorner(Join([a, b, c], '/')) == [ParsedOrZero(a), ParsedOrZero(b), ParsedOrZero(c)]
    ensures ' ' !in Join([a, b, c], '/')
  {
    JoinSplitAll([a, b, c], '/');
    JoinHasNo([a, b, c], '/', ' ');
  }

  /**
   * ReadObj reads a written face with its corners in the order P2, P1, P0,
   * each numbered from the running offsets.
   */
  lemma FaceLineReads(t: MdbTriangle, st: MdbState)
    requires OffsetsFit(st)
    ensures KindOf(FaceLine(t, st)) == Face
    ensures ParseFace(FaceLine(t, st)) == Some(ObjTriangle(ObjCorner(t.p2, st), ObjCorner(t.p1, st), ObjCorner(t.p0, st)))
  {
    FaceLineKind(t, st);
    CornerReads(t.p0, st);
    CornerReads(t.p1, st);
    CornerReads(t.p2, st);
    FaceWordsRead(CornerText(t.p2, st), CornerText(t.p1, st), CornerText(t.p0, st));
  }

  /** A face line made of three corner words without spaces is split back into those words. */
  lemma FaceWordsRead(a: string, b: string, c: string)
    requires ' ' !in a && ' ' !in b && ' ' !in c
    ensures ParseFace(Join(["f", a, b, c], ' ')) == Some(ObjTriangle(ParseCorner(a), ParseCorner(b), ParseCorner(c)))
  {
    var pieces := ["f", a, b, c];
    assert forall k :: 0 <= k < 4 ==> ' ' !in pieces[k] by {
      assert pieces[0] == "f";
    }
    JoinSplitN(pieces, ' ', 4);
  }

  lemma FaceLineKind(t: MdbTriangle, st: MdbState)
    ensures KindOf(FaceLine(t, st)) == Face
  {
    JoinStart(["f", CornerText(t.p2, st), CornerText(t.p1, st), CornerText(t.p0, st)], ' ');
    FaceStart(FaceLine(t, st));
  }

  /** ReadObj takes a line starting "f " for a face. */
  lemma FaceStart(line: string)
    requires |line| >= 2 && line[..2] == "f "
    ensures KindOf(line) == Face
  {
    assert UpperAscii(line[0]) != UpperAscii('v');
  }

  /**
   * A triangle stored by the OBJ-to-MDB converter (corners reversed) and read
   * back by ReadMdb (reversed again) is written with the corners of the
   * original OBJ face in their original order.
   */
  lemma WindingRoundTrip(t: MdbTriangle, st: MdbState)
    requires OffsetsFit(st)
    ensures ParseFace(FaceLine(Flip(t), st)) == Some(ObjTriangle(ObjCorner(t.p0, st), ObjCorner(t.p1, st), ObjCorner(t.p2, st)))
  {
    FaceLineReads(Flip(t), st);
  }

  // ================================================================ groups

  /** The offsets after a model of n points. */
  function Advance(st: MdbState, n: nat): MdbState
  {
    st.(gVCount := st.gVCount + n, gVtCount := st.gVtCount + n, gVnCount := st.gVnCount + n)
  }

  /** The lines of a model's material runs; false where a run's material is not in the file's list. */
  function RunLines(runs: seq<TriGroup>, mats: seq<Material>, st: MdbState): (r: (seq<string>, bool))
    decreases |runs|
  {
    if |runs| == 0 then ([], true)
    else if runs[0].matIndex as int >= |mats| then ([], false)
    else
      var rest := RunLines(runs[1..], mats, st);
      (["usemtl " + mats[runs[0].matIndex].matName] + FaceLines(runs[0].tris, st) + rest.0, rest.1)
  }

  /** Every run of every model names a material of the file's list. */
  predicate MaterialsKnown(groups: seq<MdbGroup>, mats: seq<Material>)
  {
    forall k, j :: 0 <= k < |groups| && 0 <= j < |groups[k].matGroups| ==> groups[k].matGroups[j].matIndex as int < |mats|
  }

  /** What the group loop of WriteObj leaves: its lines, the state with the offsets moved, and the group it stopped at. */
  datatype GroupsOut = GroupsOut(lines: seq<string>, st: MdbState, failed: Option<string>)

  /**
   * The group loop of WriteObj: for each model its "g" and "o" lines, then
   * for each run a "usemtl" line and its faces, then the offsets move on by
   * the model's point count. A run whose material index is past the end of
   * the file's list stops the loop, naming the model.
   */
  function GroupLines(groups: seq<MdbGroup>, st: MdbState): (r: GroupsOut)
    decreases |groups|
  {
    if |groups| == 0 then GroupsOut([], st, None)
    else
      var g := groups[0];
      var runs := RunLines(g.matGroups, st.currentMat, st);
      var head := ["g " + g.name, "o " + g.name] + runs.0;
      if !runs.1 then GroupsOut(head, st, Some(g.name))
      else
        var rest := GroupLines(groups[1..], Advance(st, g.vCount));
        GroupsOut(head + rest.lines, rest.st, rest.failed)
  }

  /** The points of all models. */
  function TotalPoints(groups: seq<MdbGroup>): nat
  {
    if |groups| == 0 then 0 else groups[0].vCount + TotalPoints(groups[1..])
  }

  lemma {:induction false} RunLinesOk(runs: seq<TriGroup>, mats: seq<Material>, st: MdbState)
    ensures RunLines(runs, mats, st).1 <==> forall j :: 0 <= j < |runs| ==> runs[j].matIndex as int < |mats|
    decreases |runs|
  {
    if |runs| > 0 {
      RunLinesOk(runs[1..], mats, st);
      if runs[0].matIndex as int < |mats| {
        assert forall j :: 1 <= j < |runs| ==> runs[j] == runs[1..][j - 1];
      }
    }
  }

  /**
   * The group loop goes through exactly when every run names a material of
   * the file's list, and then moves each offset on by the points of all
   * models and changes nothing else.
   */
  lemma {:induction false} GroupLinesOutcome(groups: seq<MdbGroup>, st: MdbState)
    ensures GroupLines(groups, st).failed.None? <==> MaterialsKnown(groups, st.currentMat)
    ensures GroupLines(groups, st).failed.None? ==> GroupLines(groups, st).st == Advance(st, TotalPoints(groups))
    decreases |groups|
  {
    if |groups| > 0 {
      var g := groups[0];
      RunLinesOk(g.matGroups, st.currentMat, st);
      var st1 := Advance(st, g.vCount);
      GroupLinesOutcome(groups[1..], st1);
      assert st1.currentMat == st.currentMat;
      assert Advance(st1, TotalPoints(groups[1..])) == Advance(st, TotalPoints(groups));
      if RunLines(g.matGroups, st.currentMat, st).1 {
        assert forall k :: 1 <= k < |groups| ==> groups[k] == groups[1..][k - 1];
      }
    }
  }

  /** A failed group loop leaves every offset where it was or further on, and the lists as they were. */
  lemma {:induction false} GroupLinesKeep(groups: seq<MdbGroup>, st: MdbState)
    ensures var r := GroupLines(groups, st).st;
      r == st.(gVCount := r.gVCount, gVtCount := r.gVtCount, gVnCount := r.gVnCount)
      && st.gVCount <= r.gVCount
    decreases |groups|
  {
    if |groups| > 0 {
      GroupLinesKeep(groups[1..], Advance(st, groups[0].vCount));
    }
  }

  // ================================================================ collision boxes

  /** The 12 faces of a box, as corner numbers 0..7 of its 8 written points. */
  const BoxFaces: seq<(nat, nat, nat)> := [(0, 1, 2), (3, 4, 2), (5, 6, 2), (4, 7, 5), (6, 7, 0), (1, 7, 3),
                                           (6, 0, 2), (7, 1, 0), (1, 3, 2), (4, 5, 2), (7, 6, 5), (7, 4, 3)]

  /** A box face: the corner numbers plus the running vertex offset. */
  function BoxFaceLine(base: nat, c: (nat, nat, nat)): string
  {
    Join(["f", NatToString(base + c.0), NatToString(base + c.1), NatToString(base + c.2)], ' ')
  }

  /** The "v" lines of the corners k..7 of a box, in the order WriteBox computes them. */
  function CornerLines(f: Numbers, b: Box, k: nat): (r: seq<string>)
    requires k <= 8
    ensures |r| == 8 - k
    decreases 8 - k
  {
    if k == 8 then [] else [PointLine(f, f.corner(b, k))] + CornerLines(f, b, k + 1)
  }

  /** The face lines k..11 of a box. */
  function BoxFaceLines(base: nat, k: nat): (r: seq<string>)
    requires k <= 12
    ensures |r| == 12 - k
    decreases 12 - k
  {
    if k == 12 then [] else [BoxFaceLine(base, BoxFaces[k])] + BoxFaceLines(base, k + 1)
  }

  /** The lines of a box of its own: 8 points, its "o" and "g" lines and its 12 faces. */
  function OwnBoxLines(f: Numbers, b: Box, base: nat): (r: seq<string>)
    ensures |r| == 22
  {
    CornerLines(f, b, 0) + ["o " + b.name, "g " + b.name] + BoxFaceLines(base, 0)
  }

  /**
   * The fields of a box's description line: "CBOX", its name, then its
   * children's names, an empty field standing for a missing left child.
   */
  function CboxFields(b: Box): (r: seq<string>)
    ensures 2 <= |r| <= 4 && r[0] == "CBOX" && r[1] == b.name
  {
    match (b.left, b.right)
    case (Some(l), Some(r)) => ["CBOX", b.name, l.name, r.name]
    case (Some(l), None) => ["CBOX", b.name, l.name]
    case (None, Some(r)) => ["CBOX", b.name, "", r.name]
    case (None, None) => ["CBOX", b.name]
  }

  function CboxLine(b: Box): string
  {
    Join(CboxFields(b), '\t')
  }

  /** What WriteBox writes: OBJ lines, description lines, and the vertex offset it leaves. */
  datatype BoxOut = BoxOut(obj: seq<string>, config: seq<string>, next: nat)

  /** WriteBox: the box's own lines, then its description line, then its left and right sub-trees. */
  function BoxLines(f: Numbers, b: Box, base: nat): (r: BoxOut)
    decreases b
  {
    var left := ChildLines(f, b.left, base + 8);
    var right := ChildLines(f, b.right, left.next);
    BoxOut(OwnBoxLines(f, b, base) + left.obj + right.obj, [CboxLine(b)] + left.config + right.config, right.next)
  }

  /** What WriteBox writes for a child slot: nothing for an empty one. */
  function ChildLines(f: Numbers, o: Option<Box>, base: nat): (r: BoxOut)
    decreases o
  {
    if o.Some? then BoxLines(f, o.value, base) else BoxOut([], [], base)
  }

  /** The boxes of a tree in pre-order: node, left sub-tree, right sub-tree. */
  function PreOrder(b: Box): (r: seq<Box>)
    ensures |r| == BoxCount(b) && r[0] == b
    decreases b
  {
    [b] + (if b.left.Some? then PreOrder(b.left.value) else [])
        + (if b.right.Some? then PreOrder(b.right.value) else [])
  }

  function CboxLinesOf(boxes: seq<Box>): (r: seq<string>)
    ensures |r| == |boxes|
  {
    if |boxes| == 0 then [] else [CboxLine(boxes[0])] + CboxLinesOf(boxes[1..])
  }

  lemma {:induction false} CboxLinesOfAppend(a: seq<Box>, b: seq<Box>)
    ensures CboxLinesOf(a + b) == CboxLinesOf(a) + CboxLinesOf(b)
    decreases |a|
  {
    if |a| > 0 {
      assert (a + b)[0] == a[0] && (a + b)[1..] == a[1..] + b;
      CboxLinesOfAppend(a[1..], b);
    } else {
      assert a + b == b;
    }
  }

  /**
   * WriteBox writes one description line per box, in pre-order, and moves
   * the vertex offset on by 8 points per box.
   */
  lemma {:induction false} BoxLinesShape(f: Numbers, b: Box, base: nat)
    ensures BoxLines(f, b, base).config == CboxLinesOf(PreOrder(b))
    ensures BoxLines(f, b, base).next == base + 8 * BoxCount(b)
    ensures |BoxLines(f, b, base).obj| == 22 * BoxCount(b)
    decreases b
  {
    var lp := if b.left.Some? then PreOrder(b.left.value) else [];
    var rp := if b.right.Some? then PreOrder(b.right.value) else [];
    ChildLinesShape(f, b.left, base + 8);
    var left := ChildLines(f, b.left, base + 8);
    ChildLinesShape(f, b.right, left.next);
    CboxLinesOfAppend([b], lp);
    CboxLinesOfAppend([b] + lp, rp);
  }

  lemma {:induction false} ChildLinesShape(f: Numbers, o: Option<Box>, base: nat)
    ensures ChildLines(f, o, base).config == CboxLinesOf(if o.Some? then PreOrder(o.value) else [])
    ensures ChildLines(f, o, base).next == base + 8 * SubCount(o)
    ensures |ChildLines(f, o, base).obj| == 22 * SubCount(o)
    decreases o
  {
    if o.Some? {
      BoxLinesShape(f, o.value, base);
    }
  }

  /** Every face of a box uses only the 8 points written just before it. */
  lemma BoxFacesLocal()
    ensures forall k :: 0 <= k < 12 ==> BoxFaces[k].0 < 8 && BoxFaces[k].1 < 8 && BoxFaces[k].2 < 8
  {
  }

  /**
   * The fields ReadCbox takes from a description line (empty fields
   * dropped): a box with a right child and no left child is read back with
   * that child on the left.
   */
  lemma CboxLineFields(b: Box)
    requires b.name != "" && '\t' !in b.name
    requires b.left.Some? ==> b.left.value.name != "" && '\t' !in b.left.value.name
    requires b.right.Some? ==> b.right.value.name != "" && '\t' !in b.right.value.name
    ensures SplitN(CboxLine(b), '\t', 4, true)
         == ["CBOX", b.name] + (if b.left.Some? then [b.left.value.name] else [])
            + (if b.right.Some? then [b.right.value.name] else [])
  {
    var fields := CboxFields(b);
    JoinSplitNRemoveEmpty(fields, '\t', 4);
    var tail := fields[2..];
    assert fields == ["CBOX", b.name] + tail;
    NonEmptyKept(["CBOX", b.name], tail);
    match (b.left, b.right)
    case (Some(l), Some(r)) =>
      NonEmptyKept([l.name], [r.name]);
      NonEmptyKept([r.name], []);
    case (Some(l), None) =>
      NonEmptyKept([l.name], []);
    case (None, Some(r)) =>
      assert tail == [""] + [r.name];
      assert Text.NonEmpty(tail) == Text.NonEmpty([r.name]);
      NonEmptyKept([r.name], []);
    case (None, None) =>
  }

  // ================================================================ WriteObj

  /** ClearLists: the file's points, groups, materials and box go; the final materials, counters and offsets stay. */
  function ClearLists(st: MdbState): (r: MdbState)
  {
    st.(currentMat := [], v := [], vt := [], vn := [], groups := [], parentBox := NewBox)
  }

  /** What WriteObj writes to the OBJ and description files, the state it leaves, and the message it throws. */
  datatype ObjOut = ObjOut(obj: seq<string>, config: seq<string>, st: MdbState, error: Option<string>)

  /**
   * WriteObj: the points, then the models; when boxes are exported, the
   * "MESH" line and the box tree; the lists are cleared in every case.
   */
  function WriteObjSpec(f: Numbers, st: MdbState, groupName: string, exportBoxes: bool): (r: ObjOut)
  {
    var points := PointLines(f, st);
    var g := GroupLines(st.groups, st);
    if g.failed.Some? then
      ObjOut(points + g.lines, [], ClearLists(g.st), Some("Material index in " + g.failed.value + " out of range.\n"))
    else if exportBoxes then
      var boxes := BoxLines(f, st.parentBox, g.st.gVCount);
      ObjOut(points + g.lines + boxes.obj, ["MESH\t" + groupName] + boxes.config,
             ClearLists(g.st.(gVCount := boxes.next)), None)
    else ObjOut(points + g.lines, [], ClearLists(g.st), None)
  }

  /**
   * After WriteObj the lists are empty, the final materials and the box
   * counter are unchanged, and, when every run names a known material, the
   * offsets have moved on by the points of all models (and the vertex offset
   * by 8 more per exported box).
   */
  lemma WriteObjState(f: Numbers, st: MdbState, groupName: string, exportBoxes: bool)
    ensures var r := WriteObjSpec(f, st, groupName, exportBoxes);
      && r.st.v == [] && r.st.vt == [] && r.st.vn == [] && r.st.groups == [] && r.st.currentMat == []
      && r.st.parentBox == NewBox && r.st.finalMat == st.finalMat && r.st.boxNumber == st.boxNumber
      && (r.error.None? <==> MaterialsKnown(st.groups, st.currentMat))
      && (r.error.None? ==>
            && r.st.gVtCount == st.gVtCount + TotalPoints(st.groups)
            && r.st.gVnCount == st.gVnCount + TotalPoints(st.groups)
            && r.st.gVCount == st.gVCount + TotalPoints(st.groups) + (if exportBoxes then 8 * BoxCount(st.parentBox) else 0))
  {
    GroupLinesOutcome(st.groups, st);
    GroupLinesKeep(st.groups, st);
    BoxLinesShape(f, st.parentBox, GroupLines(st.groups, st).st.gVCount);
  }

  /**
   * ReadObj finds one "v" line per point of the file, and, when the boxes are
   * written, 8 more per box.
   */
  lemma WriteObjVertices(f: Numbers, parse: FloatParser, st: MdbState, groupName: string, exportBoxes: bool)
    requires PrintsReadably(f, parse)
    ensures var r := WriteObjSpec(f, st, groupName, exportBoxes);
      |VerticesOf(r.obj, parse)| == |st.v| + (if r.error.None? && exportBoxes then 8 * BoxCount(st.parentBox) else 0)
  {
    var g := GroupLines(st.groups, st);
    var points := PointLines(f, st);
    PointLinesRead(f, parse, st);
    GroupLinesNoVertex(st.groups, st, parse);
    VerticesOfAppend(points, g.lines, parse);
    if g.failed.None? && exportBoxes {
      var boxes := BoxLines(f, st.parentBox, g.st.gVCount);
      BoxLinesVertices(f, parse, st.parentBox, g.st.gVCount);
      VerticesOfAppend(points + g.lines, boxes.obj, parse);
    }
  }

  /**
   * When each model's point count is the number of points read for it, the
   * vertex offset after WriteObj is one more than the number of "v" lines
   * ReadObj finds in the whole OBJ file so far: every face number written
   * later refers to the point it was meant for.
   */
  lemma WriteObjKeepsNumbering(f: Numbers, parse: FloatParser, st: MdbState, groupName: string,
                               exportBoxes: bool, before: seq<string>)
    requires PrintsReadably(f, parse)
    requires st.gVCount == |VerticesOf(before, parse)| + 1
    requires TotalPoints(st.groups) == |st.v|
    requires MaterialsKnown(st.groups, st.currentMat)
    ensures var r := WriteObjSpec(f, st, groupName, exportBoxes);
      r.st.gVCount == |VerticesOf(before + r.obj, parse)| + 1
  {
    var r := WriteObjSpec(f, st, groupName, exportBoxes);
    WriteObjState(f, st, groupName, exportBoxes);
    WriteObjVertices(f, parse, st, groupName, exportBoxes);
    VerticesOfAppend(before, r.obj, parse);
  }

  /** A line that ReadObj does not take for a "v" line adds no vertex. */
  lemma NoVertexLine(line: string, rest: seq<string>, parse: FloatParser)
    requires |line| >= 1 && UpperAscii(line[0]) != 'V'
    ensures VerticesOf([line] + rest, parse) == VerticesOf(rest, parse)
  {
    assert UpperAscii(line[0]) != UpperAscii('v');
    VerticesOfAppend([line], rest, parse);
  }

  lemma {:induction false} FaceLinesNoVertex(tris: seq<MdbTriangle>, st: MdbState, parse: FloatParser)
    ensures VerticesOf(FaceLines(tris, st), parse) == []
    decreases |tris|
  {
    if |tris| > 0 {
      JoinStart(["f", CornerText(tris[0].p2, st), CornerText(tris[0].p1, st), CornerText(tris[0].p0, st)], ' ');
      NoVertexLine(FaceLine(tris[0], st), FaceLines(tris[1..], st), parse);
      FaceLinesNoVertex(tris[1..], st, parse);
    }
  }

  lemma {:induction false} RunLinesNoVertex(runs: seq<TriGroup>, mats: seq<Material>, st: MdbState, parse: FloatParser)
    ensures VerticesOf(RunLines(runs, mats, st).0, parse) == []
    decreases |runs|
  {
    if |runs| > 0 && runs[0].matIndex as int < |mats| {
      var head := "usemtl " + mats[runs[0].matIndex].matName;
      assert head[..2] == "us";
      FaceLinesNoVertex(runs[0].tris, st, parse);
      RunLinesNoVertex(runs[1..], mats, st, parse);
      var faces := FaceLines(runs[0].tris, st);
      VerticesOfAppend(faces, RunLines(runs[1..], mats, st).0, parse);
      NoVertexLine(head, faces + RunLines(runs[1..], mats, st).0, parse);
      Assoc([head], faces, RunLines(runs[1..], mats, st).0);
    }
  }

  /** A model's or a box's "g" and "o" lines add no vertex. */
  lemma NameLinesNoVertex(first: string, second: string, name: string, rest: seq<string>, parse: FloatParser)
    requires first == "g " + name || first == "o " + name
    requires second == "g " + name || second == "o " + name
    ensures VerticesOf([first, second] + rest, parse) == VerticesOf(rest, parse)
  {
    assert first[0] == 'g' || first[0] == 'o';
    assert second[0] == 'g' || second[0] == 'o';
    NoVertexLine(second, rest, parse);
    NoVertexLine(first, [second] + rest, parse);
    assert [first, second] + rest == [first] + ([second] + rest);
  }

  /** The model lines hold no "v" line. */
  lemma {:induction false} GroupLinesNoVertex(groups: seq<MdbGroup>, st: MdbState, parse: FloatParser)
    ensures VerticesOf(GroupLines(groups, st).lines, parse) == []
    decreases |groups|
  {
    if |groups| > 0 {
      var g := groups[0];
      var runs := RunLines(g.matGroups, st.currentMat, st);
      RunLinesNoVertex(g.matGroups, st.currentMat, st, parse);
      var tail := if runs.1 then GroupLines(groups[1..], Advance(st, g.vCount)).lines else [];
      if runs.1 {
        GroupLinesNoVertex(groups[1..], Advance(st, g.vCount), parse);
      }
      VerticesOfAppend(runs.0, tail, parse);
      NameLinesNoVertex("g " + g.name, "o " + g.name, g.name, runs.0 + tail, parse);
      Assoc(["g " + g.name, "o " + g.name], runs.0, tail);
    }
  }

  lemma {:induction false} CornerLinesVertices(f: Numbers, parse: FloatParser, b: Box, k: nat)
    requires PrintsReadably(f, parse) && k <= 8
    ensures |VerticesOf(CornerLines(f, b, k), parse)| == 8 - k
    decreases 8 - k
  {
    if k < 8 {
      var line := PointLine(f, f.corner(b, k));
      PointLineVertex(f, parse, f.corner(b, k));
      CornerLinesVertices(f, parse, b, k + 1);
      VerticesOfAppend([line], CornerLines(f, b, k + 1), parse);
    }
  }

  /** A written point line holds one vertex for ReadObj. */
  lemma PointLineVertex(f: Numbers, parse: FloatParser, p: Vec3)
    requires PrintsReadably(f, parse)
    ensures |VerticesOf([PointLine(f, p)], parse)| == 1
  {
    PointLineReads(f, parse, p);
    assert [PointLine(f, p)][1..] == [];
  }

  lemma {:induction false} BoxFaceLinesNoVertex(base: nat, parse: FloatParser, k: nat)
    requires k <= 12
    ensures VerticesOf(BoxFaceLines(base, k), parse) == []
    decreases 12 - k
  {
    if k < 12 {
      var c := BoxFaces[k];
      JoinStart(["f", NatToString(base + c.0), NatToString(base + c.1), NatToString(base + c.2)], ' ');
      BoxFaceLinesNoVertex(base, parse, k + 1);
      NoVertexLine(BoxFaceLine(base, BoxFaces[k]), BoxFaceLines(base, k + 1), parse);
    }
  }

  lemma OwnBoxLinesVertices(f: Numbers, parse: FloatParser, b: Box, base: nat)
    requires PrintsReadably(f, parse)
    ensures |VerticesOf(OwnBoxLines(f, b, base), parse)| == 8
  {
    var corners := CornerLines(f, b, 0);
    var names := ["o " + b.name, "g " + b.name];
    var faces := BoxFaceLines(base, 0);
    CornerLinesVertices(f, parse, b, 0);
    BoxFaceLinesNoVertex(base, parse, 0);
    NameLinesNoVertex(names[0], names[1], b.name, faces, parse);
    VerticesOfAppend(corners, names + faces, parse);
    Assoc(corners, names, faces);
  }

  lemma VerticesOfThree(a: seq<string>, b: seq<string>, c: seq<string>, parse: FloatParser)
    ensures |VerticesOf(a + b + c, parse)| == |VerticesOf(a, parse)| + |VerticesOf(b, parse)| + |VerticesOf(c, parse)|
  {
    VerticesOfAppend(a, b, parse);
    VerticesOfAppend(a + b, c, parse);
  }

  /** WriteBox writes exactly 8 "v" lines per box. */
  lemma {:induction false} BoxLinesVertices(f: Numbers, parse: FloatParser, b: Box, base: nat)
    requires PrintsReadably(f, parse)
    ensures |VerticesOf(BoxLines(f, b, base).obj, parse)| == 8 * BoxCount(b)
    decreases b
  {
    var left := ChildLines(f, b.left, base + 8);
    var right := ChildLines(f, b.right, left.next);
    OwnBoxLinesVertices(f, parse, b, base);
    ChildLinesVertices(f, parse, b.left, base + 8);
    ChildLinesVertices(f, parse, b.right, left.next);
    VerticesOfThree(OwnBoxLines(f, b, base), left.obj, right.obj, parse);
  }

  lemma {:induction false} ChildLinesVertices(f: Numbers, parse: FloatParser, o: Option<Box>, base: nat)
    requires PrintsReadably(f, parse)
    ensures |VerticesOf(ChildLines(f, o, base).obj, parse)| == 8 * SubCount(o)
    decreases o
  {
    if o.Some? {
      BoxLinesVertices(f, parse, o.value, base);
    }
  }

  // ================================================================ WriteMtl

  /** The lines WriteMtl writes for one material; the texture is looked for as a ".dds" file in the texture directory. */
  function MtlEntry(m: Material, textureDirectory: string): seq<string>
  {
    ["newmtl " + m.matName, "Ka 0.200000 0.200000 0.200000", "Kd 1.000000 1.000000 1.000000",
     "Ks 0.000000 0.000000 0.000000", "illum 2", "Ns 8.000000",
     "map_Kd " + textureDirectory + ChangeExtension(m.texName, "dds"), ""]
  }

  /** WriteMtl: an entry for every material of the final list. */
  function MtlFile(mats: seq<Material>, textureDirectory: string): seq<string>
  {
    if |mats| == 0 then [] else MtlEntry(mats[0], textureDirectory) + MtlFile(mats[1..], textureDirectory)
  }

  /**
   * The material ReadMtl makes of an entry: the same name, the texture path
   * with the extension ".tga" (empty when the texture directory and name are).
   */
  function MtlMaterialRead(m: Material, textureDirectory: string): Material
  {
    Material(m.matName, ChangeExtension(textureDirectory + ChangeExtension(m.texName, "dds"), "tga"))
  }

  function MtlReads(mats: seq<Material>, textureDirectory: string): (r: seq<Material>)
    ensures |r| == |mats|
    ensures forall k :: 0 <= k < |mats| ==> r[k].matName == mats[k].matName
  {
    if |mats| == 0 then [] else [MtlMaterialRead(mats[0], textureDirectory)] + MtlReads(mats[1..], textureDirectory)
  }

  /** A line ReadMtl passes over: neither "newmtl " nor "map_Kd " starts it, in any case. */
  predicate Inert(line: string)
  {
    !StartsWithIgnoreCase(line, "newmtl ") && !StartsWithIgnoreCase(line, "map_kd ")
  }

  lemma {:induction false} InertLines(mats: seq<Material>, mat: Option<Material>, lines: seq<string>, rest: seq<string>)
    requires forall k :: 0 <= k < |lines| ==> Inert(lines[k])
    ensures MtlLines(mats, mat, lines + rest) == MtlLines(mats, mat, rest)
    decreases |lines|
  {
    if |lines| == 0 {
      assert lines + rest == rest;
    } else {
      assert (lines + rest)[0] == lines[0] && (lines + rest)[1..] == lines[1..] + rest;
      forall k | 0 <= k < |lines[1..]| ensures Inert(lines[1..][k]) { assert lines[1..][k] == lines[k + 1]; }
      InertLines(mats, mat, lines[1..], rest);
    }
  }

  /** A "newmtl" line adds the material being read, if it is new, and starts the named one. */
  lemma NewMtlStep(mats: seq<Material>, mat: Option<Material>, line: string, rest: seq<string>)
    requires StartsWithIgnoreCase(line, "newmtl ") && AddPending(mats, mat).1.Pass?
    ensures MtlLines(mats, mat, [line] + rest) == MtlLines(AddPending(mats, mat).0, Some(Material(line[7..], "NULL")), rest)
  {
    assert ([line] + rest)[0] == line && ([line] + rest)[1..] == rest;
  }

  /** A "map_Kd" line sets the texture of the material being read. */
  lemma MapStep(mats: seq<Material>, m: Material, line: string, rest: seq<string>)
    requires !StartsWithIgnoreCase(line, "newmtl ") && StartsWithIgnoreCase(line, "map_kd ")
    ensures MtlLines(mats, Some(m), [line] + rest) == MtlLines(mats, Some(m.(texName := ChangeExtension(line[7..], "tga"))), rest)
  {
    assert ([line] + rest)[0] == line && ([line] + rest)[1..] == rest;
  }

  lemma NewMtlLine(name: string)
    ensures StartsWithIgnoreCase("newmtl " + name, "newmtl ") && ("newmtl " + name)[7..] == name
  {
    assert ("newmtl " + name)[..7] == "newmtl ";
  }

  lemma MapLine(path: string)
    ensures !StartsWithIgnoreCase("map_Kd " + path, "newmtl ") && StartsWithIgnoreCase("map_Kd " + path, "map_kd ")
    ensures ("map_Kd " + path)[7..] == path
  {
    var line := "map_Kd " + path;
    assert line[..7] == "map_Kd ";
    assert UpperAscii(line[..7][0]) != UpperAscii('n');
  }

  /** The five fixed lines of an entry between its "newmtl" and "map_Kd" lines, and the blank line after it. */
  lemma EntryInert(m: Material, dir: string)
    ensures var e := MtlEntry(m, dir); (forall k :: 1 <= k < 6 ==> Inert(e[k])) && Inert(e[7])
  {
    var e := MtlEntry(m, dir);
    assert e[1][..7][0] == 'K' && e[2][..7][0] == 'K' && e[3][..7][0] == 'K' && e[4][..7][0] == 'i';
    assert e[5][..7][1] == 's';
    assert UpperAscii('K') != UpperAscii('n') && UpperAscii('K') != UpperAscii('m');
    assert UpperAscii('i') != UpperAscii('n') && UpperAscii('i') != UpperAscii('m');
    assert UpperAscii('s') != UpperAscii('e') && UpperAscii('N') != UpperAscii('m');
  }

  /** An entry read line by line: its first line starts a material, its seventh sets the texture, the others pass. */
  lemma EntryLinesRead(done: seq<Material>, pending: Option<Material>, e: seq<string>, name: string, path: string, rest: seq<string>)
    requires AddPending(done, pending).1.Pass?
    requires |e| == 8 && StartsWithIgnoreCase(e[0], "newmtl ") && e[0][7..] == name
    requires forall k :: 1 <= k < 6 ==> Inert(e[k])
    requires !StartsWithIgnoreCase(e[6], "newmtl ") && StartsWithIgnoreCase(e[6], "map_kd ") && e[6][7..] == path
    requires Inert(e[7])
    ensures MtlLines(done, pending, e + rest)
         == MtlLines(AddPending(done, pending).0, Some(Material(name, ChangeExtension(path, "tga"))), rest)
  {
    var d1 := AddPending(done, pending).0;
    var named := Material(name, "NULL");
    var tail := [e[6]] + ([e[7]] + rest);
    var x0 := e[1..6] + tail;
    assert e + rest == [e[0]] + x0;
    NewMtlStep(done, pending, e[0], x0);
    forall k | 0 <= k < |e[1..6]| ensures Inert(e[1..6][k]) { assert e[1..6][k] == e[k + 1]; }
    InertLines(d1, Some(named), e[1..6], tail);
    MapStep(d1, named, e[6], [e[7]] + rest);
    InertLines(d1, Some(Material(name, ChangeExtension(path, "tga"))), [e[7]], rest);
  }

  lemma EntryHead(m: Material, dir: string)
    ensures |MtlEntry(m, dir)| == 8
    ensures StartsWithIgnoreCase(MtlEntry(m, dir)[0], "newmtl ") && MtlEntry(m, dir)[0][7..] == m.matName
  {
    NewMtlLine(m.matName);
  }

  lemma EntryTexture(m: Material, dir: string)
    ensures var e := MtlEntry(m, dir); var path := dir + ChangeExtension(m.texName, "dds");
      !StartsWithIgnoreCase(e[6], "newmtl ") && StartsWithIgnoreCase(e[6], "map_kd ") && e[6][7..] == path
  {
    var path := dir + ChangeExtension(m.texName, "dds");
    MapLine(path);
    assert MtlEntry(m, dir)[6] == "map_Kd " + path;
  }

  /** After a material's "newmtl" line, the rest of its entry only sets the texture of the material being read. */
  lemma MtlEntryLines(done: seq<Material>, pending: Option<Material>, m: Material, dir: string, rest: seq<string>)
    requires AddPending(done, pending).1.Pass?
    ensures MtlLines(done, pending, MtlEntry(m, dir) + rest)
         == MtlLines(AddPending(done, pending).0, Some(MtlMaterialRead(m, dir)), rest)
  {
    var e := MtlEntry(m, dir);
    var path := dir + ChangeExtension(m.texName, "dds");
    EntryHead(m, dir);
    EntryInert(m, dir);
    EntryTexture(m, dir);
    EntryLinesRead(done, pending, e, m.matName, path, rest);
  }

  /**
   * Reading the file from a pending material on, each material added is new
   * to the list so far and the list never holds more than 65536 entries.
   */
  predicate AddsFresh(done: seq<Material>, m: Material, mats: seq<Material>, dir: string)
    decreases |mats|
  {
    && !HasMaterial(done, m.matName) && |done| < 65536
    && (|mats| > 0 ==> AddsFresh(done + [m], MtlMaterialRead(mats[0], dir), mats[1..], dir))
  }

  /** A pending material whose name is new is added to the list. */
  lemma PendingAdded(done: seq<Material>, m: Material, mats: seq<Material>)
    requires DistinctNames(done + [m] + mats)
    ensures !HasMaterial(done, m.matName)
  {
    var all := done + [m] + mats;
    forall i | 0 <= i < |done|
      ensures !EqualsIgnoreCase(done[i].matName, m.matName)
    {
      assert all[i] == done[i] && all[|done|] == m;
    }
  }

  /** A material replaced by one of the same name keeps the names distinct. */
  lemma SameNameDistinct(before: seq<Material>, m: Material, m1: Material, after: seq<Material>)
    requires DistinctNames(before + [m] + after) && m1.matName == m.matName
    ensures DistinctNames(before + [m1] + after)
  {
    var s, s1 := before + [m] + after, before + [m1] + after;
    forall i, j | 0 <= i < j < |s1| ensures !EqualsIgnoreCase(s1[i].matName, s1[j].matName)
    {
      assert s1[i].matName == s[i].matName && s1[j].matName == s[j].matName;
    }
  }

  /** Distinct names, ignoring case, are all new when they are added. */
  lemma {:induction false} DistinctAddsFresh(done: seq<Material>, m: Material, mats: seq<Material>, dir: string)
    requires DistinctNames(done + [m] + mats) && |done| + 1 + |mats| <= 65536
    ensures AddsFresh(done, m, mats, dir)
    decreases |mats|
  {
    PendingAdded(done, m, mats);
    if |mats| > 0 {
      var m1 := MtlMaterialRead(mats[0], dir);
      assert done + [m] + mats == done + [m] + [mats[0]] + mats[1..];
      SameNameDistinct(done + [m], mats[0], m1, mats[1..]);
      DistinctAddsFresh(done + [m], m1, mats[1..], dir);
    }
  }

  /** The first entry of the file adds the pending material and leaves its own material pending. */
  lemma MtlFileHead(done: seq<Material>, m: Material, mats: seq<Material>, dir: string)
    requires |mats| > 0 && !HasMaterial(done, m.matName) && |done| < 65536
    ensures MtlLines(done, Some(m), MtlFile(mats, dir))
         == MtlLines(done + [m], Some(MtlMaterialRead(mats[0], dir)), MtlFile(mats[1..], dir))
  {
    assert MtlFile(mats, dir) == MtlEntry(mats[0], dir) + MtlFile(mats[1..], dir);
    MtlEntryLines(done, Some(m), mats[0], dir, MtlFile(mats[1..], dir));
  }

  /**
   * With a material pending, the rest of the file adds that material and
   * then each material of the entries, in order.
   */
  lemma {:induction false} MtlFileReads(done: seq<Material>, m: Material, mats: seq<Material>, dir: string)
    requires AddsFresh(done, m, mats, dir)
    ensures MtlLines(done, Some(m), MtlFile(mats, dir)) == (done + [m] + MtlReads(mats, dir), Pass)
    decreases |mats|
  {
    if |mats| > 0 {
      var m1 := MtlMaterialRead(mats[0], dir);
      MtlFileHead(done, m, mats, dir);
      MtlFileReads(done + [m], m1, mats[1..], dir);
      assert MtlReads(mats, dir) == [m1] + MtlReads(mats[1..], dir);
      Assoc(done + [m], [m1], MtlReads(mats[1..], dir));
    } else {
      assert MtlFile(mats, dir) == [] && MtlReads(mats, dir) == [];
      assert done + [m] + MtlReads(mats, dir) == done + [m];
    }
  }

  /**
   * A line that reads back whole: StreamReader.ReadLine ends a line at '\n'
   * or '\r', so a written line holding neither comes back as written.
   */
  predicate OneLine(s: string)
  {
    '\n' !in s && '\r' !in s
  }

  /** A string none of whose characters is '\n' or '\r' is one line. */
  lemma OneLineByIndex(s: string)
    requires forall k :: 0 <= k < |s| ==> s[k] != '\n' && s[k] != '\r'
    ensures OneLine(s)
  {
  }

  /** Changing the extension of a line-break-free path adds no line break. */
  lemma ChangeExtensionOneLine(path: string, ext: string)
    requires OneLine(path) && OneLine(ext)
    ensures OneLine(ChangeExtension(path, ext))
  {
    if |path| > 0 {
      var stem := Stem(path);
      assert path == stem + path[|stem|..];
      assert ChangeExtension(path, ext) == stem + ("." + ext);
    }
  }

  /** No material name or texture name holds a line break. */
  predicate NamesOneLine(mats: seq<Material>)
  {
    forall i :: 0 <= i < |mats| ==> OneLine(mats[i].matName) && OneLine(mats[i].texName)
  }

  /**
   * ReadMtl reads the MTL file WriteMtl writes for a list of distinct
   * names (ignoring case) back into the same materials, in order, each with
   * its texture path, the texture directory followed by the name with the
   * extension ".dds", turned into a ".tga" one. The names and the directory
   * hold no line break, so every line written reads back whole (MtlFileOneLine).
   */
  lemma MtlRoundTrip(mats: seq<Material>, dir: string)
    requires DistinctNames(mats) && |mats| <= 65536
    requires NamesOneLine(mats) && OneLine(dir)
    ensures ReadMtlSpec([], MtlFile(mats, dir)) == (MtlReads(mats, dir), Pass)
  {
    if |mats| > 0 {
      var m0 := MtlMaterialRead(mats[0], dir);
      assert [] + [mats[0]] + mats[1..] == mats;
      SameNameDistinct([], mats[0], m0, mats[1..]);
      DistinctAddsFresh([], m0, mats[1..], dir);
      MtlFileFromStart(mats, dir);
    } else {
      assert MtlFile(mats, dir) == [] && MtlReads(mats, dir) == [];
    }
  }

  /** The lines of one entry hold no line break when its names and the directory hold none. */
  lemma EntryOneLine(m: Material, dir: string)
    requires OneLine(m.matName) && OneLine(m.texName) && OneLine(dir)
    ensures forall k :: 0 <= k < |MtlEntry(m, dir)| ==> OneLine(MtlEntry(m, dir)[k])
  {
    ChangeExtensionOneLine(m.texName, "dds");
    var e := MtlEntry(m, dir);
    assert OneLine(e[0]) by { assert e[0] == "newmtl " + m.matName; }
    FixedLinesOneLine();
    assert OneLine(e[6]) by { assert e[6] == "map_Kd " + (dir + ChangeExtension(m.texName, "dds")); }
  }

  /** The fixed lines of an entry hold no line break. */
  lemma FixedLinesOneLine()
    ensures OneLine("Ka 0.200000 0.200000 0.200000") && OneLine("Kd 1.000000 1.000000 1.000000")
    ensures OneLine("Ks 0.000000 0.000000 0.000000") && OneLine("illum 2") && OneLine("Ns 8.000000") && OneLine("")
  {
    OneLineByIndex("Ka 0.200000 0.200000 0.200000");
    OneLineByIndex("Kd 1.000000 1.000000 1.000000");
    OneLineByIndex("Ks 0.000000 0.000000 0.000000");
    OneLineByIndex("illum 2");
    OneLineByIndex("Ns 8.000000");
  }

  /**
   * Every line WriteMtl writes is one line for StreamReader.ReadLine when no
   * name and not the texture directory holds a line break, so ReadMtl sees
   * exactly the lines written.
   */
  lemma {:induction false} MtlFileOneLine(mats: seq<Material>, dir: string)
    requires NamesOneLine(mats) && OneLine(dir)
    ensures forall k :: 0 <= k < |MtlFile(mats, dir)| ==> OneLine(MtlFile(mats, dir)[k])
    decreases |mats|
  {
    if |mats| > 0 {
      EntryOneLine(mats[0], dir);
      MtlFileOneLine(mats[1..], dir);
      var e, rest := MtlEntry(mats[0], dir), MtlFile(mats[1..], dir);
      assert MtlFile(mats, dir) == e + rest;
      forall k | 0 <= k < |e + rest| ensures OneLine((e + rest)[k])
      {
        if k >= |e| { assert (e + rest)[k] == rest[k - |e|]; }
      }
    }
  }

  lemma MtlFileFromStart(mats: seq<Material>, dir: string)
    requires |mats| > 0 && AddsFresh([], MtlMaterialRead(mats[0], dir), mats[1..], dir)
    ensures ReadMtlSpec([], MtlFile(mats, dir)) == (MtlReads(mats, dir), Pass)
  {
    var m0 := MtlMaterialRead(mats[0], dir);
    assert MtlFile(mats, dir) == MtlEntry(mats[0], dir) + MtlFile(mats[1..], dir);
    MtlEntryLines([], None, mats[0], dir, MtlFile(mats[1..], dir));
    MtlFileReads([], m0, mats[1..], dir);
    assert [] + [m0] + MtlReads(mats[1..], dir) == MtlReads(mats, dir);
  }
}
