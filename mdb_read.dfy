// MdbTool.ReadMdb as a function of the state it updates and of the unread
// part of the file. Every read that runs past the end of the file fails with
// the message the source throws; the updates made before the failure stay in
// the state, as they do in the source's lists.
module MdbRead {
  import opened Wrappers
  import opened Machine
  import opened Float32
  import opened Binary
  import opened Records
  import opened Text
  import opened ObjPack
  import opened MtlRead
  import opened MdbLayout
  import opened MdbBoxRead

  // ================================================================ the converter's state

  /** A model read from an MDB file: its group name, its vertex count and its material runs. */
  datatype MdbGroup = MdbGroup(name: string, vCount: u32, matGroups: seq<TriGroup>)

  /**
   * The lists MdbTool keeps between files: the points of the current file,
   * its groups and materials, the materials of the whole OBJ, the box
   * counter, the collision box tree and the three OBJ index offsets.
   */
  datatype MdbState = MdbState(
    v: seq<Vec3>, vt: seq<Vec2>, vn: seq<Vec2>,
    groups: seq<MdbGroup>, currentMat: seq<Material>, finalMat: seq<Material>,
    boxNumber: nat, parentBox: Box,
    gVCount: nat, gVtCount: nat, gVnCount: nat)

  /** A freshly constructed MdbTool. */
  const InitialState := MdbState([], [], [], [], [], [], 0, NewBox, 1, 1, 1)

  /**
   * Why ReadMdb stopped: which read ran past the end of the file, with the
   * model, point, triangle, material or bone number the message gives.
   */
  datatype ReadError =
    | ModelCountError
    | PointCountError(model: nat)
    | PointError(point: nat, model: nat)
    | TriCountError(model: nat)
    | TriError(tri: nat, model: nat)
    | TexCountError
    | MaterialError(material: nat)
    | BoneCountError
    | BoneError(bone: nat)
    | BoxError

  /** How a read step ended: it went through, or it threw with this error. */
  datatype Status = Ok | Failed(error: ReadError)

  /** The state after a read step, the unread rest of the file, and whether the step threw. */
  datatype Step = Step(st: MdbState, rest: seq<byte>, outcome: Status)

  // ================================================================ messages

  /** The text of the exception ReadMdb throws for each error. */
  function Message(e: ReadError): string
  {
    match e
    case ModelCountError => "Skipped\nUnable to read the number of model in the file.\n"
    case PointCountError(i) => "Skipped\nUnable to read point count of model number " + NatToString(i) + " in the file.\n"
    case PointError(j, i) =>
      "Skipped\nUnable to read point number " + NatToString(j) + " of model number " + NatToString(i) + " in the file.\n"
    case TriCountError(i) => "Skipped\nUnable to read triangle count of model number " + NatToString(i) + " in the file.\n"
    case TriError(j, i) => "Skipped\nUnable to read triangle number " + NatToString(j) + " of model number " + NatToString(i) + ".\n"
    case TexCountError => "Skipped\nUnable to read texture count in the file.\n"
    case MaterialError(i) => "Skipped\nUnable to read material " + NatToString(i) + ".\n"
    case BoneCountError => "Skipped\nUnable to read bones count in the file.\n"
    case BoneError(i) => "Skipped\nUnable to read bone " + NatToString(i) + ".\n"
    case BoxError => "Unable to read collision box.\n"
  }

  // ================================================================ vertices

  /** The three point lists of MdbTool: positions, texture coordinates and normal angles. */
  datatype Points = Points(v: seq<Vec3>, vt: seq<Vec2>, vn: seq<Vec2>)

  /** The point lists after the vertex loop, the unread rest and the outcome. */
  datatype PointStep = PointStep(pts: Points, rest: seq<byte>, outcome: Status)

  function Positions(vs: seq<MdbVertex>): (r: seq<Vec3>)
    ensures |r| == |vs|
  {
    if |vs| == 0 then [] else [vs[0].v] + Positions(vs[1..])
  }

  function TexCoords(vs: seq<MdbVertex>): (r: seq<Vec2>)
    ensures |r| == |vs|
  {
    if |vs| == 0 then [] else [vs[0].vt] + TexCoords(vs[1..])
  }

  function Normals(vs: seq<MdbVertex>): (r: seq<Vec2>)
    ensures |r| == |vs|
  {
    if |vs| == 0 then [] else [vs[0].vn] + Normals(vs[1..])
  }

  /** The point lists with the points of `vs` appended. */
  function AddVertices(q: Points, vs: seq<MdbVertex>): Points
  {
    Points(q.v + Positions(vs), q.vt + TexCoords(vs), q.vn + Normals(vs))
  }

  /**
   * The vertex loop of ReadMdb for points j..n-1 of model i: each point
   * skips its tag, then adds its position, its texture coordinate and its
   * normal angles to their lists one at a time, then skips the transparency.
   * A read that fails leaves the entries added so far, so the three lists
   * can end up one entry apart.
   */
  function ReadVertices(q: Points, s: seq<byte>, i: nat, j: nat, n: nat): (r: PointStep)
    ensures |r.rest| <= |s|
    decreases n - j
  {
    if j >= n then PointStep(q, s, Ok)
    else
      var fail := Failed(PointError(j, i));
      match ReadVec3(Skip(s, 4))
      case None => PointStep(q, [], fail)
      case Some((p, s1)) =>
        var q1 := q.(v := q.v + [p]);
        match ReadVec2(s1)
        case None => PointStep(q1, [], fail)
        case Some((t, s2)) =>
          var q2 := q1.(vt := q1.vt + [t]);
          match ReadVec2(s2)
          case None => PointStep(q2, [], fail)
          case Some((nrm, s3)) => ReadVertices(q2.(vn := q2.vn + [nrm]), Skip(s3, 4), i, j + 1, n)
  }

  /** The vertex loop only appends to the point lists. */
  lemma {:induction false} ReadVerticesAppends(q: Points, s: seq<byte>, i: nat, j: nat, n: nat)
    requires j <= n
    ensures var r := ReadVertices(q, s, i, j, n);
      q.v <= r.pts.v && q.vt <= r.pts.vt && q.vn <= r.pts.vn
    decreases n - j
  {
    if j < n {
      match ReadVec3(Skip(s, 4))
      case None =>
      case Some((p, s1)) =>
        var q1 := q.(v := q.v + [p]);
        match ReadVec2(s1)
        case None =>
        case Some((t, s2)) =>
          var q2 := q1.(vt := q1.vt + [t]);
          match ReadVec2(s2)
          case None =>
          case Some((nrm, s3)) =>
            ReadVerticesAppends(q2.(vn := q2.vn + [nrm]), Skip(s3, 4), i, j + 1, n);
    }
  }

  /** A vertex loop that goes through adds one position per point. */
  lemma {:induction false} ReadVerticesCount(q: Points, s: seq<byte>, i: nat, j: nat, n: nat)
    requires j <= n
    ensures var r := ReadVertices(q, s, i, j, n);
      r.outcome.Ok? ==> |r.pts.v| == |q.v| + (n - j)
    decreases n - j
  {
    if j < n {
      match ReadVec3(Skip(s, 4))
      case None =>
      case Some((p, s1)) =>
        match ReadVec2(s1)
        case None =>
        case Some((t, s2)) =>
          match ReadVec2(s2)
          case None =>
          case Some((nrm, s3)) =>
            var q3 := Points(q.v + [p], q.vt + [t], q.vn + [nrm]);
            assert ReadVertices(q, s, i, j, n) == ReadVertices(q3, Skip(s3, 4), i, j + 1, n);
            ReadVerticesCount(q3, Skip(s3, 4), i, j + 1, n);
    }
  }

  /** Three lists of the same length, or a failed point whose position and perhaps texture coordinate were added. */
  predicate InStep(q: Points)
  {
    |q.vn| <= |q.vt| <= |q.v| <= |q.vn| + 1
  }

  /** Whatever the bytes, the point lists stay at most one entry apart, positions first, and in step when the loop goes through. */
  lemma {:induction false} ReadVerticesInStep(q: Points, s: seq<byte>, i: nat, j: nat, n: nat)
    requires |q.vn| == |q.vt| == |q.v|
    ensures var r := ReadVertices(q, s, i, j, n);
      InStep(r.pts) && (r.outcome.Ok? ==> |r.pts.vn| == |r.pts.vt| == |r.pts.v|)
    decreases n - j
  {
    if j < n {
      match ReadVec3(Skip(s, 4))
      case None =>
      case Some((p, s1)) =>
        var q1 := q.(v := q.v + [p]);
        match ReadVec2(s1)
        case None =>
        case Some((t, s2)) =>
          var q2 := q1.(vt := q1.vt + [t]);
          match ReadVec2(s2)
          case None =>
          case Some((nrm, s3)) =>
            ReadVerticesInStep(q2.(vn := q2.vn + [nrm]), Skip(s3, 4), i, j + 1, n);
    }
  }

  /** The reads of one vertex record written by WriteGroup. */
  lemma VertexRecordReads(m: MdbVertex, x: seq<byte>)
    ensures ReadVec3(Skip(VertexRecord(m) + x, 4)) == Some((m.v, Vec2Bytes(m.vt) + (Vec2Bytes(m.vn) + (I32Bytes(-1) + x))))
    ensures ReadVec2(Vec2Bytes(m.vt) + (Vec2Bytes(m.vn) + (I32Bytes(-1) + x))) == Some((m.vt, Vec2Bytes(m.vn) + (I32Bytes(-1) + x)))
    ensures ReadVec2(Vec2Bytes(m.vn) + (I32Bytes(-1) + x)) == Some((m.vn, I32Bytes(-1) + x))
    ensures Skip(I32Bytes(-1) + x, 4) == x
  {
    var tail := Vec3Bytes(m.v) + (Vec2Bytes(m.vt) + (Vec2Bytes(m.vn) + (I32Bytes(-1) + x)));
    assert VertexRecord(m) + x == I32Bytes(32) + tail;
    SkipPrefix(I32Bytes(32), tail);
    ReadVec3Of(m.v, Vec2Bytes(m.vt) + (Vec2Bytes(m.vn) + (I32Bytes(-1) + x)));
    ReadVec2Of(m.vt, Vec2Bytes(m.vn) + (I32Bytes(-1) + x));
    ReadVec2Of(m.vn, I32Bytes(-1) + x);
    SkipPrefix(I32Bytes(-1), x);
  }

  /** One step of the vertex loop over a vertex record. */
  lemma ReadVertexStep(q: Points, m: MdbVertex, x: seq<byte>, i: nat, j: nat, n: nat)
    requires j < n
    ensures ReadVertices(q, VertexRecord(m) + x, i, j, n) == ReadVertices(AddVertices(q, [m]), x, i, j + 1, n)
  {
    VertexRecordReads(m, x);
    assert Positions([m]) == [m.v] && TexCoords([m]) == [m.vt] && Normals([m]) == [m.vn];
  }

  lemma AddVerticesCons(q: Points, vs: seq<MdbVertex>)
    requires |vs| > 0
    ensures AddVertices(AddVertices(q, [vs[0]]), vs[1..]) == AddVertices(q, vs)
  {
    assert Positions([vs[0]]) == [vs[0].v] && TexCoords([vs[0]]) == [vs[0].vt] && Normals([vs[0]]) == [vs[0].vn];
    assert q.v + [vs[0].v] + Positions(vs[1..]) == q.v + Positions(vs);
    assert q.vt + [vs[0].vt] + TexCoords(vs[1..]) == q.vt + TexCoords(vs);
    assert q.vn + [vs[0].vn] + Normals(vs[1..]) == q.vn + Normals(vs);
  }

  /** The vertex records WriteGroup writes are read back into the three point lists, in order. */
  lemma {:induction false} ReadVerticesOf(q: Points, vs: seq<MdbVertex>, rest: seq<byte>, i: nat, j: nat, n: nat)
    requires n == j + |vs|
    ensures ReadVertices(q, Vertices(vs) + rest, i, j, n) == PointStep(AddVertices(q, vs), rest, Ok)
    decreases |vs|
  {
    if |vs| == 0 {
      assert Vertices(vs) + rest == rest;
      assert AddVertices(q, vs) == q;
    } else {
      var x := Vertices(vs[1..]) + rest;
      assert Vertices(vs) + rest == VertexRecord(vs[0]) + x;
      ReadVertexStep(q, vs[0], x, i, j, n);
      ReadVerticesOf(AddVertices(q, [vs[0]]), vs[1..], rest, i, j + 1, n);
      AddVerticesCons(q, vs);
    }
  }

  // ================================================================ triangles

  /** The triangles after the vertex loop, grouped in runs of the same material, the unread rest and the outcome. */
  datatype TriStep = TriStep(runs: seq<TriGroup>, rest: seq<byte>, outcome: Status)

  /** The material of the run being filled, or -1 before the first triangle (ReadMdb's currentMat). */
  function LastMat(runs: seq<TriGroup>): int
  {
    if |runs| == 0 then -1 else runs[|runs| - 1].matIndex
  }

  /** One triangle: a new run when its material differs from the current one, else the current run grows. */
  function AddTri(runs: seq<TriGroup>, mat: u16, t: MdbTriangle): (r: seq<TriGroup>)
    ensures |r| > 0 && LastMat(r) == mat
  {
    if LastMat(runs) != mat then runs + [TriGroup(mat, [t])]
    else runs[..|runs| - 1] + [TriGroup(mat, runs[|runs| - 1].tris + [t])]
  }

  /** Adding triangles one by one with AddTri. */
  function Merge(runs: seq<TriGroup>, pairs: seq<(u16, MdbTriangle)>): seq<TriGroup>
    decreases |pairs|
  {
    if |pairs| == 0 then runs else Merge(AddTri(runs, pairs[0].0, pairs[0].1), pairs[1..])
  }

  /** The triangle record fields in file order: P0, P1, P2, then the material index. */
  function ReadTriRecord(s: seq<byte>): (r: Option<(MdbTriangle, u16, seq<byte>)>)
    ensures r.Some? ==> |r.value.2| < |s|
  {
    match ReadU16(Skip(s, 4))
    case None => None
    case Some((a, s1)) =>
      match ReadU16(s1)
      case None => None
      case Some((b, s2)) =>
        match ReadU16(s2)
        case None => None
        case Some((c, s3)) =>
          match ReadU16(s3)
          case None => None
          case Some((mat, s4)) => Some((MdbTriangle(a, b, c), mat, s4))
  }

  /** The triangle loop of ReadMdb for triangles j..n-1 of model i. */
  function ReadTris(s: seq<byte>, i: nat, j: nat, n: nat, runs: seq<TriGroup>): (r: TriStep)
    ensures |r.rest| <= |s|
    decreases n - j
  {
    if j >= n then TriStep(runs, s, Ok)
    else
      match ReadTriRecord(s)
      case None => TriStep(runs, [], Failed(TriError(j, i)))
      case Some((t, mat, s1)) => ReadTris(s1, i, j + 1, n, AddTri(runs, mat, t))
  }

  // ---------------------------------------------------------------- what the runs mean

  /** Each triangle of a run with the run's material. */
  function Tagged(mat: u16, tris: seq<MdbTriangle>): (r: seq<(u16, MdbTriangle)>)
    ensures |r| == |tris|
  {
    if |tris| == 0 then [] else [(mat, tris[0])] + Tagged(mat, tris[1..])
  }

  /** The triangles of all runs in order, each with its material. */
  function Pairs(runs: seq<TriGroup>): seq<(u16, MdbTriangle)>
  {
    if |runs| == 0 then [] else Tagged(runs[0].matIndex, runs[0].tris) + Pairs(runs[1..])
  }

  /** No run is empty and no two neighbouring runs share a material. */
  predicate Maximal(runs: seq<TriGroup>)
  {
    (forall k :: 0 <= k < |runs| ==> |runs[k].tris| > 0)
    && (forall k :: 0 < k < |runs| ==> runs[k - 1].matIndex != runs[k].matIndex)
  }

  lemma {:induction false} TaggedSnoc(mat: u16, tris: seq<MdbTriangle>, t: MdbTriangle)
    ensures Tagged(mat, tris + [t]) == Tagged(mat, tris) + [(mat, t)]
    decreases |tris|
  {
    if |tris| == 0 {
      assert tris + [t] == [t];
    } else {
      assert (tris + [t])[1..] == tris[1..] + [t];
      TaggedSnoc(mat, tris[1..], t);
    }
  }

  lemma {:induction false} PairsSnoc(runs: seq<TriGroup>, g: TriGroup)
    ensures Pairs(runs + [g]) == Pairs(runs) + Tagged(g.matIndex, g.tris)
    decreases |runs|
  {
    if |runs| == 0 {
      assert runs + [g] == [g];
      assert Pairs([g]) == Tagged(g.matIndex, g.tris) + Pairs([]);
    } else {
      assert (runs + [g])[1..] == runs[1..] + [g];
      PairsSnoc(runs[1..], g);
    }
  }

  /** AddTri appends the triangle, with its material, to the triangles the runs hold, and keeps the runs maximal. */
  lemma AddTriMeaning(runs: seq<TriGroup>, mat: u16, t: MdbTriangle)
    ensures Pairs(AddTri(runs, mat, t)) == Pairs(runs) + [(mat, t)]
    ensures Maximal(runs) ==> Maximal(AddTri(runs, mat, t))
  {
    if LastMat(runs) != mat {
      PairsSnoc(runs, TriGroup(mat, [t]));
      assert Tagged(mat, [t]) == [(mat, t)] + Tagged(mat, []);
    } else {
      var init, last := runs[..|runs| - 1], runs[|runs| - 1];
      assert runs == init + [last];
      PairsSnoc(init, last);
      PairsSnoc(init, TriGroup(mat, last.tris + [t]));
      TaggedSnoc(mat, last.tris, t);
    }
  }

  /** Merging appends the triangles in order and keeps the runs maximal. */
  lemma {:induction false} MergeMeaning(runs: seq<TriGroup>, pairs: seq<(u16, MdbTriangle)>)
    ensures Pairs(Merge(runs, pairs)) == Pairs(runs) + pairs
    ensures Maximal(runs) ==> Maximal(Merge(runs, pairs))
    decreases |pairs|
  {
    if |pairs| > 0 {
      AddTriMeaning(runs, pairs[0].0, pairs[0].1);
      MergeMeaning(AddTri(runs, pairs[0].0, pairs[0].1), pairs[1..]);
      assert [pairs[0]] + pairs[1..] == pairs;
    }
  }

  // ---------------------------------------------------------------- reading back what WriteGroup wrote

  /** A triangle with its corners in the opposite order: what reading a TriRecord gives. */
  function Flip(t: MdbTriangle): MdbTriangle
  {
    MdbTriangle(t.p2, t.p1, t.p0)
  }

  function FlipPairs(pairs: seq<(u16, MdbTriangle)>): (r: seq<(u16, MdbTriangle)>)
    ensures |r| == |pairs|
  {
    if |pairs| == 0 then [] else [(pairs[0].0, Flip(pairs[0].1))] + FlipPairs(pairs[1..])
  }

  function TriRecords(pairs: seq<(u16, MdbTriangle)>): (r: seq<byte>)
    ensures |r| == 12 * |pairs|
  {
    if |pairs| == 0 then [] else TriRecord(pairs[0].1, pairs[0].0) + TriRecords(pairs[1..])
  }

  lemma ReadTriRecordOf(t: MdbTriangle, mat: u16, x: seq<byte>)
    ensures ReadTriRecord(TriRecord(t, mat) + x) == Some((Flip(t), mat, x))
  {
    var tail := U16Bytes(t.p2) + (U16Bytes(t.p1) + (U16Bytes(t.p0) + (U16Bytes(mat) + x)));
    assert TriRecord(t, mat) + x == I32Bytes(8) + tail;
    SkipPrefix(I32Bytes(8), tail);
    U16RoundTrip(t.p2, U16Bytes(t.p1) + (U16Bytes(t.p0) + (U16Bytes(mat) + x)));
    U16RoundTrip(t.p1, U16Bytes(t.p0) + (U16Bytes(mat) + x));
    U16RoundTrip(t.p0, U16Bytes(mat) + x);
    U16RoundTrip(mat, x);
  }

  /** The triangle records are read back into the runs Merge forms from them, corners reversed. */
  lemma {:induction false} ReadTrisOf(pairs: seq<(u16, MdbTriangle)>, rest: seq<byte>, i: nat, j: nat, n: nat, runs: seq<TriGroup>)
    requires n == j + |pairs|
    ensures ReadTris(TriRecords(pairs) + rest, i, j, n, runs) == TriStep(Merge(runs, FlipPairs(pairs)), rest, Ok)
    decreases |pairs|
  {
    if |pairs| == 0 {
      assert TriRecords(pairs) + rest == rest;
    } else {
      var x := TriRecords(pairs[1..]) + rest;
      assert TriRecords(pairs) + rest == TriRecord(pairs[0].1, pairs[0].0) + x;
      ReadTriRecordOf(pairs[0].1, pairs[0].0, x);
      ReadTrisOf(pairs[1..], rest, i, j + 1, n, AddTri(runs, pairs[0].0, Flip(pairs[0].1)));
    }
  }

  lemma {:induction false} TriRecordsAppend(a: seq<(u16, MdbTriangle)>, b: seq<(u16, MdbTriangle)>)
    ensures TriRecords(a + b) == TriRecords(a) + TriRecords(b)
    decreases |a|
  {
    if |a| == 0 {
      assert a + b == b;
    } else {
      assert (a + b)[1..] == a[1..] + b;
      TriRecordsAppend(a[1..], b);
    }
  }

  lemma {:induction false} GroupTrisTagged(mat: u16, tris: seq<MdbTriangle>)
    ensures GroupTris(mat, tris) == TriRecords(Tagged(mat, tris))
    decreases |tris|
  {
    if |tris| > 0 {
      GroupTrisTagged(mat, tris[1..]);
    }
  }

  /** The triangles of the face groups, as written, are the records of their pairs. */
  lemma {:induction false} AllTrisPairs(groups: seq<TriGroup>)
    ensures AllTris(groups) == TriRecords(Pairs(groups))
    ensures TriCount(groups) == |Pairs(groups)|
    decreases |groups|
  {
    if |groups| > 0 {
      AllTrisPairs(groups[1..]);
      GroupTrisTagged(groups[0].matIndex, groups[0].tris);
      TriRecordsAppend(Tagged(groups[0].matIndex, groups[0].tris), Pairs(groups[1..]));
    }
  }

  /** Reading triangles keeps the runs maximal: the loop opens a run exactly when the material changes. */
  lemma {:induction false} ReadTrisMaximal(s: seq<byte>, i: nat, j: nat, n: nat, runs: seq<TriGroup>)
    requires Maximal(runs)
    ensures Maximal(ReadTris(s, i, j, n, runs).runs)
    decreases n - j
  {
    if j < n {
      match ReadTriRecord(s)
      case None =>
      case Some((t, mat, s1)) =>
        AddTriMeaning(runs, mat, t);
        ReadTrisMaximal(s1, i, j + 1, n, AddTri(runs, mat, t));
    }
  }

  // ================================================================ models

  function PointsOf(st: MdbState): Points
  {
    Points(st.v, st.vt, st.vn)
  }

  function WithPoints(st: MdbState, q: Points): MdbState
  {
    st.(v := q.v, vt := q.vt, vn := q.vn)
  }

  /** The name ReadMdb gives model i: the base group name, '_' and the model number. */
  function GroupLabel(groupName: string, i: nat): string
  {
    groupName + "_" + NatToString(i)
  }

  /**
   * After the animation count: when fewer bytes than the block length were
   * read since the length field, the rest of the block is skipped.
   */
  function SkipToModelEnd(start: seq<byte>, s: seq<byte>, modelLength: u32): seq<byte>
    requires |s| <= |start|
  {
    var consumed := |start| - |s|;
    if consumed < modelLength then Skip(s, modelLength - consumed) else s
  }

  /**
   * One pass of the model loop of ReadMdb: the block length, the model
   * index (skipped), the point count and the points, the triangle count and
   * the triangles, then the group is added under the name GroupLabel and the
   * reader moves to the end of the block. A failure before the group is
   * added leaves the groups as they were, but keeps the points read.
   */
  function ReadModel(st: MdbState, s: seq<byte>, groupName: string, i: nat): (r: Step)
    ensures |r.rest| <= |s|
  {
    match ReadU32(s)
    case None => Step(st, [], Failed(PointCountError(i)))
    case Some((modelLength, s1)) =>
      match ReadU32(Skip(s1, 4))
      case None => Step(st, [], Failed(PointCountError(i)))
      case Some((vCount, s2)) =>
        var vr := ReadVertices(PointsOf(st), s2, i, 0, vCount);
        var st1 := WithPoints(st, vr.pts);
        if vr.outcome.Failed? then Step(st1, [], vr.outcome)
        else
          match ReadU32(vr.rest)
          case None => Step(st1, [], Failed(TriCountError(i)))
          case Some((tCount, s3)) =>
            var tr := ReadTris(s3, i, 0, tCount, []);
            if tr.outcome.Failed? then Step(st1, [], tr.outcome)
            else
              Step(st1.(groups := st1.groups + [MdbGroup(GroupLabel(groupName, i), vCount, tr.runs)]),
                   SkipToModelEnd(s1, Skip(tr.rest, 4), modelLength), Ok)
  }

  /** The model loop of ReadMdb for models i..n-1; it stops at the first model that fails. */
  function ReadModels(st: MdbState, s: seq<byte>, groupName: string, i: nat, n: nat): (r: Step)
    ensures |r.rest| <= |s|
    decreases n - i
  {
    if i >= n then Step(st, s, Ok)
    else
      var m := ReadModel(st, s, groupName, i);
      if m.outcome.Failed? then m else ReadModels(m.st, m.rest, groupName, i + 1, n)
  }

  /**
   * A model pass changes only the point lists and the groups; the groups
   * gain one entry, named after the model, whose runs are maximal, when the
   * pass goes through, and none when it fails.
   */
  lemma ReadModelFrame(st: MdbState, s: seq<byte>, groupName: string, i: nat)
    ensures var r := ReadModel(st, s, groupName, i);
      && r.st == st.(v := r.st.v, vt := r.st.vt, vn := r.st.vn, groups := r.st.groups)
      && (r.outcome.Failed? ==> r.st.groups == st.groups)
      && (r.outcome.Ok? ==>
            && |r.st.groups| == |st.groups| + 1 && r.st.groups[..|st.groups|] == st.groups
            && r.st.groups[|st.groups|].name == GroupLabel(groupName, i)
            && Maximal(r.st.groups[|st.groups|].matGroups))
  {
    match ReadU32(s)
    case None =>
    case Some((modelLength, s1)) =>
      match ReadU32(Skip(s1, 4))
      case None =>
      case Some((vCount, s2)) =>
        var vr := ReadVertices(PointsOf(st), s2, i, 0, vCount);
        if vr.outcome.Ok? {
          match ReadU32(vr.rest)
          case None =>
          case Some((tCount, s3)) =>
            ReadTrisMaximal(s3, i, 0, tCount, []);
        }
  }

  // ---------------------------------------------------------------- reading back what WriteGroup wrote

  /** One model as WriteGroup writes it: its index, its points and its face groups. */
  datatype MdbModel = MdbModel(index: int, verts: seq<MdbVertex>, groups: seq<TriGroup>)

  /** A model whose block length fits the int field it is written to. */
  predicate Fits(m: MdbModel)
  {
    ModelLength(|m.verts|, TriCount(m.groups)) <= Int32Max
  }

  function ModelBlocks(ms: seq<MdbModel>): seq<byte>
  {
    if |ms| == 0 then [] else ModelBlock(ms[0].index, ms[0].verts, ms[0].groups) + ModelBlocks(ms[1..])
  }

  /** The state after reading model i back: its points appended, and a group holding its triangles in maximal runs. */
  function ModelRead(st: MdbState, groupName: string, i: nat, m: MdbModel): MdbState
    requires Fits(m)
  {
    WithPoints(st, AddVertices(PointsOf(st), m.verts))
      .(groups := st.groups + [MdbGroup(GroupLabel(groupName, i), |m.verts|, Merge([], FlipPairs(Pairs(m.groups))))])
  }

  function ModelsRead(st: MdbState, groupName: string, i: nat, ms: seq<MdbModel>): MdbState
    requires forall k :: 0 <= k < |ms| ==> Fits(ms[k])
    decreases |ms|
  {
    if |ms| == 0 then st else ModelsRead(ModelRead(st, groupName, i, ms[0]), groupName, i + 1, ms[1..])
  }

  /** One successful pass of the model loop, with the results of its reads given. */
  lemma ReadModelUnfold(st: MdbState, s: seq<byte>, groupName: string, i: nat, modelLength: u32, s1: seq<byte>,
                        vCount: u32, s2: seq<byte>, q: Points, s3: seq<byte>, tCount: u32, s4: seq<byte>,
                        runs: seq<TriGroup>, s5: seq<byte>)
    requires ReadU32(s) == Some((modelLength, s1))
    requires ReadU32(Skip(s1, 4)) == Some((vCount, s2))
    requires ReadVertices(PointsOf(st), s2, i, 0, vCount) == PointStep(q, s3, Ok)
    requires ReadU32(s3) == Some((tCount, s4))
    requires ReadTris(s4, i, 0, tCount, []) == TriStep(runs, s5, Ok)
    requires |s1| - |Skip(s5, 4)| == modelLength
    ensures ReadModel(st, s, groupName, i)
         == Step(WithPoints(st, q).(groups := st.groups + [MdbGroup(GroupLabel(groupName, i), vCount, runs)]), Skip(s5, 4), Ok)
  {
  }

  /** A model block regrouped so that each read takes the leftmost piece. */
  lemma ModelBlockThen(m: MdbModel, rest: seq<byte>)
    ensures ModelBlock(m.index, m.verts, m.groups) + rest
         == I32Bytes(ModelLength(|m.verts|, TriCount(m.groups))) + (I32Bytes(m.index) + (I32Bytes(|m.verts|)
            + (Vertices(m.verts) + (I32Bytes(TriCount(m.groups)) + (AllTris(m.groups) + (I32Bytes(0) + rest))))))
  {
  }

  lemma ReadCount(x: nat, rest: seq<byte>)
    requires x <= Int32Max
    ensures ReadU32(I32Bytes(x) + rest) == Some((x, rest))
  {
    assert I32Bytes(x) == U32Bytes(x);
    U32RoundTrip(x, rest);
  }

  /** Reading a model block WriteGroup wrote gives back its points and its triangles, in maximal runs, and stops at its end. */
  lemma ReadModelOf(st: MdbState, groupName: string, i: nat, m: MdbModel, rest: seq<byte>)
    requires Fits(m)
    ensures ReadModel(st, ModelBlock(m.index, m.verts, m.groups) + rest, groupName, i) == Step(ModelRead(st, groupName, i, m), rest, Ok)
  {
    var V, T := |m.verts|, TriCount(m.groups);
    var L := ModelLength(V, T);
    var s5 := I32Bytes(0) + rest;
    var s4 := AllTris(m.groups) + s5;
    var s3 := I32Bytes(T) + s4;
    var s2 := Vertices(m.verts) + s3;
    var s1 := I32Bytes(m.index) + (I32Bytes(V) + s2);
    ModelBlockThen(m, rest);
    ReadCount(L, s1);
    SkipPrefix(I32Bytes(m.index), I32Bytes(V) + s2);
    ReadCount(V, s2);
    ReadVerticesOf(PointsOf(st), m.verts, s3, i, 0, V);
    ReadCount(T, s4);
    AllTrisPairs(m.groups);
    ReadTrisOf(Pairs(m.groups), s5, i, 0, T, []);
    SkipPrefix(I32Bytes(0), rest);
    ReadModelUnfold(st, ModelBlock(m.index, m.verts, m.groups) + rest, groupName, i, L, s1, V, s2,
                    AddVertices(PointsOf(st), m.verts), s3, T, s4, Merge([], FlipPairs(Pairs(m.groups))), s5);
  }

  /** Reading the model blocks WriteGroup wrote, one after the other, gives back every model. */
  lemma {:induction false} ReadModelsOf(st: MdbState, groupName: string, i: nat, n: nat, ms: seq<MdbModel>, rest: seq<byte>)
    requires forall k :: 0 <= k < |ms| ==> Fits(ms[k])
    requires n == i + |ms|
    ensures ReadModels(st, ModelBlocks(ms) + rest, groupName, i, n) == Step(ModelsRead(st, groupName, i, ms), rest, Ok)
    decreases |ms|
  {
    if |ms| == 0 {
      assert ModelBlocks(ms) + rest == rest;
    } else {
      var x := ModelBlocks(ms[1..]) + rest;
      assert ModelBlocks(ms) + rest == ModelBlock(ms[0].index, ms[0].verts, ms[0].groups) + x;
      ReadModelOf(st, groupName, i, ms[0], x);
      ReadModelsOf(ModelRead(st, groupName, i, ms[0]), groupName, i + 1, n, ms[1..], rest);
    }
  }

  // ================================================================ materials

  /** The characters ReadMdb splits a texture name at: space, ';', ',', '+', CR, tab and LF. */
  predicate IsNameSeparator(c: char)
  {
    c == ' ' || c == ';' || c == ',' || c == '+' || c == '\r' || c == '\t' || c == '\n'
  }

  /** Splitting a name at the separators and joining the pieces with '_' turns each separator into '_'. */
  function ReplaceSeparators(s: string): (r: string)
    ensures |r| == |s|
    ensures forall k :: 0 <= k < |s| ==> r[k] == if IsNameSeparator(s[k]) then '_' else s[k]
  {
    if |s| == 0 then [] else [if IsNameSeparator(s[0]) then '_' else s[0]] + ReplaceSeparators(s[1..])
  }

  /** The material name ReadMdb derives from a texture name. */
  function MatNameOf(tex: string): string
  {
    GetFileNameWithoutExtension(ReplaceSeparators(tex))
  }

  /**
   * A derived material name holds no separator and no directory separator,
   * so a "usemtl" or "newmtl" line written with it reads back as one word.
   */
  lemma MatNameClean(tex: string)
    ensures forall k :: 0 <= k < |MatNameOf(tex)| ==> !IsNameSeparator(MatNameOf(tex)[k]) && !IsDirectorySeparator(MatNameOf(tex)[k])
  {
    var r := ReplaceSeparators(tex);
    var f := GetFileName(r);
    var name := Stem(f);
    forall k | 0 <= k < |name|
      ensures !IsNameSeparator(name[k]) && !IsDirectorySeparator(name[k])
    {
      assert name[k] == f[k] == r[|r| - |f| + k];
    }
  }

  /** The length ReadMdb takes from a texture name's length field: a negative n stands for -n - 1. */
  function StringLength(l: int): (r: nat)
    ensures l >= 0 ==> r == l
  {
    if l < 0 then -l - 1 else l
  }

  /** A material read: always added to the file's list, and to the final list unless a material of that name (ignoring case) is there. */
  function AddMaterial(st: MdbState, mat: Material): MdbState
  {
    st.(currentMat := st.currentMat + [mat],
        finalMat := if HasMaterial(st.finalMat, mat.matName) then st.finalMat else st.finalMat + [mat])
  }

  /**
   * The material loop of ReadMdb for materials i..n-1: the block length is
   * skipped, the texture name is read with its length, the material is
   * named after it and added, and the 72 bytes of material data are skipped.
   */
  function ReadMaterials(st: MdbState, s: seq<byte>, i: nat, n: nat): (r: Step)
    ensures |r.rest| <= |s|
    decreases n - i
  {
    if i >= n then Step(st, s, Ok)
    else
      match ReadI32(Skip(s, 4))
      case None => Step(st, [], Failed(MaterialError(i)))
      case Some((l, s1)) =>
        var (tex, s2) := ReadChars(s1, StringLength(l));
        ReadMaterials(AddMaterial(st, Material(MatNameOf(tex), tex)), Skip(s2, 72), i + 1, n)
  }

  /** The material loop changes only the two material lists, and only appends to them. */
  lemma {:induction false} ReadMaterialsAppends(st: MdbState, s: seq<byte>, i: nat, n: nat)
    ensures var r := ReadMaterials(st, s, i, n);
      && r.st == st.(currentMat := r.st.currentMat, finalMat := r.st.finalMat)
      && st.currentMat <= r.st.currentMat && st.finalMat <= r.st.finalMat
    decreases n - i
  {
    if i < n {
      match ReadI32(Skip(s, 4))
      case None =>
      case Some((l, s1)) =>
        var (tex, s2) := ReadChars(s1, StringLength(l));
        ReadMaterialsAppends(AddMaterial(st, Material(MatNameOf(tex), tex)), Skip(s2, 72), i + 1, n);
    }
  }

  /** Every material of the file's list has a material of its name in the final list. */
  predicate Covered(st: MdbState)
  {
    forall k :: 0 <= k < |st.currentMat| ==> HasMaterial(st.finalMat, st.currentMat[k].matName)
  }

  lemma AddMaterialKeeps(st: MdbState, mat: Material)
    ensures DistinctNames(st.finalMat) ==> DistinctNames(AddMaterial(st, mat).finalMat)
    ensures Covered(st) ==> Covered(AddMaterial(st, mat))
  {
    var r := AddMaterial(st, mat);
    if Covered(st) {
      forall k | 0 <= k < |r.currentMat|
        ensures HasMaterial(r.finalMat, r.currentMat[k].matName)
      {
        if k < |st.currentMat| {
          var w :| 0 <= w < |st.finalMat| && EqualsIgnoreCase(st.finalMat[w].matName, st.currentMat[k].matName);
          assert r.finalMat[w] == st.finalMat[w];
        } else if !HasMaterial(st.finalMat, mat.matName) {
          assert r.finalMat[|st.finalMat|] == mat;
          assert EqualsIgnoreCase(mat.matName, mat.matName);
        }
      }
    }
  }

  /**
   * The final list never holds two materials of the same name (ignoring
   * case), and every material a file uses has its name in it, so each
   * "usemtl" line WriteObj writes names a material WriteMtl writes.
   */
  lemma {:induction false} ReadMaterialsKeeps(st: MdbState, s: seq<byte>, i: nat, n: nat)
    requires DistinctNames(st.finalMat) && Covered(st)
    ensures DistinctNames(ReadMaterials(st, s, i, n).st.finalMat) && Covered(ReadMaterials(st, s, i, n).st)
    decreases n - i
  {
    if i < n {
      match ReadI32(Skip(s, 4))
      case None =>
      case Some((l, s1)) =>
        var (tex, s2) := ReadChars(s1, StringLength(l));
        AddMaterialKeeps(st, Material(MatNameOf(tex), tex));
        ReadMaterialsKeeps(AddMaterial(st, Material(MatNameOf(tex), tex)), Skip(s2, 72), i + 1, n);
    }
  }

  // ---------------------------------------------------------------- reading back what WriteMaterials wrote

  /** What ReadMdb makes of a material WriteMaterials wrote: the texture's file name, and the name derived from it. */
  function MaterialRead(m: Material): Material
  {
    var t := GetFileName(m.texName);
    Material(MatNameOf(t), t)
  }

  /** The materials read back, added one by one. */
  function MaterialsRead(st: MdbState, mats: seq<Material>): MdbState
    decreases |mats|
  {
    if |mats| == 0 then st else MaterialsRead(AddMaterial(st, MaterialRead(mats[0])), mats[1..])
  }

  /** A material whose texture file name is ASCII and short enough for its int length field. */
  predicate Storable(m: Material)
  {
    IsAscii(GetFileName(m.texName)) && |GetFileName(m.texName)| <= Int32Max
  }

  lemma MaterialRecordReads(m: Material, x: seq<byte>)
    requires Storable(m)
    ensures var t := GetFileName(m.texName);
      && ReadI32(Skip(MaterialRecord(m) + x, 4)) == Some((|t|, StringBytes(t) + (MaterialData() + x)))
      && ReadChars(StringBytes(t) + (MaterialData() + x), |t|) == (t, MaterialData() + x)
      && Skip(MaterialData() + x, 72) == x
  {
    var t := GetFileName(m.texName);
    var tail := I32Bytes(|t|) + (StringBytes(t) + (MaterialData() + x));
    assert MaterialRecord(m) + x == I32Bytes(76 + |t|) + tail;
    SkipPrefix(I32Bytes(76 + |t|), tail);
    I32RoundTrip(|t|, StringBytes(t) + (MaterialData() + x));
    CharsRoundTrip(t, MaterialData() + x);
    SkipPrefix(MaterialData(), x);
  }

  lemma ReadMaterialStep(st: MdbState, m: Material, x: seq<byte>, i: nat, n: nat)
    requires Storable(m) && i < n
    ensures ReadMaterials(st, MaterialRecord(m) + x, i, n) == ReadMaterials(AddMaterial(st, MaterialRead(m)), x, i + 1, n)
  {
    MaterialRecordReads(m, x);
  }

  /** The material records WriteMaterials wrote are read back, in order, into both lists. */
  lemma {:induction false} ReadMaterialsOf(st: MdbState, mats: seq<Material>, rest: seq<byte>, i: nat, n: nat)
    requires forall k :: 0 <= k < |mats| ==> Storable(mats[k])
    requires n == i + |mats|
    ensures ReadMaterials(st, MaterialRecords(mats) + rest, i, n) == Step(MaterialsRead(st, mats), rest, Ok)
    decreases |mats|
  {
    if |mats| == 0 {
      assert MaterialRecords(mats) + rest == rest;
    } else {
      var x := MaterialRecords(mats[1..]) + rest;
      Assoc(MaterialRecord(mats[0]), MaterialRecords(mats[1..]), rest);
      ReadMaterialStep(st, mats[0], x, i, n);
      ReadMaterialsOf(AddMaterial(st, MaterialRead(mats[0])), mats[1..], rest, i + 1, n);
    }
  }

  // ================================================================ bones

  /** The bone loop of ReadMdb for bones i..n-1: each block's length is read and the block skipped. */
  function SkipBones(s: seq<byte>, i: nat, n: nat): (r: (seq<byte>, Status))
    ensures |r.0| <= |s|
    decreases n - i
  {
    if i >= n then (s, Ok)
    else
      match ReadU32(s)
      case None => ([], Failed(BoneError(i)))
      case Some((len, s1)) => SkipBones(Skip(s1, len), i + 1, n)
  }

  /** Length-prefixed blocks, as the bone loop expects them. */
  function BoneBlocks(bs: seq<seq<byte>>): seq<byte>
    requires forall k :: 0 <= k < |bs| ==> |bs[k]| < 0x1_0000_0000
  {
    if |bs| == 0 then [] else U32Bytes(|bs[0]|) + (bs[0] + BoneBlocks(bs[1..]))
  }

  /** The bone loop steps over every block, whatever it holds, and stops right after the last. */
  lemma {:induction false} SkipBonesOf(bs: seq<seq<byte>>, rest: seq<byte>, i: nat, n: nat)
    requires forall k :: 0 <= k < |bs| ==> |bs[k]| < 0x1_0000_0000
    requires n == i + |bs|
    ensures SkipBones(BoneBlocks(bs) + rest, i, n) == (rest, Ok)
    decreases |bs|
  {
    if |bs| == 0 {
      assert BoneBlocks(bs) + rest == rest;
    } else {
      var x := BoneBlocks(bs[1..]) + rest;
      assert BoneBlocks(bs) + rest == U32Bytes(|bs[0]|) + (bs[0] + x);
      U32RoundTrip(|bs[0]|, bs[0] + x);
      SkipPrefix(bs[0], x);
      SkipBonesOf(bs[1..], rest, i + 1, n);
    }
  }

  // ================================================================ the whole file

  /** The end of ReadMdb: the bone count and the bones, then 52 bytes of bounding data and the collision box. */
  function ReadBonesAndBox(st: MdbState, s: seq<byte>): (r: Step)
  {
    match ReadU32(s)
    case None => Step(st, [], Failed(BoneCountError))
    case Some((boneCount, s1)) =>
      var bones := SkipBones(s1, 0, boneCount);
      if bones.1.Failed? then Step(st, [], bones.1)
      else
        var box := ReadBoxSpec(st.parentBox, Skip(bones.0, 52), st.boxNumber);
        Step(st.(parentBox := box.box, boxNumber := box.counter), box.rest,
             if box.ok then Ok else Failed(BoxError))
  }

  /** The middle of ReadMdb: the material count and the materials, then the rest. */
  function ReadMaterialsAndRest(st: MdbState, s: seq<byte>): (r: Step)
  {
    match ReadU32(s)
    case None => Step(st, [], Failed(TexCountError))
    case Some((matCount, s1)) =>
      var mats := ReadMaterials(st, s1, 0, matCount);
      if mats.outcome.Failed? then mats else ReadBonesAndBox(mats.st, mats.rest)
  }

  /**
   * ReadMdb: the model count after the 12-byte header, the models, the
   * materials, the bones and the collision box, read into the parent box
   * with the box counter. Each failure carries the error of the read that
   * ran past the end; what was read before it stays in the state.
   */
  function ReadMdbSpec(st: MdbState, file: seq<byte>, groupName: string): (r: Step)
  {
    match ReadU32(Skip(file, 12))
    case None => Step(st, [], Failed(ModelCountError))
    case Some((modelCount, s1)) =>
      var models := ReadModels(st, s1, groupName, 0, modelCount);
      if models.outcome.Failed? then models else ReadMaterialsAndRest(models.st, models.rest)
  }

  /** ReadBonesAndBox with no bones, with the results of its parts given. */
  lemma BonesAndBoxUnfold(st: MdbState, s: seq<byte>, s1: seq<byte>, box: BoxStep)
    requires ReadU32(s) == Some((0, s1))
    requires ReadBoxSpec(st.parentBox, Skip(s1, 52), st.boxNumber) == box
    ensures ReadBonesAndBox(st, s)
         == Step(st.(parentBox := box.box, boxNumber := box.counter), box.rest, if box.ok then Ok else Failed(BoxError))
  {
  }

  /** ReadMdb once its models are read, with the results of that read given. */
  lemma ReadMdbUnfold(st: MdbState, file: seq<byte>, groupName: string, n: u32, s1: seq<byte>, st1: MdbState, s2: seq<byte>)
    requires ReadU32(Skip(file, 12)) == Some((n, s1))
    requires ReadModels(st, s1, groupName, 0, n) == Step(st1, s2, Ok)
    ensures ReadMdbSpec(st, file, groupName) == ReadMaterialsAndRest(st1, s2)
  {
  }

  /** ReadMaterialsAndRest once its materials are read, with the results of that read given. */
  lemma MaterialsAndRestUnfold(st: MdbState, s: seq<byte>, n: u32, s1: seq<byte>, st1: MdbState, s2: seq<byte>)
    requires ReadU32(s) == Some((n, s1))
    requires ReadMaterials(st, s1, 0, n) == Step(st1, s2, Ok)
    ensures ReadMaterialsAndRest(st, s) == ReadBonesAndBox(st1, s2)
  {
  }

  /** The bone count 0, the bounding data and a collision box record are read into the box tree. */
  lemma ReadBonesAndBoxOf(st: MdbState, bounding: seq<byte>, blockLength: int, b: Box, t: nat, rest: seq<byte>)
    requires |bounding| == 40 && t * 8 < 0x1_0000_0000
    ensures ReadBonesAndBox(st, I32Bytes(0) + (bounding + (I32Bytes(blockLength) + (I32Bytes(1) + (BoxRecord(b, t) + rest)))))
         == Step(BoxRead(st, b), rest, Ok)
  {
    var boxPart := bounding + (I32Bytes(blockLength) + (I32Bytes(1) + (BoxRecord(b, t) + rest)));
    BoxPartReads(bounding, blockLength, b, t, rest);
    ReadBoxOf(st.parentBox, b, t, rest, st.boxNumber);
    BonesAndBoxUnfold(st, I32Bytes(0) + boxPart, boxPart, ReadBoxSpec(st.parentBox, BoxBody(b, t) + rest, st.boxNumber));
  }

  /** The material records WriteMaterials wrote, followed by what ReadBonesAndBox reads. */
  lemma ReadMaterialsAndRestOf(st: MdbState, mats: seq<Material>, tail: seq<byte>)
    requires forall k :: 0 <= k < |mats| ==> Storable(mats[k])
    requires |mats| <= Int32Max
    ensures ReadMaterialsAndRest(st, I32Bytes(|mats|) + (MaterialRecords(mats) + tail))
         == ReadBonesAndBox(MaterialsRead(st, mats), tail)
  {
    ReadCount(|mats|, MaterialRecords(mats) + tail);
    ReadMaterialsOf(st, mats, tail, 0, |mats|);
    MaterialsAndRestUnfold(st, I32Bytes(|mats|) + (MaterialRecords(mats) + tail), |mats|, MaterialRecords(mats) + tail,
                           MaterialsRead(st, mats), tail);
  }

  /** The state after reading back a whole file: the models, then the materials, then the collision box tree. */
  function FileRead(st: MdbState, groupName: string, ms: seq<MdbModel>, mats: seq<Material>, b: Box): MdbState
    requires forall k :: 0 <= k < |ms| ==> Fits(ms[k])
  {
    BoxRead(MaterialsRead(ModelsRead(st, groupName, 0, ms), mats), b)
  }

  /** The state after reading back a collision box tree into the parent box, numbering its boxes from the counter. */
  function BoxRead(st: MdbState, b: Box): MdbState
  {
    st.(parentBox := ReadBack(st.parentBox, b, st.boxNumber), boxNumber := st.boxNumber + BoxCount(b))
  }

  /** The model count is read right after the 12 header bytes that come before it. */
  lemma FileHeadReads(endPos: nat, ms: seq<MdbModel>, mats: seq<Material>, tail: seq<byte>)
    requires |ms| <= Int32Max
    ensures ReadU32(Skip(Header(endPos, |ms|) + (ModelBlocks(ms) + (MaterialsBlock(mats) + tail)), 12))
         == Some((|ms|, ModelBlocks(ms) + (I32Bytes(|mats|) + (MaterialRecords(mats) + (I32Bytes(0) + tail)))))
  {
    var count, recs, zero := I32Bytes(|mats|), MaterialRecords(mats), I32Bytes(0);
    Assoc(count, recs + zero, tail);
    Assoc(recs, zero, tail);
    var s1 := ModelBlocks(ms) + (count + (recs + (zero + tail)));
    var pre := I64Bytes(endPos + 1) + I32Bytes(endPos - 11);
    var m := I32Bytes(|ms|);
    Assoc(pre, m, s1);
    SkipPrefix(pre, m + s1);
    ReadCount(|ms|, s1);
  }

  /** After the zero bone count, 52 bytes lead to the box body. */
  lemma BoxPartReads(bounding: seq<byte>, blockLength: int, b: Box, t: nat, rest: seq<byte>)
    requires |bounding| == 40
    ensures var boxPart := bounding + (I32Bytes(blockLength) + (I32Bytes(1) + (BoxRecord(b, t) + rest)));
      && ReadU32(I32Bytes(0) + boxPart) == Some((0, boxPart))
      && Skip(boxPart, 52) == BoxBody(b, t) + rest
  {
    var l, one := I32Bytes(blockLength), I32Bytes(1);
    var body := BoxBody(b, t);
    var bl := I32Bytes(4 + |body|);
    var boxPart := bounding + (l + (one + (BoxRecord(b, t) + rest)));
    ReadCount(0, boxPart);
    Assoc(bl, body, rest);
    Assoc(one, bl, body + rest);
    Assoc(l, one + bl, body + rest);
    Assoc(bounding, l + (one + bl), body + rest);
    SkipPrefix(bounding + (l + (one + bl)), body + rest);
  }

  /**
   * Reading a file laid out as the OBJ-to-MDB converter writes it (header,
   * model blocks, materials with no bones, 40 bytes of bounding values, the
   * block length and 1, then the collision box record) gives back every
   * model's points and triangles, every material, and the box tree, and
   * stops right after the box.
   */
  lemma ReadMdbOf(st: MdbState, groupName: string, endPos: nat, ms: seq<MdbModel>, mats: seq<Material>,
                  bounding: seq<byte>, blockLength: int, b: Box, t: nat, rest: seq<byte>)
    requires forall k :: 0 <= k < |ms| ==> Fits(ms[k])
    requires forall k :: 0 <= k < |mats| ==> Storable(mats[k])
    requires |ms| <= Int32Max && |mats| <= Int32Max
    requires |bounding| == 40 && t * 8 < 0x1_0000_0000
    ensures ReadMdbSpec(st, Header(endPos, |ms|) + (ModelBlocks(ms) + (MaterialsBlock(mats)
              + (bounding + (I32Bytes(blockLength) + (I32Bytes(1) + (BoxRecord(b, t) + rest)))))), groupName)
         == Step(FileRead(st, groupName, ms, mats, b), rest, Ok)
  {
    var boxPart := bounding + (I32Bytes(blockLength) + (I32Bytes(1) + (BoxRecord(b, t) + rest)));
    var tail := I32Bytes(0) + boxPart;
    var s2 := I32Bytes(|mats|) + (MaterialRecords(mats) + tail);
    FileHeadReads(endPos, ms, mats, boxPart);
    ReadModelsOf(st, groupName, 0, |ms|, ms, s2);
    var st1 := ModelsRead(st, groupName, 0, ms);
    var file := Header(endPos, |ms|) + (ModelBlocks(ms) + (MaterialsBlock(mats) + boxPart));
    ReadMdbUnfold(st, file, groupName, |ms|, ModelBlocks(ms) + s2, st1, s2);
    ReadMaterialsAndRestOf(st1, mats, tail);
    ReadBonesAndBoxOf(MaterialsRead(st1, mats), bounding, blockLength, b, t, rest);
    assert FileRead(st, groupName, ms, mats, b) == BoxRead(MaterialsRead(st1, mats), b);
  }
}
