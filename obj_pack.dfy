// What ObjTool.FindMatIndex, ProcessGroup and GetPointsFromCBoxGroup compute:
// the material lookup, the packing of OBJ corners into a model's vertex list
// and the vertex numbers a collision box is fitted to.
module ObjPack {
  import opened Wrappers
  import opened Machine
  import opened Records
  import opened ObjRead
  import Text

  // ================================================================ FindMatIndex

  /** The first of the first `n` materials named exactly `name`. */
  function FirstNamed(mats: seq<Material>, n: nat, name: string): (r: Option<nat>)
    requires n <= |mats|
    ensures r.Some? ==> r.value < n && mats[r.value].matName == name
    ensures r.Some? ==> forall k :: 0 <= k < r.value ==> mats[k].matName != name
    ensures r.None? ==> forall k :: 0 <= k < n ==> mats[k].matName != name
  {
    if n == 0 then None
    else match FirstNamed(mats, n - 1, name)
      case Some(i) => Some(i)
      case None => if mats[n - 1].matName == name then Some(n - 1) else None
  }

  /** The first of the first `n` materials without a texture ("NULL"). */
  function FirstNull(mats: seq<Material>, n: nat): (r: Option<nat>)
    requires n <= |mats|
    ensures r.Some? ==> r.value < n && mats[r.value].texName == "NULL"
    ensures r.Some? ==> forall k :: 0 <= k < r.value ==> mats[k].texName != "NULL"
    ensures r.None? ==> forall k :: 0 <= k < n ==> mats[k].texName != "NULL"
  {
    if n == 0 then None
    else match FirstNull(mats, n - 1)
      case Some(i) => Some(i)
      case None => if mats[n - 1].texName == "NULL" then Some(n - 1) else None
  }

  const NullMaterial := Material("", "NULL")

  /**
   * FindMatIndex: the material index for a face group, and the material
   * list afterwards. Only the first `(ushort)Count` materials are looked at.
   */
  function FindMat(mats: seq<Material>, name: string): (r: (u16, seq<Material>))
  {
    var count := AsUInt16(|mats|);
    match FirstNamed(mats, count, name)
    case Some(i) => (i, mats)
    case None =>
      match FirstNull(mats, count)
      case Some(j) => (j, mats)
      case None => if |mats| <= 65535 then (|mats|, mats + [NullMaterial]) else (0, mats)
  }

  /**
   * Below 65536 materials, FindMatIndex answers the first exact name match;
   * failing that the first material without texture; failing that a new
   * textureless material appended at the end.
   */
  lemma FindMatChoice(mats: seq<Material>, name: string)
    requires |mats| < 65536
    ensures var (i, r) := FindMat(mats, name);
      i < |r| &&
      if exists k :: 0 <= k < |mats| && mats[k].matName == name then
        r == mats && mats[i].matName == name && (forall k :: 0 <= k < i ==> mats[k].matName != name)
      else if exists k :: 0 <= k < |mats| && mats[k].texName == "NULL" then
        r == mats && mats[i].texName == "NULL" && (forall k :: 0 <= k < i ==> mats[k].texName != "NULL")
      else
        r == mats + [NullMaterial] && i == |mats|
  {
  }

  /** Looking the same name up again adds nothing and gives the same index. */
  lemma FindMatRepeat(mats: seq<Material>, name: string)
    requires |mats| < 65535
    ensures var (i, r) := FindMat(mats, name); FindMat(r, name) == (i, r)
  {
    var (i, r) := FindMat(mats, name);
    if r != mats {
      assert FirstNamed(r, |mats|, name) == None;
      assert FirstNull(r, |mats|) == None;
      assert FirstNull(r, |r|) == Some(|mats|);
    }
  }

  /** With exactly 65536 materials the count wraps to 0: the lookup sees nothing and answers 0. */
  lemma FindMatWrapped(mats: seq<Material>, name: string)
    requires |mats| == 65536
    ensures FindMat(mats, name) == (0, mats)
  {
  }

  // ================================================================ ProcessGroup

  /** The scan's findings for the three corners: the index recorded for each, if any. */
  datatype Found = Found(i0: Option<nat>, i1: Option<nat>, i2: Option<nat>)

  predicate AllFound(f: Found) { f.i0.Some? && f.i1.Some? && f.i2.Some? }

  const NoneFound := Found(None, None, None)

  /**
   * The scan of `points` from position k: a match records its position
   * (a later match overwrites it) and the scan stops as soon as all three
   * corners have been seen, testing P0, P1, P2 in that order.
   */
  function ScanFrom(points: seq<Corner>, k: nat, tri: ObjTriangle, f: Found): (r: Found)
    decreases |points| - k
  {
    if k >= |points| then f
    else
      var p := points[k];
      var f0 := if tri.p0 == p then f.(i0 := Some(k)) else f;
      if tri.p0 == p && AllFound(f0) then f0
      else
        var f1 := if tri.p1 == p then f0.(i1 := Some(k)) else f0;
        if tri.p1 == p && AllFound(f1) then f1
        else
          var f2 := if tri.p2 == p then f1.(i2 := Some(k)) else f1;
          if tri.p2 == p && AllFound(f2) then f2
          else ScanFrom(points, k + 1, tri, f2)
  }

  /** A recorded index points at an equal entry. */
  predicate Points(points: seq<Corner>, i: Option<nat>, c: Corner)
  {
    i.Some? ==> i.value < |points| && points[i.value] == c
  }

  /** What the scan has established after looking at points[..k]. */
  predicate ScanInv(points: seq<Corner>, k: nat, tri: ObjTriangle, f: Found)
  {
    k <= |points|
    && Points(points, f.i0, tri.p0) && Points(points, f.i1, tri.p1) && Points(points, f.i2, tri.p2)
    && (f.i0.Some? <==> tri.p0 in points[..k])
    && (f.i1.Some? <==> tri.p1 in points[..k])
    && (f.i2.Some? <==> tri.p2 in points[..k])
  }

  lemma {:induction false} ScanFromCorrect(points: seq<Corner>, k: nat, tri: ObjTriangle, f: Found)
    requires ScanInv(points, k, tri, f)
    ensures var r := ScanFrom(points, k, tri, f);
      Points(points, r.i0, tri.p0) && Points(points, r.i1, tri.p1) && Points(points, r.i2, tri.p2)
      && (r.i0.Some? <==> tri.p0 in points) && (r.i1.Some? <==> tri.p1 in points)
      && (r.i2.Some? <==> tri.p2 in points)
    decreases |points| - k
  {
    if k >= |points| {
      assert points[..k] == points;
    } else {
      var p := points[k];
      assert points[..k + 1] == points[..k] + [p];
      var f0 := if tri.p0 == p then f.(i0 := Some(k)) else f;
      var f1 := if tri.p1 == p then f0.(i1 := Some(k)) else f0;
      var f2 := if tri.p2 == p then f1.(i2 := Some(k)) else f1;
      if !(tri.p0 == p && AllFound(f0)) && !(tri.p1 == p && AllFound(f1)) && !(tri.p2 == p && AllFound(f2)) {
        ScanFromCorrect(points, k + 1, tri, f2);
      }
    }
  }

  /** The full scan of `points` for the corners of `tri`. */
  function Scan(points: seq<Corner>, tri: ObjTriangle): (r: Found)
    ensures Points(points, r.i0, tri.p0) && Points(points, r.i1, tri.p1) && Points(points, r.i2, tri.p2)
    ensures (r.i0.Some? <==> tri.p0 in points) && (r.i1.Some? <==> tri.p1 in points)
    ensures (r.i2.Some? <==> tri.p2 in points)
  {
    ScanFromCorrect(points, 0, tri, NoneFound);
    ScanFrom(points, 0, tri, NoneFound)
  }

  const VertexOverflow := "Model vertex count exceeded 65536.\n"

  /** The corners of `tri` missing from `points`, in the order they are appended: P2, P1, P0. */
  function Missing(points: seq<Corner>, tri: ObjTriangle): seq<Corner>
  {
    (if tri.p2 in points then [] else [tri.p2])
    + (if tri.p1 in points then [] else [tri.p1])
    + (if tri.p0 in points then [] else [tri.p0])
  }

  /** Reuses the index the scan found, or appends the corner; None where the source throws. */
  function Place(points: seq<Corner>, found: Option<nat>, c: Corner): (r: Option<(seq<Corner>, u16)>)
    requires |points| <= 65536 && Points(points, found, c)
    ensures r.Some? ==> |r.value.0| <= 65536 && points <= r.value.0
    ensures r.Some? ==> r.value.1 < |r.value.0| && r.value.0[r.value.1] == c
    ensures r.None? <==> found.None? && |points| > 65535
    ensures r.Some? ==> r.value.0 == points + (if found.Some? then [] else [c])
  {
    match found
    case Some(i) => Some((points, i))
    case None => if |points| > 65535 then None else Some((points + [c], |points|))
  }

  /** One face: its three indices (p0Index, p1Index, p2Index) and the vertex list afterwards. */
  function PackTriangle(points: seq<Corner>, tri: ObjTriangle): (r: Option<(seq<Corner>, MdbTriangle)>)
    requires |points| <= 65536
  {
    var f := Scan(points, tri);
    match Place(points, f.i2, tri.p2)
    case None => None
    case Some((pts2, i2)) =>
      match Place(pts2, if f.i1.Some? then f.i1 else None, tri.p1)
      case None => None
      case Some((pts1, i1)) =>
        match Place(pts1, if f.i0.Some? then f.i0 else None, tri.p0)
        case None => None
        case Some((pts0, i0)) => Some((pts0, MdbTriangle(i0, i1, i2)))
  }

  /** The corners a stored face refers to. */
  function Unpack(points: seq<Corner>, t: MdbTriangle): ObjTriangle
    requires t.p0 < |points| && t.p1 < |points| && t.p2 < |points|
  {
    ObjTriangle(points[t.p0], points[t.p1], points[t.p2])
  }

  predicate Valid(points: seq<Corner>, t: MdbTriangle)
  {
    t.p0 < |points| && t.p1 < |points| && t.p2 < |points|
  }

  /**
   * Packing a face reuses every corner already in the list, appends the
   * missing ones in the order P2, P1, P0, and stores indices that lead back
   * to the face's own corners. It throws exactly when the list would pass
   * 65536 entries.
   */
  lemma PackTriangleCorrect(points: seq<Corner>, tri: ObjTriangle)
    requires |points| <= 65536
    ensures var r := PackTriangle(points, tri);
      (r.None? <==> |points| + |Missing(points, tri)| > 65536)
      && (r.Some? ==> r.value.0 == points + Missing(points, tri) && Valid(r.value.0, r.value.1)
                      && Unpack(r.value.0, r.value.1) == tri)
  {
    var f := Scan(points, tri);
    if f.i2.None? && |points| > 65535 {
    } else {
      var pts2 := points + (if f.i2.Some? then [] else [tri.p2]);
      if f.i1.None? && |pts2| > 65535 {
      } else {
        var pts1 := pts2 + (if f.i1.Some? then [] else [tri.p1]);
        if f.i0.None? && |pts1| > 65535 {
        } else {
          assert points + Missing(points, tri) == pts1 + (if f.i0.Some? then [] else [tri.p0]);
        }
      }
    }
  }

  /** The faces of one material sub-group, appended to `acc`; None where the source throws. */
  function PackTris(points: seq<Corner>, tris: seq<ObjTriangle>, acc: seq<MdbTriangle>): (r: Option<(seq<Corner>, seq<MdbTriangle>)>)
    requires |points| <= 65536
    ensures r.Some? ==> |r.value.0| <= 65536
    decreases |tris|
  {
    if |tris| == 0 then Some((points, acc))
    else
      PackTriangleCorrect(points, tris[0]);
      match PackTriangle(points, tris[0])
      case None => None
      case Some((pts, t)) => PackTris(pts, tris[1..], acc + [t])
  }

  /** A face group of the MDB model: a material index and its faces. */
  datatype TriGroup = TriGroup(matIndex: u16, tris: seq<MdbTriangle>)

  /** ProcessGroup's state: the material list, the vertex list and the face groups. */
  datatype PackState = PackState(mats: seq<Material>, points: seq<Corner>, groups: seq<TriGroup>)

  /** The material sub-groups of one OBJ group, in order; Fail where the source throws. */
  function PackGroups(st: PackState, matGroups: seq<MatGroup>): (r: (PackState, Outcome))
    requires |st.points| <= 65536
    ensures r.1.Pass? ==> |r.0.points| <= 65536
    decreases |matGroups|
  {
    if |matGroups| == 0 then (st, Pass)
    else
      var (matIndex, mats) := FindMat(st.mats, matGroups[0].matName);
      match PackTris(st.points, matGroups[0].tris, [])
      case None => (st.(mats := mats), Fail(VertexOverflow))
      case Some((points, tris)) =>
        var groups := if |tris| > 0 then st.groups + [TriGroup(matIndex, tris)] else st.groups;
        PackGroups(PackState(mats, points, groups), matGroups[1..])
  }

  // ---------------------------------------------------------------- what ProcessGroup promises

  /** Every stored face leads back, through the vertex list, to the faces in `tris`. */
  predicate Decodes(points: seq<Corner>, stored: seq<MdbTriangle>, tris: seq<ObjTriangle>)
  {
    |stored| == |tris|
    && forall j :: 0 <= j < |stored| ==> Valid(points, stored[j]) && Unpack(points, stored[j]) == tris[j]
  }

  lemma DecodesExtend(points: seq<Corner>, more: seq<Corner>, stored: seq<MdbTriangle>, tris: seq<ObjTriangle>)
    requires Decodes(points, stored, tris)
    ensures Decodes(points + more, stored, tris)
  {
    forall j | 0 <= j < |stored|
      ensures Valid(points + more, stored[j]) && Unpack(points + more, stored[j]) == tris[j]
    {
      assert Unpack(points, stored[j]) == tris[j];
    }
  }

  lemma {:induction false} PackTrisDecodes(points: seq<Corner>, tris: seq<ObjTriangle>, acc: seq<MdbTriangle>, done: seq<ObjTriangle>)
    requires |points| <= 65536 && Decodes(points, acc, done)
    ensures var r := PackTris(points, tris, acc);
      r.Some? ==> points <= r.value.0 && Decodes(r.value.0, r.value.1, done + tris)
    decreases |tris|
  {
    if |tris| == 0 {
      assert done + tris == done;
    } else {
      PackTriangleCorrect(points, tris[0]);
      var r := PackTriangle(points, tris[0]);
      if r.Some? {
        var pts, t := r.value.0, r.value.1;
        DecodesSnoc(points, Missing(points, tris[0]), acc, done, t, tris[0]);
        PackTrisDecodes(pts, tris[1..], acc + [t], done + [tris[0]]);
        assert PackTris(points, tris, acc) == PackTris(pts, tris[1..], acc + [t]);
        assert done + [tris[0]] + tris[1..] == done + tris;
      } else {
        assert PackTris(points, tris, acc) == None;
      }
    }
  }

  /** One more face packed after the ones already decoded. */
  lemma DecodesSnoc(points: seq<Corner>, more: seq<Corner>, acc: seq<MdbTriangle>, done: seq<ObjTriangle>,
                    t: MdbTriangle, tri: ObjTriangle)
    requires Decodes(points, acc, done)
    requires Valid(points + more, t) && Unpack(points + more, t) == tri
    ensures Decodes(points + more, acc + [t], done + [tri])
  {
    DecodesExtend(points, more, acc, done);
  }

  /** The sub-groups that have faces, each with the material index it gets. */
  function NonEmpty(matGroups: seq<MatGroup>): seq<MatGroup>
  {
    if |matGroups| == 0 then []
    else (if |matGroups[0].tris| > 0 then [matGroups[0]] else []) + NonEmpty(matGroups[1..])
  }

  /** Every face group decodes to the faces of the matching non-empty sub-group. */
  predicate GroupsDecode(points: seq<Corner>, groups: seq<TriGroup>, matGroups: seq<MatGroup>)
  {
    |groups| == |matGroups|
    && forall g :: 0 <= g < |groups| ==> |groups[g].tris| > 0 && Decodes(points, groups[g].tris, matGroups[g].tris)
  }

  lemma GroupsDecodeExtend(points: seq<Corner>, more: seq<Corner>, groups: seq<TriGroup>, matGroups: seq<MatGroup>)
    requires GroupsDecode(points, groups, matGroups)
    ensures GroupsDecode(points + more, groups, matGroups)
  {
    forall g | 0 <= g < |groups|
      ensures Decodes(points + more, groups[g].tris, matGroups[g].tris)
    {
      DecodesExtend(points, more, groups[g].tris, matGroups[g].tris);
    }
  }

  /** NonEmpty takes the first sub-group, then the rest. */
  lemma NonEmptyCons(matGroups: seq<MatGroup>)
    requires |matGroups| > 0
    ensures NonEmpty(matGroups) == (if |matGroups[0].tris| > 0 then [matGroups[0]] else []) + NonEmpty(matGroups[1..])
  {
  }

  /** One sub-group packed onto face groups that already decode. */
  lemma GroupStep(st: PackState, mg: MatGroup, matIndex: u16, points: seq<Corner>, tris: seq<MdbTriangle>, done: seq<MatGroup>)
    requires GroupsDecode(st.points, st.groups, done)
    requires st.points <= points && Decodes(points, tris, mg.tris)
    ensures var groups := if |tris| > 0 then st.groups + [TriGroup(matIndex, tris)] else st.groups;
      GroupsDecode(points, groups, done + (if |mg.tris| > 0 then [mg] else []))
  {
    var more := points[|st.points|..];
    assert points == st.points + more;
    GroupsDecodeExtend(st.points, more, st.groups, done);
  }

  /**
   * When ProcessGroup completes, it has emitted one face group per
   * non-empty material sub-group, in order, and each face group's indices
   * lead back to that sub-group's faces in their order; the vertex list
   * only grew and stays within 65536 entries.
   */
  lemma {:induction false} PackGroupsDecode(st: PackState, matGroups: seq<MatGroup>, done: seq<MatGroup>)
    requires |st.points| <= 65536 && GroupsDecode(st.points, st.groups, done)
    ensures var (r, o) := PackGroups(st, matGroups);
      o.Pass? ==> st.points <= r.points && GroupsDecode(r.points, r.groups, done + NonEmpty(matGroups))
    decreases |matGroups|
  {
    if |matGroups| == 0 {
      assert done + NonEmpty(matGroups) == done;
    } else {
      var mg := matGroups[0];
      var (matIndex, mats) := FindMat(st.mats, mg.matName);
      PackTrisDecodes(st.points, mg.tris, [], []);
      assert [] + mg.tris == mg.tris;
      var packed := PackTris(st.points, mg.tris, []);
      if packed.Some? {
        var (points, tris) := packed.value;
        GroupStep(st, mg, matIndex, points, tris, done);
        var groups := if |tris| > 0 then st.groups + [TriGroup(matIndex, tris)] else st.groups;
        var done1 := done + (if |mg.tris| > 0 then [mg] else []);
        PackGroupsDecode(PackState(mats, points, groups), matGroups[1..], done1);
        NonEmptyCons(matGroups);
        Text.Assoc(done, if |mg.tris| > 0 then [mg] else [], NonEmpty(matGroups[1..]));
      }
    }
  }

  /**
   * The material index of each face group ProcessGroup emits: FindMatIndex's
   * answer for each sub-group that has faces, the material list growing
   * through every sub-group, empty ones included.
   */
  function MatKeys(mats: seq<Material>, matGroups: seq<MatGroup>): seq<u16>
    decreases |matGroups|
  {
    if |matGroups| == 0 then []
    else
      var (i, mats1) := FindMat(mats, matGroups[0].matName);
      (if |matGroups[0].tris| > 0 then [i] else []) + MatKeys(mats1, matGroups[1..])
  }

  /** The material indices of some face groups, in order. */
  function Keys(groups: seq<TriGroup>): (r: seq<u16>)
    ensures |r| == |groups|
  {
    if |groups| == 0 then [] else [groups[0].matIndex] + Keys(groups[1..])
  }

  lemma {:induction false} KeysSnoc(groups: seq<TriGroup>, g: TriGroup)
    ensures Keys(groups + [g]) == Keys(groups) + [g.matIndex]
    decreases |groups|
  {
    if |groups| > 0 {
      assert (groups + [g])[1..] == groups[1..] + [g];
      KeysSnoc(groups[1..], g);
    }
  }

  /** Packing keeps one stored face per face. */
  lemma {:induction false} PackTrisLength(points: seq<Corner>, tris: seq<ObjTriangle>, acc: seq<MdbTriangle>)
    requires |points| <= 65536
    ensures var r := PackTris(points, tris, acc); r.Some? ==> |r.value.1| == |acc| + |tris|
    decreases |tris|
  {
    if |tris| > 0 {
      PackTriangleCorrect(points, tris[0]);
      var r := PackTriangle(points, tris[0]);
      if r.Some? {
        PackTrisLength(r.value.0, tris[1..], acc + [r.value.1]);
      }
    }
  }

  /**
   * When ProcessGroup completes, the face groups it emitted carry, in order,
   * the material index FindMatIndex gave their sub-group's material name.
   */
  lemma {:induction false} PackGroupsKeyed(st: PackState, matGroups: seq<MatGroup>)
    requires |st.points| <= 65536
    ensures var (r, o) := PackGroups(st, matGroups);
      o.Pass? ==> Keys(r.groups) == Keys(st.groups) + MatKeys(st.mats, matGroups)
    decreases |matGroups|
  {
    if |matGroups| > 0 {
      var mg := matGroups[0];
      var (matIndex, mats) := FindMat(st.mats, mg.matName);
      var packed := PackTris(st.points, mg.tris, []);
      PackTrisLength(st.points, mg.tris, []);
      if packed.Some? {
        var (points, tris) := packed.value;
        var groups := if |tris| > 0 then st.groups + [TriGroup(matIndex, tris)] else st.groups;
        if |tris| > 0 {
          KeysSnoc(st.groups, TriGroup(matIndex, tris));
        }
        assert PackGroups(st, matGroups) == PackGroups(PackState(mats, points, groups), matGroups[1..]);
        assert MatKeys(st.mats, matGroups) == (if |mg.tris| > 0 then [matIndex] else []) + MatKeys(mats, matGroups[1..]);
        PackGroupsKeyed(PackState(mats, points, groups), matGroups[1..]);
        Text.Assoc(Keys(st.groups), if |mg.tris| > 0 then [matIndex] else [], MatKeys(mats, matGroups[1..]));
      }
    }
  }

  // ================================================================ GetPointsFromCBoxGroup

  /**
   * One face: each corner's vertex number is appended unless it was already
   * in the list before this face, in the order P0, P1, P2.
   */
  function AddFacePoints(points: seq<int>, tri: ObjTriangle): seq<int>
  {
    points
    + (if tri.p0[0] in points then [] else [tri.p0[0]])
    + (if tri.p1[0] in points then [] else [tri.p1[0]])
    + (if tri.p2[0] in points then [] else [tri.p2[0]])
  }

  /** The vertex numbers of the faces, from `points` on. */
  function FacePoints(points: seq<int>, tris: seq<ObjTriangle>): seq<int>
    decreases |tris|
  {
    if |tris| == 0 then points else FacePoints(AddFacePoints(points, tris[0]), tris[1..])
  }

  /** The faces of the sub-groups, in order. */
  function Faces(matGroups: seq<MatGroup>): seq<ObjTriangle>
  {
    if |matGroups| == 0 then [] else matGroups[0].tris + Faces(matGroups[1..])
  }

  /** The faces of a single sub-group are its own. */
  lemma FacesOne(name: string, tris: seq<ObjTriangle>)
    ensures Faces([MatGroup(name, tris)]) == tris
  {
    assert [MatGroup(name, tris)][1..] == [];
  }

  /** GetPointsFromCBoxGroup. */
  function CboxPoints(matGroups: seq<MatGroup>): seq<int>
  {
    FacePoints([], Faces(matGroups))
  }

  /** The vertex numbers the faces refer to. */
  function FaceVertices(tris: seq<ObjTriangle>): set<int>
    decreases |tris|
  {
    if |tris| == 0 then {} else {tris[0].p0[0], tris[0].p1[0], tris[0].p2[0]} + FaceVertices(tris[1..])
  }

  /** Adding one face's points adds exactly its three vertex numbers. */
  lemma AddFacePointsCover(points: seq<int>, t: ObjTriangle)
    ensures (set x | x in AddFacePoints(points, t)) == (set x | x in points) + {t.p0[0], t.p1[0], t.p2[0]}
  {
  }

  lemma {:induction false} FacePointsCover(points: seq<int>, tris: seq<ObjTriangle>)
    ensures (set x | x in FacePoints(points, tris)) == (set x | x in points) + FaceVertices(tris)
    decreases |tris|
  {
    if |tris| > 0 {
      FacePointsCover(AddFacePoints(points, tris[0]), tris[1..]);
      AddFacePointsCover(points, tris[0]);
    }
  }

  /** The box's point list holds exactly the vertex numbers of its faces. */
  lemma CboxPointsCover(matGroups: seq<MatGroup>)
    ensures (set x | x in CboxPoints(matGroups)) == FaceVertices(Faces(matGroups))
  {
    FacePointsCover([], Faces(matGroups));
  }

  /** A face whose first two corners share a new vertex number lists that number twice. */
  lemma DegenerateFaceDuplicates(tri: ObjTriangle)
    requires tri.p0[0] == tri.p1[0]
    ensures AddFacePoints([], tri)[..2] == [tri.p0[0], tri.p0[0]]
  {
  }
}
