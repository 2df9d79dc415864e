// What ObjTool's writers put in an MDB file, in terms of the OBJ data they
// read: each packed point becomes an MDB vertex (position and texture
// coordinate in MDB axes, the normal as two angles), the first model's
// points give the bounding values, and the hit box repeats the first
// model's faces as coordinates.
module ObjWrite {
  import opened Machine
  import opened Float32
  import opened Binary
  import opened Records
  import opened ObjRead
  import opened ObjPack
  import opened ObjBoxes
  import opened MdbLayout

  /** The message of the exception List<T>'s indexer throws for a position out of range. */
  const IndexOutOfRange := "Index was out of range. Must be non-negative and less than the size of the collection."

  // ================================================================ vertices

  /**
   * Math.Acos and Math.Asin, each followed by the cast to float. The
   * toolkit only calls them; what they compute is not modelled.
   */
  datatype Trig = Trig(acos: F32 -> F32, asin: F32 -> F32)

  const MinusOne: F32 := Neg(One)

  /** The normal's Z clamped to [-1, 1] before Math.Acos (a NaN is kept). */
  function ClampZ(z: F32): (r: F32)
    ensures !IsNaN(z) ==> !Less(r, MinusOne) && !Less(One, r)
  {
    if Less(z, MinusOne) then MinusOne else if Less(One, z) then One else z
  }

  /** `x <= 0` on floats: false for a NaN. */
  predicate AtMostZero(x: F32)
  {
    Less(x, Zero) || Equal(x, Zero)
  }

  /** The two angles stored for a normal: +-Acos(-Z) (minus when X > 0) and Asin(Y). */
  function NormalAngles(n: Vec3, trig: Trig): Vec2
  {
    var theta := trig.acos(Neg(ClampZ(n.z)));
    Vec2(if AtMostZero(n.x) then theta else Neg(theta), trig.asin(n.y))
  }

  /** v[p[0] - 1], vt[p[1] - 1] and vn[p[2] - 1] all exist. */
  predicate Resolves(v: seq<Vec3>, vt: seq<Vec2>, vn: seq<Vec3>, p: Corner)
  {
    1 <= p[0] <= |v| && 1 <= p[1] <= |vt| && 1 <= p[2] <= |vn|
  }

  predicate AllResolve(v: seq<Vec3>, vt: seq<Vec2>, vn: seq<Vec3>, points: seq<Corner>)
  {
    forall k :: 0 <= k < |points| ==> Resolves(v, vt, vn, points[k])
  }

  /** The MDB vertex WriteGroup writes for a packed point. */
  function MdbVertexOf(v: seq<Vec3>, vt: seq<Vec2>, vn: seq<Vec3>, p: Corner, trig: Trig): MdbVertex
    requires Resolves(v, vt, vn, p)
  {
    MdbVertex(ToMdbAxes(v[p[0] - 1]), FlipV(vt[p[1] - 1]), NormalAngles(vn[p[2] - 1], trig))
  }

  function Converted(v: seq<Vec3>, vt: seq<Vec2>, vn: seq<Vec3>, points: seq<Corner>, trig: Trig): (r: seq<MdbVertex>)
    requires AllResolve(v, vt, vn, points)
    ensures |r| == |points|
  {
    if |points| == 0 then []
    else Converted(v, vt, vn, points[..|points| - 1], trig) + [MdbVertexOf(v, vt, vn, points[|points| - 1], trig)]
  }

  /** Each point is converted on its own: the i-th vertex written comes from the i-th point. */
  lemma {:induction false} ConvertedAt(v: seq<Vec3>, vt: seq<Vec2>, vn: seq<Vec3>, points: seq<Corner>, trig: Trig, i: nat)
    requires AllResolve(v, vt, vn, points) && i < |points|
    ensures Converted(v, vt, vn, points, trig)[i] == MdbVertexOf(v, vt, vn, points[i], trig)
    decreases |points|
  {
    if i < |points| - 1 {
      ConvertedAt(v, vt, vn, points[..|points| - 1], trig, i);
    }
  }

  /** The position stored is the OBJ position in MDB axes, so MdbTool's axis change gives it back. */
  lemma VertexPositionRoundTrip(v: seq<Vec3>, vt: seq<Vec2>, vn: seq<Vec3>, p: Corner, trig: Trig)
    requires Resolves(v, vt, vn, p)
    ensures ToObjAxes(MdbVertexOf(v, vt, vn, p, trig).v) == v[p[0] - 1]
    ensures FlipV(MdbVertexOf(v, vt, vn, p, trig).vt) == vt[p[1] - 1]
  {
    AxesRoundTrip(v[p[0] - 1]);
    FlipVRoundTrip(vt[p[1] - 1]);
  }

  lemma VerticesSnoc(vs: seq<MdbVertex>, m: MdbVertex)
    ensures Vertices(vs + [m]) == Vertices(vs) + VertexRecord(m)
    decreases |vs|
  {
    if |vs| > 0 {
      assert (vs + [m])[1..] == vs[1..] + [m];
      VerticesSnoc(vs[1..], m);
    }
  }

  // ================================================================ bounds

  /** The running minimum and maximum of WriteGroup, per axis. */
  datatype Bounds = Bounds(min: Vec3, max: Vec3)

  /** The start of WriteGroup's scan: float.MaxValue for the minima, float.MinValue for the maxima. */
  const NoBounds := Bounds(Vec3(MaxValue, MaxValue, MaxValue), Vec3(MinValue, MinValue, MinValue))

  /** `if (x < m) m = x`. */
  function Lower(m: F32, x: F32): F32
  {
    if Less(x, m) then x else m
  }

  /** `if (x > m) m = x`. */
  function Higher(m: F32, x: F32): F32
  {
    if Less(m, x) then x else m
  }

  function Grow(b: Bounds, p: Vec3): Bounds
  {
    Bounds(Vec3(Lower(b.min.x, p.x), Lower(b.min.y, p.y), Lower(b.min.z, p.z)),
           Vec3(Higher(b.max.x, p.x), Higher(b.max.y, p.y), Higher(b.max.z, p.z)))
  }

  predicate PositionsResolve(v: seq<Vec3>, points: seq<Corner>)
  {
    forall k :: 0 <= k < |points| ==> 1 <= points[k][0] <= |v|
  }

  /** The bounds of a model's points, scanned in order. */
  function GroupBounds(v: seq<Vec3>, points: seq<Corner>): Bounds
    requires PositionsResolve(v, points)
  {
    if |points| == 0 then NoBounds
    else Grow(GroupBounds(v, points[..|points| - 1]), v[points[|points| - 1][0] - 1])
  }

  /** `x` lies between `lo` and `hi`, unless `x` is a NaN (which no comparison sees). */
  predicate Between(lo: F32, x: F32, hi: F32)
  {
    !IsNaN(x) ==> !Less(x, lo) && !Less(hi, x)
  }

  predicate Inside(b: Bounds, p: Vec3)
  {
    Between(b.min.x, p.x, b.max.x) && Between(b.min.y, p.y, b.max.y) && Between(b.min.z, p.z, b.max.z)
  }

  predicate NoNaN(b: Bounds)
  {
    !IsNaN(b.min.x) && !IsNaN(b.min.y) && !IsNaN(b.min.z) && !IsNaN(b.max.x) && !IsNaN(b.max.y) && !IsNaN(b.max.z)
  }

  /** Widening a range never loses a value it held, and takes in the new one. */
  lemma BetweenGrow(lo: F32, x: F32, hi: F32, y: F32)
    requires !IsNaN(lo) && !IsNaN(hi)
    ensures Between(lo, x, hi) ==> Between(Lower(lo, y), x, Higher(hi, y))
    ensures Between(Lower(lo, y), y, Higher(hi, y))
    ensures !IsNaN(Lower(lo, y)) && !IsNaN(Higher(hi, y))
  {
  }

  lemma InsideGrow(b: Bounds, p: Vec3, q: Vec3)
    requires NoNaN(b)
    ensures Inside(b, q) ==> Inside(Grow(b, p), q)
    ensures Inside(Grow(b, p), p) && NoNaN(Grow(b, p))
  {
    BetweenGrow(b.min.x, q.x, b.max.x, p.x);
    BetweenGrow(b.min.y, q.y, b.max.y, p.y);
    BetweenGrow(b.min.z, q.z, b.max.z, p.z);
  }

  /**
   * The bounding values WriteGroup hands back hold every point of the
   * model: no coordinate lies below the minimum or above the maximum.
   */
  lemma {:induction false} GroupBoundsHoldPoints(v: seq<Vec3>, points: seq<Corner>)
    requires PositionsResolve(v, points)
    ensures NoNaN(GroupBounds(v, points))
    ensures forall k :: 0 <= k < |points| ==> Inside(GroupBounds(v, points), v[points[k][0] - 1])
    decreases |points|
  {
    if |points| > 0 {
      var init := points[..|points| - 1];
      var b := GroupBounds(v, init);
      var p := v[points[|points| - 1][0] - 1];
      GroupBoundsHoldPoints(v, init);
      forall k | 0 <= k < |points|
        ensures Inside(Grow(b, p), v[points[k][0] - 1])
      {
        InsideGrow(b, p, v[points[k][0] - 1]);
        if k < |points| - 1 {
          assert points[k] == init[k];
        }
      }
      InsideGrow(b, p, p);
    }
  }

  // ================================================================ triangles

  lemma {:induction false} GroupTrisSnoc(mat: u16, tris: seq<MdbTriangle>, t: MdbTriangle)
    ensures GroupTris(mat, tris + [t]) == GroupTris(mat, tris) + TriRecord(t, mat)
    decreases |tris|
  {
    if |tris| > 0 {
      assert (tris + [t])[1..] == tris[1..] + [t];
      GroupTrisSnoc(mat, tris[1..], t);
    }
  }

  lemma {:induction false} AllTrisSnoc(groups: seq<TriGroup>, g: TriGroup)
    ensures AllTris(groups + [g]) == AllTris(groups) + GroupTris(g.matIndex, g.tris)
    ensures TriCount(groups + [g]) == TriCount(groups) + |g.tris|
    decreases |groups|
  {
    if |groups| > 0 {
      assert (groups + [g])[1..] == groups[1..] + [g];
      AllTrisSnoc(groups[1..], g);
    } else {
      assert AllTris([g]) == GroupTris(g.matIndex, g.tris) + AllTris([]);
    }
  }

  /**
   * WriteGroup's two back-patches: the triangle count over its placeholder,
   * then the block length over the first field, followed by the trailing
   * zero, turn the bytes written in order into a ModelBlock.
   */
  lemma PatchedModel(start: seq<byte>, modelIndex: int, verts: seq<MdbVertex>, triangles: seq<TriGroup>, d: seq<byte>,
                     p: nat, at: nat, n: int, t: int)
    requires d == start + I32Bytes(0) + I32Bytes(modelIndex) + I32Bytes(|verts|) + Vertices(verts) + I32Bytes(0) + AllTris(triangles)
    requires p == |start| && at == |start| + 12 + 36 * |verts| && n == |d| - |start| && t == TriCount(triangles)
    ensures n == ModelLength(|verts|, TriCount(triangles))
    ensures Overwrite(Overwrite(d, at, I32Bytes(t)), p, I32Bytes(n)) + I32Bytes(0) == start + ModelBlock(modelIndex, verts, triangles)
  {
    PatchBlock(start, I32Bytes(0), I32Bytes(modelIndex), I32Bytes(|verts|), Vertices(verts), I32Bytes(0), AllTris(triangles),
               I32Bytes(0), I32Bytes(n), I32Bytes(t), at);
    ModelBlockFields(modelIndex, verts, triangles, n);
  }

  lemma ModelBlockFields(modelIndex: int, verts: seq<MdbVertex>, triangles: seq<TriGroup>, n: int)
    requires n == ModelLength(|verts|, TriCount(triangles))
    ensures ModelBlock(modelIndex, verts, triangles)
         == I32Bytes(n) + (I32Bytes(modelIndex) + (I32Bytes(|verts|) + (Vertices(verts)
            + (I32Bytes(TriCount(triangles)) + (AllTris(triangles) + I32Bytes(0))))))
  {
  }

  // ================================================================ hit box

  /** The hit box record of one face: its three vertices, given in reverse order. */
  function HitOf(v: seq<Vec3>, t: ObjTriangle): seq<byte>
    requires InRange([t], |v|)
  {
    HitRecord(v[t.p0[0] - 1], v[t.p1[0] - 1], v[t.p2[0] - 1])
  }

  function HitRecords(v: seq<Vec3>, tris: seq<ObjTriangle>): (r: seq<byte>)
    requires InRange(tris, |v|)
    ensures |r| == 56 * |tris|
  {
    if |tris| == 0 then []
    else
      assert InRange([tris[|tris| - 1]], |v|) by {
        assert tris[|tris| - 1] in tris;
      }
      HitRecords(v, tris[..|tris| - 1]) + HitOf(v, tris[|tris| - 1])
  }

  lemma HitRecordsSnoc(v: seq<Vec3>, tris: seq<ObjTriangle>, t: ObjTriangle)
    requires InRange(tris, |v|) && TriInRange(t, |v|)
    ensures InRange(tris + [t], |v|)
    ensures HitRecords(v, tris + [t]) == HitRecords(v, tris) + HitOf(v, t)
  {
    assert (tris + [t])[..|tris|] == tris;
  }

  /** Face j of sub-group i is one of the faces. */
  lemma {:induction false} FaceOfGroup(groups: seq<MatGroup>, i: nat, j: nat)
    requires i < |groups| && j < |groups[i].tris|
    ensures groups[i].tris[j] in Faces(groups)
    decreases i
  {
    if i > 0 {
      FaceOfGroup(groups[1..], i - 1, j);
    }
  }

  /** The faces after a first run are in range when all are. */
  lemma InRangeSuffix(done: seq<ObjTriangle>, tris: seq<ObjTriangle>, vCount: nat)
    requires InRange(done + tris, vCount)
    ensures InRange(tris, vCount)
  {
    forall t | t in tris
      ensures TriInRange(t, vCount)
    {
      assert t in done + tris;
    }
  }

  /** Every face of sub-group i is one of the faces. */
  lemma GroupInFaces(groups: seq<MatGroup>, i: nat)
    requires i < |groups|
    ensures forall t :: t in groups[i].tris ==> t in Faces(groups)
  {
    forall t | t in groups[i].tris
      ensures t in Faces(groups)
    {
      var j :| 0 <= j < |groups[i].tris| && groups[i].tris[j] == t;
      FaceOfGroup(groups, i, j);
    }
  }

  /** WriteHitbox: tag 18, the triangle count given, then a record per face of the first model. */
  function HitBlock(v: seq<Vec3>, hitBox: seq<MatGroup>, tCount: int): seq<byte>
    requires InRange(Faces(hitBox), |v|)
  {
    I32Bytes(18) + I32Bytes(tCount) + HitRecords(v, Faces(hitBox))
  }

  lemma FacesSnoc(groups: seq<MatGroup>, g: MatGroup)
    ensures Faces(groups + [g]) == Faces(groups) + g.tris
    decreases |groups|
  {
    if |groups| > 0 {
      assert (groups + [g])[1..] == groups[1..] + [g];
      FacesSnoc(groups[1..], g);
    } else {
      assert Faces([g]) == g.tris + Faces([]);
    }
  }
}
