// The ObjTool class of the OBJ -> MDB converter: the fields its readers fill
// and the methods that fill, search and write them. Every method is proved
// against the function that states what it computes (ObjRead, MtlRead,
// CboxRead, ObjPack, ObjBoxes, ObjFiles, MdbLayout).
module ObjTools {
  import opened Wrappers
  import opened Machine
  import opened Float32
  import opened Text
  import opened Records
  import opened ObjRead
  import opened MtlRead
  import opened CboxRead
  import opened ObjPack
  import opened ObjBoxes
  import opened ObjFiles
  import opened Binary
  import opened MdbLayout
  import opened ObjWrite

  /** The placeholder group ReadObj's locals are compared against outside ReadObj. */
  const NoGroup := GroupRef("", 0)
  const NoMatGroup := MatGroup("", [])

  /** The fields of an ObjTool as ReadObj sees them, without its two locals. */
  function Forget(st: ObjState): ObjState
  {
    st.(group := NoGroup, matGroup := NoMatGroup)
  }

  class ObjTool {
    /** The "mtllib" file named by the OBJ file. */
    var mtlName: string
    /** The materials of the MTL file, then the "NULL" fallback FindMatIndex may add. */
    var finalMat: seq<Material>
    var v: seq<Vec3>
    var vt: seq<Vec2>
    var vn: seq<Vec3>
    /** Every List of material sub-groups ReadObj has created; `groups` refers to them by position. */
    var lists: seq<seq<MatGroup>>
    /** The groups of the OBJ file: a name and the List of its material sub-groups. */
    var groups: seq<GroupRef>
    /** Every CollisionBox ReadCbox has created; boxes refer to their children by position. */
    var boxes: seq<CboxNode>
    /** The meshes of the box file, each with its root box. */
    var cboxGroups: seq<(string, nat)>

    /** Every group names a List, every box link and root names a box. */
    ghost predicate Valid()
      reads this
    {
      (forall g :: g in groups ==> g.list < |lists|)
      && CboxRead.Wf(CboxState(boxes, "", [], cboxGroups))
    }

    /** The fields ReadObj works on, with its two locals. */
    function With(group: GroupRef, matGroup: MatGroup): ObjState
      reads this
    {
      ObjState(v, vt, vn, mtlName, lists, groups, group, matGroup)
    }

    /** The fields ReadObj works on, outside a call of ReadObj. */
    function Stored(): ObjState
      reads this
    {
      With(NoGroup, NoMatGroup)
    }

    constructor ()
      ensures Valid()
      ensures mtlName == "" && finalMat == [] && v == [] && vt == [] && vn == []
      ensures lists == [] && groups == [] && boxes == [] && cboxGroups == []
    {
      mtlName := "";
      finalMat := [];
      v := [];
      vt := [];
      vn := [];
      lists := [];
      groups := [];
      boxes := [];
      cboxGroups := [];
    }

    /**
     * ClearObjStuff: forgets everything read from the previous OBJ file. The
     * Lists and boxes created so far are no longer referred to, so the
     * arenas holding them are emptied too.
     */
    method ClearObjStuff()
      modifies this
      ensures Valid()
      ensures mtlName == "" && finalMat == [] && v == [] && vt == [] && vn == []
      ensures lists == [] && groups == [] && boxes == [] && cboxGroups == []
    {
      mtlName := "";
      finalMat := [];
      v := [];
      vt := [];
      vn := [];
      lists := [];
      groups := [];
      boxes := [];
      cboxGroups := [];
    }

    // ================================================================ ReadObj

    /** One corner "a/b/c" of a face line: each of the first three fields read with int.TryParse. */
    static method ReadCorner(text: string) returns (c: Corner)
      ensures c == ParseCorner(text)
    {
      var p := SplitAll(text, '/');
      var corner: seq<int> := [0, 0, 0];
      var n := if |p| < 3 then |p| else 3;
      for i := 0 to n
        invariant |corner| == 3
        invariant forall k :: 0 <= k < i ==> corner[k] == ParsedOrZero(p[k])
        invariant forall k :: i <= k < 3 ==> corner[k] == 0
      {
        corner := corner[i := ParsedOrZero(p[i])];
      }
      assert corner == [CornerField(p, 0), CornerField(p, 1), CornerField(p, 2)];
      c := corner;
    }

    /** The foreach over `groups` looking for a group of that name. */
    method FindGroupIndex(name: string) returns (r: Option<nat>)
      ensures r == FindGroup(groups, name)
    {
      var i := 0;
      while i < |groups|
        invariant 0 <= i <= |groups|
        invariant forall k :: 0 <= k < i ==> groups[k].name != name
      {
        if groups[i].name == name {
          return Some(i);
        }
        i := i + 1;
      }
      return None;
    }

    /** Moves the pending sub-group into the group's List when it has faces, and empties it. */
    method AddMatGroup(group: GroupRef, matGroup: MatGroup) returns (mg: MatGroup)
      requires ObjRead.Wf(With(group, matGroup))
      modifies this`lists
      ensures With(group, mg) == FlushMatGroup(old(With(group, matGroup)))
    {
      mg := matGroup;
      if |matGroup.tris| > 0 {
        lists := lists[group.list := lists[group.list] + [matGroup]];
        mg := matGroup.(tris := []);
      }
    }

    /** The branch of ReadObj for one line. */
    method ReadObjLine(line: string, group: GroupRef, matGroup: MatGroup, parse: FloatParser)
      returns (group': GroupRef, matGroup': MatGroup)
      requires ObjRead.Wf(With(group, matGroup))
      modifies this`v, this`vt, this`vn, this`mtlName, this`lists, this`groups
      ensures With(group', matGroup') == Step(old(With(group, matGroup)), line, parse)
    {
      group', matGroup' := group, matGroup;
      var kind := KindOf(line);
      if kind == Vertex {
        var p := ParseVec3(line, parse);
        if p.Some? {
          v := v + [p.value];
        }
      } else if kind == TexCoord {
        var p := ParseVec2(line, parse);
        if p.Some? {
          vt := vt + [p.value];
        }
      } else if kind == Normal {
        var p := ParseVec3(line, parse);
        if p.Some? {
          vn := vn + [p.value];
        }
      } else if kind == Face {
        var s := SplitN(line, ' ', 4, false);
        if |s| >= 4 {
          var p0 := ReadCorner(s[1]);
          var p1 := ReadCorner(s[2]);
          var p2 := ReadCorner(s[3]);
          matGroup' := matGroup.(tris := matGroup.tris + [ObjTriangle(p0, p1, p2)]);
        }
      } else if kind == UseMtl {
        matGroup' := AddMatGroup(group, matGroup);
        matGroup' := matGroup'.(matName := line[7..]);
      } else if kind == MtlLib {
        mtlName := line[7..];
      } else if kind == Group {
        group', matGroup' := SwitchTo(line[2..], group, matGroup);
      }
    }

    /** A "g"/"o" line: stay, resume an existing group, or close the current one and start a new one. */
    method SwitchTo(groupName: string, group: GroupRef, matGroup: MatGroup)
      returns (group': GroupRef, matGroup': MatGroup)
      requires ObjRead.Wf(With(group, matGroup))
      modifies this`lists, this`groups
      ensures With(group', matGroup') == SwitchGroup(old(With(group, matGroup)), groupName)
    {
      group', matGroup' := group, matGroup;
      if group.name != groupName {
        var found := FindGroupIndex(groupName);
        if found.Some? {
          group' := groups[found.value];
        } else {
          matGroup' := AddMatGroup(group, matGroup);
          if |lists[group.list]| > 0 {
            groups := groups + [group];
            lists := lists + [[]];
            group' := GroupRef(group.name, |lists| - 1);
          }
          group' := group'.(name := groupName);
        }
      }
    }

    /**
     * ReadObj: every line of the file in turn, then the pending sub-group and
     * group. The fields end as ReadObjSpec says.
     */
    method ReadObj(lines: seq<string>, parse: FloatParser)
      requires Valid()
      modifies this
      ensures Valid()
      ensures Stored() == Forget(ReadObjSpec(old(Stored()), lines, parse))
      ensures finalMat == old(finalMat) && boxes == old(boxes) && cboxGroups == old(cboxGroups)
    {
      ghost var start := Begin(Stored());
      lists := lists + [[]];
      var group := GroupRef("UnamedMesh", |lists| - 1);
      var matGroup := MatGroup("", []);
      assert With(group, matGroup) == start;
      var i := 0;
      while i < |lines|
        invariant 0 <= i <= |lines|
        invariant ObjRead.Wf(With(group, matGroup))
        invariant Lines(With(group, matGroup), lines[i..], parse) == Lines(start, lines, parse)
        invariant finalMat == old(finalMat) && boxes == old(boxes) && cboxGroups == old(cboxGroups)
      {
        LinesFirst(With(group, matGroup), lines[i..], parse);
        assert lines[i..][0] == lines[i] && lines[i..][1..] == lines[i + 1..];
        group, matGroup := ReadObjLine(lines[i], group, matGroup, parse);
        i := i + 1;
      }
      assert lines[i..] == [];
      matGroup := AddMatGroup(group, matGroup);
      if |lists[group.list]| > 0 {
        groups := groups + [group];
      }
    }

    // ================================================================ ReadMtl

    /** finalMat.Exists: some material already has this name, ignoring case. */
    method HasMaterialNamed(name: string) returns (b: bool)
      ensures b == HasMaterial(finalMat, name)
    {
      var i := 0;
      while i < |finalMat|
        invariant 0 <= i <= |finalMat|
        invariant forall k :: 0 <= k < i ==> !EqualsIgnoreCase(finalMat[k].matName, name)
      {
        if EqualsIgnoreCase(finalMat[i].matName, name) {
          return true;
        }
        i := i + 1;
      }
      return false;
    }

    /** Adds the material read so far unless its name is taken; throws when 65536 are listed. */
    method AddPendingMaterial(mat: Option<Material>) returns (o: Outcome)
      modifies this`finalMat
      ensures (finalMat, o) == AddPending(old(finalMat), mat)
    {
      o := Pass;
      if mat.Some? {
        var taken := HasMaterialNamed(mat.value.matName);
        if !taken {
          if |finalMat| > 65535 {
            return Fail(TooManyMaterials);
          }
          finalMat := finalMat + [mat.value];
        }
      }
    }

    /**
     * ReadMtl: "newmtl" lines start a material with texture "NULL", "map_Kd"
     * lines give the current one its texture with the extension "tga".
     */
    method ReadMtl(lines: seq<string>) returns (o: Outcome)
      modifies this`finalMat
      ensures (finalMat, o) == ReadMtlSpec(old(finalMat), lines)
    {
      var mat: Option<Material> := None;
      var i := 0;
      while i < |lines|
        invariant 0 <= i <= |lines|
        invariant MtlLines(finalMat, mat, lines[i..]) == ReadMtlSpec(old(finalMat), lines)
      {
        var line := lines[i];
        assert lines[i..][0] == line && lines[i..][1..] == lines[i + 1..];
        if StartsWithIgnoreCase(line, "newmtl ") {
          o := AddPendingMaterial(mat);
          if o.Fail? {
            return;
          }
          mat := Some(Material(line[7..], "NULL"));
        } else if StartsWithIgnoreCase(line, "map_kd ") {
          if mat.Some? {
            mat := Some(mat.value.(texName := ChangeExtension(line[7..], "tga")));
          }
        }
        i := i + 1;
      }
      assert lines[i..] == [];
      o := AddPendingMaterial(mat);
    }

    // ================================================================ ReadCbox

    /** The fields ReadCbox works on, with its local `cboxGroup` (mesh name and List of boxes). */
    function CboxWith(meshName: string, list: seq<nat>): CboxState
      reads this
    {
      CboxState(boxes, meshName, list, cboxGroups)
    }

    /** List.Find over the mesh's boxes: the first one with this name. */
    method FindBoxIn(list: seq<nat>, name: string) returns (r: Option<nat>)
      requires forall j :: 0 <= j < |list| ==> list[j] < |boxes|
      ensures r == FindIn(boxes, list, name)
    {
      var i := 0;
      while i < |list|
        invariant 0 <= i <= |list|
        invariant FindIn(boxes, list[i..], name) == FindIn(boxes, list, name)
      {
        assert list[i..][0] == list[i] && list[i..][1..] == list[i + 1..];
        if boxes[list[i]].name == name {
          return Some(list[i]);
        }
        i := i + 1;
      }
      return None;
    }

    /** The child named `name`: found among the mesh's boxes, or created one level below `level`. */
    method FindOrCreate(meshName: string, list: seq<nat>, name: string, level: u32) returns (list': seq<nat>, k: nat)
      requires CboxRead.Wf(CboxWith(meshName, list)) && level < MaxLevel
      modifies this`boxes
      ensures (CboxWith(meshName, list'), k) == FindOrNew(old(CboxWith(meshName, list)), name, level)
    {
      var found := FindBoxIn(list, name);
      if found.Some? {
        return list, found.value;
      }
      k := |boxes|;
      boxes := boxes + [CboxNode(name, level + 1, None, None)];
      list' := list + [k];
    }

    /** Links box `b` to the children its line names: a line too short for a child stops there. */
    method LinkChildren(meshName: string, list: seq<nat>, b: nat, s: seq<string>) returns (list': seq<nat>)
      requires CboxRead.Wf(CboxWith(meshName, list)) && b < |boxes| && boxes[b].level < MaxLevel
      modifies this`boxes
      ensures CboxWith(meshName, list') == SetChildren(old(CboxWith(meshName, list)), b, s)
    {
      list' := list;
      if |s| < 3 {
        return;
      }
      var level := boxes[b].level;
      var l;
      list', l := FindOrCreate(meshName, list', s[2], level);
      boxes := boxes[b := boxes[b].(left := Some(l))];
      if |s| < 4 {
        return;
      }
      var r;
      list', r := FindOrCreate(meshName, list', s[3], level);
      boxes := boxes[b := boxes[b].(right := Some(r))];
    }

    /** One line of the box file. */
    method ReadCboxLine(line: string, meshName: string, list: seq<nat>)
      returns (meshName': string, list': seq<nat>, o: Outcome)
      requires CboxRead.Wf(CboxWith(meshName, list))
      modifies this`boxes, this`cboxGroups
      ensures (CboxWith(meshName', list'), o) == CboxStep(old(CboxWith(meshName, list)), line)
    {
      meshName', list', o := meshName, list, Pass;
      if StartsWith(line, "MESH\t") {
        if |list| > 0 {
          cboxGroups := cboxGroups + [(meshName, list[0])];
          list' := [];
        }
        meshName' := line[5..];
      } else if StartsWith(line, "CBOX\t") && !IsBlank(meshName) {
        var s := SplitN(line, '\t', 4, true);
        if |s| < 2 {
          if |list| == 0 {
            o := Fail("Index was outside the bounds of the array.");
          }
          return;
        }
        var found := FindBoxIn(list, s[1]);
        if found.None? {
          var b := |boxes|;
          boxes := boxes + [CboxNode(s[1], 0, None, None)];
          list' := LinkChildren(meshName, list + [b], b, s);
        } else if boxes[found.value].level < MaxLevel {
          list' := LinkChildren(meshName, list, found.value, s);
        }
      }
    }

    /**
     * ReadCbox: every line of the box file, then the last mesh. Fails where
     * the source lets an exception out.
     */
    method ReadCbox(lines: seq<string>) returns (o: Outcome)
      requires Valid()
      modifies this`boxes, this`cboxGroups
      ensures Valid()
      ensures var r := ReadCboxSpec(old(boxes), old(cboxGroups), lines);
        boxes == r.0.boxes && cboxGroups == r.0.cboxGroups && o == r.1
    {
      var meshName := "";
      var list: seq<nat> := [];
      ghost var start := CboxWith(meshName, list);
      var i := 0;
      while i < |lines|
        invariant 0 <= i <= |lines|
        invariant CboxRead.Wf(CboxWith(meshName, list))
        invariant CboxLines(CboxWith(meshName, list), lines[i..]) == CboxLines(start, lines)
        invariant groups == old(groups) && lists == old(lists)
      {
        assert lines[i..][0] == lines[i] && lines[i..][1..] == lines[i + 1..];
        meshName, list, o := ReadCboxLine(lines[i], meshName, list);
        if o.Fail? {
          return;
        }
        i := i + 1;
      }
      assert lines[i..] == [];
      if |list| > 0 {
        cboxGroups := cboxGroups + [(meshName, list[0])];
      }
      o := Pass;
    }

    // ================================================================ FindMatIndex and ProcessGroup

    /**
     * FindMatIndex: the first of the first `(ushort)Count` materials named
     * `matName`, else the first without texture, else a new textureless
     * material appended (below 65536 materials) or 0.
     */
    method FindMatIndex(matName: string) returns (index: u16)
      modifies this`finalMat
      ensures (index, finalMat) == FindMat(old(finalMat), matName)
    {
      var nullMatIndex: u16 := 0;
      var matCount: u16 := AsUInt16(|finalMat|);
      var hasFoundNull := false;
      var i: u16 := 0;
      while i < matCount
        invariant i <= matCount && matCount <= |finalMat|
        invariant FirstNamed(finalMat, i, matName) == None
        invariant hasFoundNull <==> FirstNull(finalMat, i).Some?
        invariant hasFoundNull ==> nullMatIndex == FirstNull(finalMat, i).value
      {
        var mat := finalMat[i];
        if mat.matName == matName {
          assert FirstNamed(finalMat, i + 1, matName) == Some(i as nat);
          return i;
        }
        if !hasFoundNull && mat.texName == "NULL" {
          hasFoundNull := true;
          nullMatIndex := i;
        }
        i := i + 1;
      }
      if hasFoundNull {
        return nullMatIndex;
      } else if |finalMat| <= 65535 {
        finalMat := finalMat + [NullMaterial];
        return |finalMat| - 1;
      } else {
        return 0;
      }
    }

    /** PointsEquals: same length and the same number at every position. */
    static method PointsEquals(p0: seq<int>, p1: seq<int>) returns (b: bool)
      ensures b <==> p0 == p1
    {
      if |p0| == |p1| {
        for i := 0 to |p0|
          invariant p0[..i] == p1[..i]
        {
          if p0[i] != p1[i] {
            return false;
          }
        }
        assert p0 == p0[..|p0|] && p1 == p1[..|p1|];
        return true;
      }
      return false;
    }

    /**
     * The scan of `points` for the corners of one face: each match records
     * its position, and the scan stops once all three corners were seen.
     */
    static method ScanPoints(points: seq<Corner>, tri: ObjTriangle) returns (f: Found)
      ensures f == Scan(points, tri)
    {
      f := NoneFound;
      var k := 0;
      while k < |points|
        invariant 0 <= k <= |points|
        invariant ScanFrom(points, k, tri, f) == Scan(points, tri)
      {
        var p := points[k];
        var e0 := PointsEquals(tri.p0, p);
        if e0 {
          f := f.(i0 := Some(k));
          if AllFound(f) {
            return;
          }
        }
        var e1 := PointsEquals(tri.p1, p);
        if e1 {
          f := f.(i1 := Some(k));
          if AllFound(f) {
            return;
          }
        }
        var e2 := PointsEquals(tri.p2, p);
        if e2 {
          f := f.(i2 := Some(k));
          if AllFound(f) {
            return;
          }
        }
        k := k + 1;
      }
    }

    /** One face: corners the scan did not find are appended in the order P2, P1, P0. */
    static method PackFace(points: seq<Corner>, tri: ObjTriangle) returns (points': seq<Corner>, t: MdbTriangle, o: Outcome)
      requires |points| <= 65536
      ensures o.Pass? <==> PackTriangle(points, tri).Some?
      ensures o.Pass? ==> PackTriangle(points, tri) == Some((points', t))
      ensures o.Fail? ==> o == Fail(VertexOverflow)
    {
      var f := ScanPoints(points, tri);
      points' := points;
      o := Pass;
      var p0Index: u16, p1Index: u16, p2Index: u16 := 0, 0, 0;
      if f.i2.Some? {
        p2Index := f.i2.value;
      } else {
        if |points'| > 65535 {
          return points', MdbTriangle(0, 0, 0), Fail(VertexOverflow);
        }
        p2Index := |points'|;
        points' := points' + [tri.p2];
      }
      if f.i1.Some? {
        p1Index := f.i1.value;
      } else {
        if |points'| > 65535 {
          return points', MdbTriangle(0, 0, 0), Fail(VertexOverflow);
        }
        p1Index := |points'|;
        points' := points' + [tri.p1];
      }
      if f.i0.Some? {
        p0Index := f.i0.value;
      } else {
        if |points'| > 65535 {
          return points', MdbTriangle(0, 0, 0), Fail(VertexOverflow);
        }
        p0Index := |points'|;
        points' := points' + [tri.p0];
      }
      t := MdbTriangle(p0Index, p1Index, p2Index);
    }

    /** The faces of one material sub-group, packed one after the other. */
    static method PackFaces(points: seq<Corner>, faces: seq<ObjTriangle>) returns (points': seq<Corner>, tris: seq<MdbTriangle>, o: Outcome)
      requires |points| <= 65536
      ensures o.Pass? <==> PackTris(points, faces, []).Some?
      ensures o.Pass? ==> PackTris(points, faces, []) == Some((points', tris))
      ensures o.Fail? ==> o == Fail(VertexOverflow)
    {
      points', tris, o := points, [], Pass;
      var j := 0;
      while j < |faces|
        invariant 0 <= j <= |faces| && |points'| <= 65536 && o == Pass
        invariant PackTris(points', faces[j..], tris) == PackTris(points, faces, [])
      {
        assert faces[j..][0] == faces[j] && faces[j..][1..] == faces[j + 1..];
        PackTriangleCorrect(points', faces[j]);
        var t;
        points', t, o := PackFace(points', faces[j]);
        if o.Fail? {
          return;
        }
        tris := tris + [t];
        j := j + 1;
      }
      assert faces[j..] == [];
    }

    /**
     * ProcessGroup: each material sub-group becomes a face group under its
     * material index (dropped when it has no face), each face's corners
     * packed into `points`. On an exception the caller abandons both lists,
     * so they are described only when the call completes.
     */
    method ProcessGroup(matGroups: seq<MatGroup>, points: seq<Corner>, triangles: seq<TriGroup>)
      returns (points': seq<Corner>, triangles': seq<TriGroup>, o: Outcome)
      requires |points| <= 65536
      modifies this`finalMat
      ensures var (r, ro) := PackGroups(PackState(old(finalMat), points, triangles), matGroups);
        o == ro && finalMat == r.mats && (o.Pass? ==> points' == r.points && triangles' == r.groups)
    {
      points', triangles', o := points, triangles, Pass;
      var i := 0;
      while i < |matGroups|
        invariant 0 <= i <= |matGroups| && |points'| <= 65536 && o == Pass
        invariant PackGroups(PackState(finalMat, points', triangles'), matGroups[i..])
               == PackGroups(PackState(old(finalMat), points, triangles), matGroups)
      {
        var matGroup := matGroups[i];
        assert matGroups[i..][0] == matGroup && matGroups[i..][1..] == matGroups[i + 1..];
        var matIndex := FindMatIndex(matGroup.matName);
        var tris;
        points', tris, o := PackFaces(points', matGroup.tris);
        if o.Fail? {
          return;
        }
        if |tris| > 0 {
          triangles' := triangles' + [TriGroup(matIndex, tris)];
        }
        i := i + 1;
      }
      assert matGroups[i..] == [];
    }

    /** One face of GetPointsFromCBoxGroup: its vertex numbers not yet listed are appended. */
    static method AddFaceVertices(points: seq<int>, tri: ObjTriangle) returns (points': seq<int>)
      ensures points' == AddFacePoints(points, tri)
    {
      var found0, found1, found2 := false, false, false;
      var k := 0;
      while k < |points|
        invariant 0 <= k <= |points|
        invariant found0 <==> tri.p0[0] in points[..k]
        invariant found1 <==> tri.p1[0] in points[..k]
        invariant found2 <==> tri.p2[0] in points[..k]
      {
        var p := points[k];
        assert points[..k + 1] == points[..k] + [p];
        if p == tri.p0[0] {
          found0 := true;
          if found0 && found1 && found2 {
            break;
          }
        }
        if p == tri.p1[0] {
          found1 := true;
          if found0 && found1 && found2 {
            break;
          }
        }
        if p == tri.p2[0] {
          found2 := true;
          if found0 && found1 && found2 {
            break;
          }
        }
        k := k + 1;
      }
      assert found0 <==> tri.p0[0] in points;
      assert found1 <==> tri.p1[0] in points;
      assert found2 <==> tri.p2[0] in points;
      points' := points;
      if !found0 {
        points' := points' + [tri.p0[0]];
      }
      if !found1 {
        points' := points' + [tri.p1[0]];
      }
      if !found2 {
        points' := points' + [tri.p2[0]];
      }
    }

    /** GetPointsFromCBoxGroup: the vertex numbers of a group's faces in order of first use, each added unless already listed before its face (a face repeating a new number lists it twice). */
    static method GetPointsFromCBoxGroup(matGroups: seq<MatGroup>) returns (points: seq<int>)
      ensures points == CboxPoints(matGroups)
    {
      points := [];
      var i := 0;
      while i < |matGroups|
        invariant 0 <= i <= |matGroups|
        invariant FacePoints(points, Faces(matGroups[i..])) == CboxPoints(matGroups)
      {
        var tris := matGroups[i].tris;
        ghost var rest := Faces(matGroups[i + 1..]);
        assert matGroups[i..][0] == matGroups[i] && matGroups[i..][1..] == matGroups[i + 1..];
        assert Faces(matGroups[i..]) == tris[0..] + rest;
        var j := 0;
        while j < |tris|
          invariant 0 <= j <= |tris|
          invariant FacePoints(points, tris[j..] + rest) == CboxPoints(matGroups)
        {
          assert (tris[j..] + rest)[0] == tris[j] && (tris[j..] + rest)[1..] == tris[j + 1..] + rest;
          points := AddFaceVertices(points, tris[j]);
          j := j + 1;
        }
        assert tris[j..] + rest == rest;
        i := i + 1;
      }
      assert matGroups[i..] == [];
    }

    /** The loop of ReadCboxValues: the position of the first group with this name. */
    method FindGroupNamed(name: string) returns (r: Option<nat>)
      requires forall g :: g in groups ==> g.list < |lists|
      ensures r == FirstGroup(Resolve(lists, groups), name)
    {
      ghost var all := Resolve(lists, groups);
      var i := 0;
      while i < |groups|
        invariant 0 <= i <= |groups|
        invariant forall k :: 0 <= k < i ==> all[k].0 != name
      {
        if groups[i].name == name {
          return Some(i);
        }
        i := i + 1;
      }
      return None;
    }

    /** groups.RemoveAt(i). */
    method RemoveGroup(i: nat)
      requires i < |groups| && forall g :: g in groups ==> g.list < |lists|
      modifies this`groups
      ensures forall g :: g in groups ==> g.list < |lists|
      ensures Resolve(lists, groups) == old(Resolve(lists, groups))[..i] + old(Resolve(lists, groups))[i + 1..]
    {
      ghost var all := Resolve(lists, groups);
      groups := groups[..i] + groups[i + 1..];
      assert Resolve(lists, groups) == all[..i] + all[i + 1..];
    }

    /**
     * ReadCboxValues: the first group named like box `b` is fitted and
     * removed, then the children are handled the same way; a box without a
     * group is reported. The result lists the boxes fitted with their
     * vertex numbers (what AllPca receives) and the warnings.
     */
    method ReadCboxValues(b: nat) returns (fits: seq<(nat, seq<int>)>, warnings: seq<string>)
      requires Valid() && b < |boxes|
      modifies this`groups
      ensures Valid()
      ensures Resolve(lists, groups) == FitBox(boxes, b, old(Resolve(lists, groups))).groups
      ensures fits == FitBox(boxes, b, old(Resolve(lists, groups))).fits
      ensures warnings == FitBox(boxes, b, old(Resolve(lists, groups))).warnings
      decreases |groups|
    {
      ghost var before := Resolve(lists, groups);
      var node := boxes[b];
      var found := FindGroupNamed(node.name);
      if found.None? {
        FitBoxMissing(boxes, b, before);
        return [], [MissingGroup(node.name)];
      }
      var i := found.value;
      var points := GetPointsFromCBoxGroup(lists[groups[i].list]);
      RemoveGroup(i);
      ghost var rest := before[..i] + before[i + 1..];
      fits, warnings := [(b, points)], [];
      ghost var acc := Fitting(rest, fits, [before[i]], warnings);
      if node.left.Some? {
        var f, w := ReadCboxValues(node.left.value);
        acc := Then(acc, FitBox(boxes, node.left.value, rest));
        fits, warnings := fits + f, warnings + w;
      }
      ghost var afterLeft := acc;
      if node.right.Some? {
        var f, w := ReadCboxValues(node.right.value);
        acc := Then(acc, FitBox(boxes, node.right.value, afterLeft.groups));
        fits, warnings := fits + f, warnings + w;
      }
      FitBoxFound(boxes, b, before, i, afterLeft, acc);
    }

    /**
     * The inner loop of AutoGenerateCBox's split: each face goes to the left
     * list or the right one; false where one of its vertices is not in v.
     */
    method SplitFaces(tris: seq<ObjTriangle>, frame: Frame, below: (Frame, ObjTriangle) -> bool,
                      left: seq<ObjTriangle>, right: seq<ObjTriangle>)
      returns (ok: bool, left': seq<ObjTriangle>, right': seq<ObjTriangle>)
      ensures ok <==> InRange(tris, |v|)
      ensures ok ==> left' == left + Side(tris, below, frame, true) && right' == right + Side(tris, below, frame, false)
    {
      left', right' := left, right;
      var j := 0;
      while j < |tris|
        invariant 0 <= j <= |tris|
        invariant left' + Side(tris[j..], below, frame, true) == left + Side(tris, below, frame, true)
        invariant right' + Side(tris[j..], below, frame, false) == right + Side(tris, below, frame, false)
        invariant InRange(tris, |v|) <==> InRange(tris[j..], |v|)
      {
        var tri := tris[j];
        SideAt(tris, j, below, frame, |v|);
        if !(1 <= tri.p0[0] <= |v| && 1 <= tri.p1[0] <= |v| && 1 <= tri.p2[0] <= |v|) {
          return false, left', right';
        }
        if below(frame, tri) {
          Assoc(left', [tri], Side(tris[j + 1..], below, frame, true));
          left' := left' + [tri];
        } else {
          Assoc(right', [tri], Side(tris[j + 1..], below, frame, false));
          right' := right' + [tri];
        }
        j := j + 1;
      }
      ok := true;
    }

    /** The split of AutoGenerateCBox, over every face of every sub-group in order. */
    method SplitGroups(triangles: seq<MatGroup>, frame: Frame, below: (Frame, ObjTriangle) -> bool)
      returns (ok: bool, leftChild: seq<ObjTriangle>, rightChild: seq<ObjTriangle>)
      ensures ok <==> InRange(Faces(triangles), |v|)
      ensures ok ==> leftChild == Side(Faces(triangles), below, frame, true)
      ensures ok ==> rightChild == Side(Faces(triangles), below, frame, false)
    {
      ok, leftChild, rightChild := true, [], [];
      var i := 0;
      while i < |triangles|
        invariant 0 <= i <= |triangles|
        invariant leftChild + Side(Faces(triangles[i..]), below, frame, true) == Side(Faces(triangles), below, frame, true)
        invariant rightChild + Side(Faces(triangles[i..]), below, frame, false) == Side(Faces(triangles), below, frame, false)
        invariant InRange(Faces(triangles), |v|) <==> InRange(Faces(triangles[i..]), |v|)
      {
        var tris := triangles[i].tris;
        SplitGroupsStep(triangles, i, below, frame, |v|);
        ghost var restLeft := Side(Faces(triangles[i + 1..]), below, frame, true);
        ghost var restRight := Side(Faces(triangles[i + 1..]), below, frame, false);
        Assoc(leftChild, Side(tris, below, frame, true), restLeft);
        Assoc(rightChild, Side(tris, below, frame, false), restRight);
        ok, leftChild, rightChild := SplitFaces(tris, frame, below, leftChild, rightChild);
        if !ok {
          return;
        }
        i := i + 1;
      }
      assert triangles[i..] == [];
    }

    /**
     * AutoGenerateCBox on a new box at `level`: the box is fitted to the
     * triangles' vertices (`fit` stands for AllPca), and below level 5 the
     * triangles are split by `below` into a left and a right child one level
     * down, each generated the same way. None where v[n - 1] throws.
     */
    method AutoGenerateCBox(level: u32, triangles: seq<MatGroup>,
                            fit: seq<int> -> Frame, below: (Frame, ObjTriangle) -> bool) returns (r: Option<Box>)
      ensures r == AutoTree(level, Faces(triangles), |v|, fit, below)
      decreases MaxLevel as int - level as int, 1
    {
      var points := GetPointsFromCBoxGroup(triangles);
      var frame := fit(points);
      var box := FittedBox(level, frame);
      ghost var tris := Faces(triangles);
      assert frame == fit(FacePoints([], tris));
      if level >= MaxLevel {
        assert AutoTree(level, tris, |v|, fit, below) == Some(box);
        return Some(box);
      }
      var ok, leftChild, rightChild := SplitGroups(triangles, frame, below);
      if !ok {
        assert AutoTree(level, tris, |v|, fit, below) == None;
        return None;
      }
      assert AutoTree(level, tris, |v|, fit, below)
          == ChildrenOf(box, AutoTree(level + 1, leftChild, |v|, fit, below),
                        AutoTree(level + 1, rightChild, |v|, fit, below)) by {
        AutoTreeSplit(level, tris, |v|, fit, below, frame, leftChild, rightChild);
      }
      r := GenerateChildren(level, box, leftChild, rightChild, fit, below);
    }

    /** The two recursive calls of AutoGenerateCBox below level 5, and the box they complete. */
    method GenerateChildren(level: u32, box: Box, leftChild: seq<ObjTriangle>, rightChild: seq<ObjTriangle>,
                            fit: seq<int> -> Frame, below: (Frame, ObjTriangle) -> bool) returns (r: Option<Box>)
      requires level < MaxLevel
      ensures r == ChildrenOf(box, AutoTree(level + 1, leftChild, |v|, fit, below),
                              AutoTree(level + 1, rightChild, |v|, fit, below))
      decreases MaxLevel as int - level as int, 0
    {
      FacesOne("", leftChild);
      FacesOne("", rightChild);
      var lb := AutoGenerateCBox(level + 1, [MatGroup("", leftChild)], fit, below);
      var rb := AutoGenerateCBox(level + 1, [MatGroup("", rightChild)], fit, below);
      r := if lb.None? || rb.None? then None else Some(box.(left := lb, right := rb));
    }

    /**
     * One group of ObjToXMdb's loop, as far as choosing files goes: a group
     * whose file `temp` differs from `currentFileName` closes the open file
     * (if any) and opens a new one at modelIndex 0; the group is then the
     * next model of the open file.
     */
    static method NextGroup(currentFileName: string, runs: seq<FileRun>, started: bool, modelIndex: nat,
                            temp: string, ghost files: seq<string>)
      returns (currentFileName': string, runs': seq<FileRun>, started': bool, modelIndex': nat)
      requires |files| > 0 && files[0] == temp && temp != ""
      requires started ==> modelIndex >= 1
      requires !started ==> currentFileName == "" && runs == [] && modelIndex == 0
      ensures started' && modelIndex' >= 1
      ensures SplitFrom(currentFileName', runs' + Open(started', currentFileName', modelIndex'), files[1..])
           == SplitFrom(currentFileName, runs + Open(started, currentFileName, modelIndex), files)
    {
      SplitFromNext(currentFileName, runs, started, modelIndex, files);
      currentFileName', runs', started', modelIndex' := currentFileName, runs, started, modelIndex;
      if currentFileName' != temp {
        if started' {
          runs' := runs' + [FileRun(currentFileName', modelIndex')];
          modelIndex' := 0;
        }
        currentFileName' := temp;
        started' := true;
      }
      modelIndex' := modelIndex' + 1;
    }

    /**
     * The loop of ObjToXMdb over the groups, as far as choosing files goes:
     * each group goes to the file of its real name ("-" when blank). The
     * result lists the files written, in order, with their model counts.
     */
    method SplitIntoFiles() returns (runs: seq<FileRun>)
      ensures runs == SplitFiles(Names(groups))
    {
      ghost var files := FilesOf(Names(groups));
      var currentFileName := "";
      var started := false;
      var modelIndex: nat := 0;
      runs := [];
      var i := 0;
      assert runs + Open(started, currentFileName, modelIndex) == [] && files[i..] == files;
      while i < |groups|
        invariant 0 <= i <= |groups|
        invariant started ==> modelIndex >= 1
        invariant !started ==> currentFileName == "" && runs == [] && modelIndex == 0
        invariant SplitFrom(currentFileName, runs + Open(started, currentFileName, modelIndex), files[i..]) == SplitFrom("", [], files)
      {
        var temp := FileOf(groups[i].name);
        assert files[i..][0] == temp && temp != "" && files[i..][1..] == files[i + 1..] by {
          FileAt(Names(groups), i);
        }
        currentFileName, runs, started, modelIndex := NextGroup(currentFileName, runs, started, modelIndex, temp, files[i..]);
        i := i + 1;
      }
      if started {
        runs := runs + [FileRun(currentFileName, modelIndex)];
      }
    }

    // ---------------------------------------------------------------- writing an MDB file

    /** The fields of one vertex record, in the order WriteGroup writes them. */
    static method WriteVertexRecord(w: Writer, m: MdbVertex)
      requires w.pos == |w.data|
      modifies w
      ensures w.data == old(w.data) + VertexRecord(m) && w.pos == |w.data|
    {
      w.Append(I32Bytes(32));
      w.Append(FloatBytes(m.v.x));
      w.Append(FloatBytes(m.v.y));
      w.Append(FloatBytes(m.v.z));
      w.Append(FloatBytes(m.vt.x));
      w.Append(FloatBytes(m.vt.y));
      w.Append(FloatBytes(m.vn.x));
      w.Append(FloatBytes(m.vn.y));
      w.Append(I32Bytes(-1));
    }

    /**
     * The vertex loop of WriteGroup: each point's position, texture
     * coordinate and normal are looked up (an exception where one is
     * missing), the bounds widened by the position, and the vertex record
     * written.
     */
    method WriteVertices(w: Writer, points: seq<Corner>, trig: Trig) returns (bounds: Bounds, o: Outcome)
      requires w.pos == |w.data|
      modifies w
      ensures w.pos == |w.data| && old(w.data) <= w.data
      ensures o.Pass? <==> AllResolve(v, vt, vn, points)
      ensures o.Pass? ==> w.data == old(w.data) + Vertices(Converted(v, vt, vn, points, trig))
      ensures o.Pass? ==> bounds == GroupBounds(v, points)
    {
      bounds, o := NoBounds, Pass;
      ghost var start := w.data;
      ghost var verts: seq<MdbVertex> := [];
      var i := 0;
      while i < |points|
        invariant 0 <= i <= |points| && w.pos == |w.data|
        invariant AllResolve(v, vt, vn, points[..i]) && verts == Converted(v, vt, vn, points[..i], trig)
        invariant w.data == start + Vertices(verts)
        invariant bounds == GroupBounds(v, points[..i])
      {
        var p := points[i];
        if !Resolves(v, vt, vn, p) {
          assert !AllResolve(v, vt, vn, points) by {
            assert !Resolves(v, vt, vn, points[i]);
          }
          assert start <= w.data by {
            assert w.data == start + Vertices(verts);
          }
          return bounds, Fail(IndexOutOfRange);
        }
        var m := MdbVertexOf(v, vt, vn, p, trig);
        ConvertNext(v, vt, vn, points, i, trig);
        bounds := Grow(bounds, v[p[0] - 1]);
        WriteVertexRecord(w, m);
        assert w.data == start + Vertices(verts + [m]) by {
          VerticesSnoc(verts, m);
          Assoc(start, Vertices(verts), VertexRecord(m));
        }
        verts := verts + [m];
        i := i + 1;
      }
      assert points[..i] == points;
    }

    /** One triangle record: tag 8, the corners in reverse order, the material index. */
    static method WriteTriRecord(w: Writer, tri: MdbTriangle, matIndex: u16)
      requires w.pos == |w.data|
      modifies w
      ensures w.data == old(w.data) + TriRecord(tri, matIndex) && w.pos == |w.data|
    {
      w.Append(I32Bytes(8));
      w.Append(U16Bytes(tri.p2));
      w.Append(U16Bytes(tri.p1));
      w.Append(U16Bytes(tri.p0));
      w.Append(U16Bytes(matIndex));
    }

    /** The inner loop of WriteGroup's triangles: the faces of one material. */
    static method WriteFaceGroup(w: Writer, triGroup: TriGroup)
      requires w.pos == |w.data|
      modifies w
      ensures w.data == old(w.data) + GroupTris(triGroup.matIndex, triGroup.tris) && w.pos == |w.data|
    {
      ghost var start := w.data;
      var j := 0;
      while j < |triGroup.tris|
        invariant 0 <= j <= |triGroup.tris| && w.pos == |w.data|
        invariant w.data == start + GroupTris(triGroup.matIndex, triGroup.tris[..j])
      {
        var tri := triGroup.tris[j];
        ghost var done := GroupTris(triGroup.matIndex, triGroup.tris[..j]);
        WriteTriRecord(w, tri, triGroup.matIndex);
        assert w.data == start + GroupTris(triGroup.matIndex, triGroup.tris[..j + 1]) by {
          assert triGroup.tris[..j + 1] == triGroup.tris[..j] + [tri];
          GroupTrisSnoc(triGroup.matIndex, triGroup.tris[..j], tri);
          Assoc(start, done, TriRecord(tri, triGroup.matIndex));
        }
        j := j + 1;
      }
      assert triGroup.tris[..j] == triGroup.tris;
    }

    /** The triangle loop of WriteGroup: every face group in turn, counting the faces. */
    static method WriteTriangles(w: Writer, triangles: seq<TriGroup>) returns (tCount: nat)
      requires w.pos == |w.data|
      modifies w
      ensures w.data == old(w.data) + AllTris(triangles) && w.pos == |w.data|
      ensures tCount == TriCount(triangles)
    {
      ghost var start := w.data;
      tCount := 0;
      var i := 0;
      while i < |triangles|
        invariant 0 <= i <= |triangles| && w.pos == |w.data|
        invariant w.data == start + AllTris(triangles[..i]) && tCount == TriCount(triangles[..i])
      {
        var triGroup := triangles[i];
        ghost var done := AllTris(triangles[..i]);
        WriteFaceGroup(w, triGroup);
        assert w.data == start + AllTris(triangles[..i + 1]) && tCount + |triGroup.tris| == TriCount(triangles[..i + 1]) by {
          assert triangles[..i + 1] == triangles[..i] + [triGroup];
          AllTrisSnoc(triangles[..i], triGroup);
          Assoc(start, done, GroupTris(triGroup.matIndex, triGroup.tris));
        }
        tCount := tCount + |triGroup.tris|;
        i := i + 1;
      }
      assert triangles[..i] == triangles;
    }

    /**
     * WriteGroup up to its back-patches: zero placeholders for the block
     * length and triangle count around the model index, the vertices and the
     * triangles. Also hands back where the triangle count goes.
     */
    method WriteModelBody(w: Writer, points: seq<Corner>, triangles: seq<TriGroup>, modelIndex: int, trig: Trig)
      returns (tPos: nat, temp: Bounds, tempTCount: nat, o: Outcome)
      requires w.pos == |w.data|
      modifies w
      ensures old(w.data) <= w.data
      ensures o.Pass? <==> AllResolve(v, vt, vn, points)
      ensures o.Pass? ==> w.pos == |w.data|
      ensures o.Pass? ==> w.data == old(w.data) + I32Bytes(0) + I32Bytes(modelIndex) + I32Bytes(|points|)
                                    + Vertices(Converted(v, vt, vn, points, trig)) + I32Bytes(0) + AllTris(triangles)
      ensures o.Pass? ==> tPos == |old(w.data)| + 12 + 36 * |points|
      ensures o.Pass? ==> temp == GroupBounds(v, points) && tempTCount == TriCount(triangles)
    {
      w.Append(I32Bytes(0));
      w.Append(I32Bytes(modelIndex));
      w.Append(I32Bytes(|points|));
      temp, o := WriteVertices(w, points, trig);
      if o.Fail? {
        return 0, temp, 0, o;
      }
      tPos := w.pos;
      w.Append(I32Bytes(0));
      tempTCount := WriteTriangles(w, triangles);
    }

    /**
     * WriteGroup: one model block (see ModelBlock), its length and triangle
     * count back-patched. For the first model of a file (modelIndex 0) the
     * bounds of its points and its triangle count are handed back; for the
     * others the ones given are kept. An exception where a point's data is
     * missing.
     */
    method WriteGroup(w: Writer, points: seq<Corner>, triangles: seq<TriGroup>, modelIndex: int,
                      bounds: Bounds, tCount: int, trig: Trig)
      returns (bounds': Bounds, tCount': int, o: Outcome)
      requires w.pos == |w.data|
      modifies w
      ensures old(w.data) <= w.data
      ensures o.Pass? <==> AllResolve(v, vt, vn, points)
      ensures o.Pass? ==> w.data == old(w.data) + ModelBlock(modelIndex, Converted(v, vt, vn, points, trig), triangles)
      ensures o.Pass? ==> w.pos == |w.data|
      ensures o.Pass? && modelIndex == 0 ==> bounds' == GroupBounds(v, points) && tCount' == TriCount(triangles)
      ensures o.Pass? && modelIndex != 0 ==> bounds' == bounds && tCount' == tCount
    {
      bounds', tCount' := bounds, tCount;
      ghost var start := w.data;
      var pos := w.pos;
      var tPos, temp, tempTCount;
      tPos, temp, tempTCount, o := WriteModelBody(w, points, triangles, modelIndex, trig);
      if o.Fail? {
        return;
      }
      ghost var verts := Converted(v, vt, vn, points, trig);
      ghost var d := w.data;
      var blockLength := w.pos - pos;
      w.Seek(tPos);
      w.Write(I32Bytes(tempTCount));
      ghost var d1 := w.data;
      w.Seek(pos);
      w.Write(I32Bytes(blockLength));
      ghost var d2 := w.data;
      w.SeekEnd();
      w.Append(I32Bytes(0));
      assert w.data == start + ModelBlock(modelIndex, verts, triangles) by {
        assert w.data == d2 + I32Bytes(0);
        assert d2 == Overwrite(d1, pos, I32Bytes(blockLength));
        assert d1 == Overwrite(d, tPos, I32Bytes(tempTCount));
        PatchedModel(start, modelIndex, verts, triangles, d, pos, tPos, blockLength, tempTCount);
      }
      if modelIndex == 0 {
        bounds', tCount' := temp, tempTCount;
      }
    }

    // ================================================================ the other blocks of a file

    /** Write(x) on a float vector in MDB axes: X, -Z, Y; the block goes on with `tail`. */
    static method WriteMdbVec3(w: Writer, p: Vec3, ghost tail: seq<byte>)
      requires w.pos == |w.data|
      modifies w
      ensures w.data == old(w.data) + Vec3Bytes(ToMdbAxes(p)) && w.pos == |w.data|
      ensures w.data + tail == old(w.data) + (Vec3Bytes(ToMdbAxes(p)) + tail)
    {
      ghost var start := w.data;
      w.Append(FloatBytes(p.x));
      w.Append(FloatBytes(Neg(p.z)));
      w.Append(FloatBytes(p.y));
      Assoc(start + FloatBytes(p.x), FloatBytes(Neg(p.z)), FloatBytes(p.y));
      Assoc(start, FloatBytes(p.x), FloatBytes(Neg(p.z)) + FloatBytes(p.y));
      Assoc(start, Vec3Bytes(ToMdbAxes(p)), tail);
    }

    /** `n` times Write(x): the loops writing the constant material data. */
    static method WriteWords(w: Writer, x: int, n: nat)
      requires w.pos == |w.data|
      modifies w
      ensures w.data == old(w.data) + Words(x, n) && w.pos == |w.data|
    {
      ghost var start := w.data;
      for j := 0 to n
        invariant w.data == start + Words(x, j) && w.pos == |w.data|
      {
        w.Append(I32Bytes(x));
        Assoc(start, Words(x, j), I32Bytes(x));
      }
    }

    /** The 72 bytes of constant data after a material's texture name. */
    static method WriteMaterialData(w: Writer)
      requires w.pos == |w.data|
      modifies w
      ensures w.data == old(w.data) + MaterialData() && w.pos == |w.data|
    {
      ghost var start := w.data;
      var one, zero := I32Bytes(FloatOne), I32Bytes(0);
      WriteWords(w, FloatOne, 8);
      WriteWords(w, 0, 3);
      Assoc(start, Words(FloatOne, 8), Words(0, 3));
      w.Append(one);
      Assoc(start, Words(FloatOne, 8) + Words(0, 3), one);
      WriteWords(w, 0, 3);
      Assoc(start, Words(FloatOne, 8) + Words(0, 3) + one, Words(0, 3));
      w.Append(one);
      Assoc(start, Words(FloatOne, 8) + Words(0, 3) + one + Words(0, 3), one);
      WriteWords(w, 0, 2);
      Assoc(start, Words(FloatOne, 8) + Words(0, 3) + one + Words(0, 3) + one, Words(0, 2));
      MaterialDataWords();
    }

    /**
     * WriteMaterials: the number of materials, a record per material of
     * `finalMat` (block length 76 + the texture file name's length, the name,
     * the constant data), then a zero bone count.
     */
    method WriteMaterials(w: Writer)
      requires w.pos == |w.data|
      modifies w
      ensures w.data == old(w.data) + MaterialsBlock(finalMat) && w.pos == |w.data|
    {
      var mats := finalMat;
      w.AppendThen(I32Bytes(|mats|), MaterialRecords(mats) + I32Bytes(0));
      for i := 0 to |mats|
        invariant w.data + (MaterialRecords(mats[i..]) + I32Bytes(0)) == old(w.data) + MaterialsBlock(mats)
        invariant w.pos == |w.data|
      {
        var mat := mats[i];
        assert mats[i..][1..] == mats[i + 1..];
        Assoc(MaterialRecord(mat), MaterialRecords(mats[i + 1..]), I32Bytes(0));
        Assoc(w.data, MaterialRecord(mat), MaterialRecords(mats[i + 1..]) + I32Bytes(0));
        WriteMaterial(w, mat);
      }
      assert mats[|mats|..] == [];
      w.Append(I32Bytes(0));
    }

    /** One material of WriteMaterials: its block length, its texture's file name, its fixed data. */
    static method WriteMaterial(w: Writer, mat: Material)
      requires w.pos == |w.data|
      modifies w
      ensures w.data == old(w.data) + MaterialRecord(mat) && w.pos == |w.data|
    {
      var texture := GetFileName(mat.texName);
      var taillebloc := 76 + |texture|;
      ghost var tData := StringBytes(texture) + MaterialData();
      w.AppendThen(I32Bytes(taillebloc), I32Bytes(|texture|) + tData);
      w.AppendThen(I32Bytes(|texture|), tData);
      w.AppendThen(StringBytes(texture), MaterialData());
      WriteMaterialData(w);
    }

    /** The fields of a box up to tag 11, in the order WriteCollisionBox writes them. */
    static method WriteBoxHead(w: Writer, box: Box)
      requires w.pos == |w.data|
      modifies w
      ensures w.data == old(w.data) + BoxHead(box) && w.pos == |w.data|
    {
      // what remains of the head after each write
      ghost var t11 := I32Bytes(11);
      ghost var tLevel := U32Bytes(box.level) + t11;
      ghost var t10 := I32Bytes(10) + tLevel;
      ghost var tRadius := FloatBytes(Radius(box.length)) + t10;
      ghost var t9 := I32Bytes(9) + tRadius;
      ghost var tLength := Vec3Bytes(box.length) + t9;
      ghost var t8 := I32Bytes(8) + tLength;
      ghost var tForward := Vec3Bytes(ToMdbAxes(box.forward)) + t8;
      ghost var t7 := I32Bytes(7) + tForward;
      ghost var tUp := Vec3Bytes(ToMdbAxes(box.up)) + t7;
      ghost var t6 := I32Bytes(6) + tUp;
      ghost var tCross := Vec3Bytes(ToMdbAxes(box.cross)) + t6;
      ghost var t5 := I32Bytes(5) + tCross;
      ghost var t0 := I32Bytes(0) + t5;
      ghost var t4 := I32Bytes(4) + t0;
      ghost var tPosition := Vec3Bytes(ToMdbAxes(box.position)) + t4;
      ghost var t3 := I32Bytes(3) + tPosition;
      ghost var t72 := I32Bytes(72) + t3;
      w.AppendThen(I32Bytes(2), t72);
      w.AppendThen(I32Bytes(72), t3);
      w.AppendThen(I32Bytes(3), tPosition);
      WriteMdbVec3(w, box.position, t4);
      w.AppendThen(I32Bytes(4), t0);
      w.AppendThen(I32Bytes(0), t5);
      w.AppendThen(I32Bytes(5), tCross);
      WriteMdbVec3(w, box.cross, t6);
      w.AppendThen(I32Bytes(6), tUp);
      WriteMdbVec3(w, box.up, t7);
      w.AppendThen(I32Bytes(7), tForward);
      WriteMdbVec3(w, box.forward, t8);
      w.AppendThen(I32Bytes(8), tLength);
      w.AppendThen(Vec3Bytes(box.length), t9);
      w.AppendThen(I32Bytes(9), tRadius);
      w.AppendThen(FloatBytes(Radius(box.length)), t10);
      w.AppendThen(I32Bytes(10), tLevel);
      w.AppendThen(U32Bytes(box.level), t11);
      w.Append(I32Bytes(11));
    }

    /** The triangle index list: 0 below the root; at the root the count and the pairs (15, i). */
    static method WriteIndexList(w: Writer, level: u32, collisionTriangles: nat)
      requires w.pos == |w.data|
      modifies w
      ensures w.data == old(w.data) + IndexList(level, collisionTriangles) && w.pos == |w.data|
    {
      if level != 0 {
        w.Append(I32Bytes(0));
      } else {
        ghost var start := w.data;
        w.Append(I32Bytes(collisionTriangles));
        for i := 0 to collisionTriangles
          invariant w.data == start + I32Bytes(collisionTriangles) + Indices(0, i) && w.pos == |w.data|
        {
          w.Append(I32Bytes(15));
          w.Append(I32Bytes(i));
          IndicesSnoc(0, i);
          Assoc(start + I32Bytes(collisionTriangles) + Indices(0, i), I32Bytes(15), I32Bytes(i));
          Assoc(start + I32Bytes(collisionTriangles), Indices(0, i), I32Bytes(15) + I32Bytes(i));
        }
        Assoc(start, I32Bytes(collisionTriangles), Indices(0, collisionTriangles));
      }
    }

    /**
     * WriteCollisionBox: a zero placeholder, the head, the child flags and
     * records, tag 14 and the index list; then the placeholder is
     * back-patched with the length of the whole record.
     */
    static method WriteCollisionBox(w: Writer, box: Box, collisionTriangles: nat)
      requires w.pos == |w.data|
      modifies w
      ensures w.data == old(w.data) + BoxRecord(box, collisionTriangles) && w.pos == |w.data|
      decreases box, 1
    {
      ghost var start := w.data;
      var pos := w.pos;
      w.Append(I32Bytes(0));
      ghost var bodyStart := w.data;
      WriteBoxHead(w, box);
      WriteChildren(w, box, collisionTriangles);
      w.Append(I32Bytes(14));
      WriteIndexList(w, box.level, collisionTriangles);
      ghost var body := BoxBody(box, collisionTriangles);
      Assoc4(bodyStart, BoxHead(box), Children(box, collisionTriangles), I32Bytes(14), IndexList(box.level, collisionTriangles));
      var blockLength1 := w.pos - pos;
      assert blockLength1 == 4 + |body| && BoxRecord(box, collisionTriangles) == I32Bytes(blockLength1) + body;
      w.Patch(pos, I32Bytes(blockLength1));
      OverwriteField(start, I32Bytes(0), body, I32Bytes(blockLength1));
      Assoc(start, I32Bytes(blockLength1), body);
    }

    /**
     * The child flags and records of WriteCollisionBox's four branches: each
     * branch writes the left flag, tag 12 and the right flag, then the left
     * child after tag 13 when there is one and the right child after tag 16
     * when there is one, so the four branches are one sequence here.
     */
    static method WriteChildren(w: Writer, box: Box, collisionTriangles: nat)
      requires w.pos == |w.data|
      modifies w
      ensures w.data == old(w.data) + Children(box, collisionTriangles) && w.pos == |w.data|
      decreases box, 0
    {
      ghost var left := ChildRecord(13, box.left, collisionTriangles);
      ghost var right := ChildRecord(16, box.right, collisionTriangles);
      ChildrenParts(box, collisionTriangles);
      w.AppendThen(BoolBytes(box.left.Some?), I32Bytes(12) + (BoolBytes(box.right.Some?) + (left + right)));
      w.AppendThen(I32Bytes(12), BoolBytes(box.right.Some?) + (left + right));
      w.AppendThen(BoolBytes(box.right.Some?), left + right);
      ghost var d := w.data;
      WriteChild(w, 13, box.left, collisionTriangles);
      WriteChild(w, 16, box.right, collisionTriangles);
      Assoc(d, left, right);
    }

    /** One child: its tag (13 on the left, 16 on the right), then its record; nothing without a child. */
    static method WriteChild(w: Writer, tag: int, child: Option<Box>, collisionTriangles: nat)
      requires w.pos == |w.data|
      modifies w
      ensures w.data == old(w.data) + ChildRecord(tag, child, collisionTriangles) && w.pos == |w.data|
      decreases child, 2
    {
      if child.Some? {
        w.AppendThen(I32Bytes(tag), BoxRecord(child.value, collisionTriangles));
        WriteCollisionBox(w, child.value, collisionTriangles);
      }
    }

    /**
     * WriteHitbox: tag 18, the triangle count given, then for every face of
     * the sub-groups its three vertices, looked up in `v`, in reverse order.
     * An exception where a face names a vertex `v` does not hold.
     */
    method WriteHitbox(w: Writer, hitBox: seq<MatGroup>, tCount: int) returns (o: Outcome)
      requires w.pos == |w.data|
      modifies w
      ensures o.Pass? <==> InRange(Faces(hitBox), |v|)
      ensures o.Pass? ==> w.data == old(w.data) + HitBlock(v, hitBox, tCount) && w.pos == |w.data|
    {
      w.Append(I32Bytes(18));
      w.Append(I32Bytes(tCount));
      ghost var head := w.data;
      // the faces written so far
      ghost var faces: seq<ObjTriangle> := [];
      for i := 0 to |hitBox|
        invariant faces == Faces(hitBox[..i])
        invariant InRange(faces, |v|)
        invariant w.data == head + HitRecords(v, faces) && w.pos == |w.data|
      {
        var matGroup := hitBox[i];
        o := WriteGroupHits(w, v, faces, matGroup.tris, head);
        if o.Fail? {
          GroupInFaces(hitBox, i);
          return;
        }
        FacesSnoc(hitBox[..i], matGroup);
        assert hitBox[..i + 1] == hitBox[..i] + [matGroup];
        faces := faces + matGroup.tris;
      }
      assert hitBox[..|hitBox|] == hitBox;
      Assoc(old(w.data), I32Bytes(18), I32Bytes(tCount));
      Assoc(old(w.data), I32Bytes(18) + I32Bytes(tCount), HitRecords(v, Faces(hitBox)));
      return Pass;
    }

    /**
     * The inner loop of WriteHitbox: the faces of one sub-group, after the
     * records of the faces `done` before it; an exception at the first face
     * that names a vertex `v` does not hold.
     */
    static method WriteGroupHits(w: Writer, v: seq<Vec3>, ghost done: seq<ObjTriangle>, tris: seq<ObjTriangle>,
                                 ghost head: seq<byte>) returns (o: Outcome)
      requires InRange(done, |v|) && w.data == head + HitRecords(v, done) && w.pos == |w.data|
      modifies w
      ensures o.Pass? <==> InRange(tris, |v|)
      ensures o.Pass? ==> InRange(done + tris, |v|) && w.data == head + HitRecords(v, done + tris)
      ensures o.Pass? ==> w.pos == |w.data|
    {
      ghost var faces := done;
      for j := 0 to |tris|
        invariant faces == done + tris[..j]
        invariant InRange(faces, |v|)
        invariant w.data == head + HitRecords(v, faces) && w.pos == |w.data|
      {
        var tri := tris[j];
        if !TriInRange(tri, |v|) {
          assert tri in tris;
          return Fail(IndexOutOfRange);
        }
        var p2 := v[tri.p0[0] - 1];
        var p1 := v[tri.p1[0] - 1];
        var p0 := v[tri.p2[0] - 1];
        WriteHitRecord(w, p2, p1, p0);
        HitRecordsSnoc(v, faces, tri);
        PrefixSnoc(done, tris, j);
        Assoc(head, HitRecords(v, faces), HitOf(v, tri));
        faces := faces + [tri];
      }
      PrefixEnds(done, tris);
      InRangeSuffix(done, tris, |v|);
      return Pass;
    }

    /**
     * One face of WriteHitbox: tags 19 and 48, then tag 20 before the third
     * corner's vertex, 21 before the second's and 22 before the first's.
     */
    static method WriteHitRecord(w: Writer, p2: Vec3, p1: Vec3, p0: Vec3)
      requires w.pos == |w.data|
      modifies w
      ensures w.data == old(w.data) + HitRecord(p2, p1, p0) && w.pos == |w.data|
    {
      ghost var t5 := I32Bytes(22) + Vec3Bytes(ToMdbAxes(p2));
      ghost var t4 := Vec3Bytes(ToMdbAxes(p1)) + t5;
      ghost var t3 := I32Bytes(21) + t4;
      ghost var t2 := Vec3Bytes(ToMdbAxes(p0)) + t3;
      ghost var t1 := I32Bytes(20) + t2;
      w.AppendThen(I32Bytes(19), I32Bytes(48) + t1);
      w.AppendThen(I32Bytes(48), t1);
      w.AppendThen(I32Bytes(20), t2);
      WriteMdbVec3(w, p0, t3);
      w.AppendThen(I32Bytes(21), t4);
      WriteMdbVec3(w, p1, t5);
      w.AppendThen(I32Bytes(22), Vec3Bytes(ToMdbAxes(p2)));
      WriteMdbVec3(w, p2, []);
    }

    /**
     * WriteStrings: the 21 field names of the box records, each after its
     * length, in the order of the string table.
     */
    static method WriteStrings(w: Writer)
      requires w.pos == |w.data|
      modifies w
      ensures w.data == old(w.data) + StringsBlock() && w.pos == |w.data|
    {
      w.Append(I32Bytes(21));
      WriteEntries(w, StringTable);
      Assoc(old(w.data), I32Bytes(21), StringEntries(StringTable));
    }

    /** The entries of a string table, one after the other. */
    static method WriteEntries(w: Writer, table: seq<(int, string)>)
      requires w.pos == |w.data|
      modifies w
      ensures w.data == old(w.data) + StringEntries(table) && w.pos == |w.data|
    {
      for i := 0 to |table|
        invariant w.data + StringEntries(table[i..]) == old(w.data) + StringEntries(table)
        invariant w.pos == |w.data|
      {
        var entry := table[i];
        assert table[i..][1..] == table[i + 1..];
        Assoc(w.data, I32Bytes(entry.0) + StringBytes(entry.1), StringEntries(table[i + 1..]));
        WriteEntry(w, entry.0, entry.1);
      }
      assert table[|table|..] == [];
    }

    /** One entry of the string table: Write(length), then the text's bytes. */
    static method WriteEntry(w: Writer, length: int, text: string)
      requires w.pos == |w.data|
      modifies w
      ensures w.data == old(w.data) + (I32Bytes(length) + StringBytes(text)) && w.pos == |w.data|
    {
      w.Append(I32Bytes(length));
      w.Append(StringBytes(text));
      Assoc(old(w.data), I32Bytes(length), StringBytes(text));
    }
  }

  /** The names of the groups, in order. */
  function Names(groups: seq<GroupRef>): (r: seq<string>)
    ensures |r| == |groups| && forall k :: 0 <= k < |groups| ==> r[k] == groups[k].name
  {
    if |groups| == 0 then [] else [groups[0].name] + Names(groups[1..])
  }

  lemma FileAt(names: seq<string>, i: nat)
    requires i < |names|
    ensures FilesOf(names)[i..][0] == FileOf(names[i]) != ""
    ensures FilesOf(names)[i..][1..] == FilesOf(names)[i + 1..]
  {
  }

  /** The file the driver has open, if any, with the models written to it so far. */
  function Open(started: bool, current: string, models: nat): seq<FileRun>
  {
    if started then [FileRun(current, models)] else []
  }

  /** One group of the driver's loop, read off SplitFrom. */
  lemma SplitFromNext(current: string, runs: seq<FileRun>, started: bool, models: nat, files: seq<string>)
    requires |files| > 0 && files[0] != ""
    requires !started ==> current == "" && runs == []
    ensures started && current == files[0] ==>
      SplitFrom(current, runs + Open(started, current, models), files)
      == SplitFrom(current, runs + Open(true, current, models + 1), files[1..])
    ensures current != files[0] ==>
      SplitFrom(current, runs + Open(started, current, models), files)
      == SplitFrom(files[0], runs + Open(started, current, models) + Open(true, files[0], 0 + 1), files[1..])
  {
    if started {
      var r := runs + [FileRun(current, models)];
      assert r[..|r| - 1] == runs;
    }
  }

  /** One more point of WriteGroup's vertex loop. */
  lemma ConvertNext(v: seq<Vec3>, vt: seq<Vec2>, vn: seq<Vec3>, points: seq<Corner>, i: nat, trig: Trig)
    requires i < |points| && AllResolve(v, vt, vn, points[..i]) && Resolves(v, vt, vn, points[i])
    ensures AllResolve(v, vt, vn, points[..i + 1])
    ensures Converted(v, vt, vn, points[..i + 1], trig) == Converted(v, vt, vn, points[..i], trig) + [MdbVertexOf(v, vt, vn, points[i], trig)]
    ensures GroupBounds(v, points[..i + 1]) == Grow(GroupBounds(v, points[..i]), v[points[i][0] - 1])
  {
    assert points[..i + 1][..i] == points[..i] && points[..i + 1][i] == points[i];
  }

  /** The faces of sub-groups i.. are those of sub-group i, then those of the rest. */
  lemma SplitGroupsStep(triangles: seq<MatGroup>, i: nat, below: (Frame, ObjTriangle) -> bool, frame: Frame, n: nat)
    requires i < |triangles|
    ensures Side(Faces(triangles[i..]), below, frame, true)
         == Side(triangles[i].tris, below, frame, true) + Side(Faces(triangles[i + 1..]), below, frame, true)
    ensures Side(Faces(triangles[i..]), below, frame, false)
         == Side(triangles[i].tris, below, frame, false) + Side(Faces(triangles[i + 1..]), below, frame, false)
    ensures InRange(Faces(triangles[i..]), n) <==> InRange(triangles[i].tris, n) && InRange(Faces(triangles[i + 1..]), n)
  {
    var tris, rest := triangles[i].tris, Faces(triangles[i + 1..]);
    assert triangles[i..][0] == triangles[i] && triangles[i..][1..] == triangles[i + 1..];
    assert Faces(triangles[i..]) == tris + rest;
    SideConcat(tris, rest, below, frame);
    assert forall t :: t in tris + rest <==> t in tris || t in rest;
  }

  /** Splitting two runs of faces one after the other splits each in turn. */
  lemma {:induction false} SideConcat(a: seq<ObjTriangle>, b: seq<ObjTriangle>, below: (Frame, ObjTriangle) -> bool, frame: Frame)
    ensures Side(a + b, below, frame, true) == Side(a, below, frame, true) + Side(b, below, frame, true)
    ensures Side(a + b, below, frame, false) == Side(a, below, frame, false) + Side(b, below, frame, false)
    decreases |a|
  {
    if |a| > 0 {
      assert (a + b)[1..] == a[1..] + b;
      SideConcat(a[1..], b, below, frame);
    } else {
      assert a + b == b;
    }
  }
}
