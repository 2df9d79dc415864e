// What ObjTool.ReadObj, ReadMtl and ReadCbox compute, one input line at a
// time. The ObjTool class runs these readers in place; its loops are proved
// against the functions here.
module ObjRead {
  import opened Wrappers
  import opened Machine
  import opened Float32
  import opened Text
  import opened Records

  /** `float.Parse`: a value for the text, or None where the source throws. */
  type FloatParser = string -> Option<F32>

  // ================================================================ ReadObj

  /** A material sub-group: a material name and the faces drawn with it. */
  datatype MatGroup = MatGroup(matName: string, tris: seq<ObjTriangle>)

  /** An entry of `groups`: a group name and, by identity, the List of sub-groups it refers to. */
  datatype GroupRef = GroupRef(name: string, list: nat)

  /**
   * The ObjTool fields ReadObj fills and its two locals `group` and
   * `matGroup`. `lists` holds every List<(string, List<ObjTriangle>)> created
   * so far, so two GroupRefs with the same `list` share one List object.
   */
  datatype ObjState = ObjState(
    v: seq<Vec3>, vt: seq<Vec2>, vn: seq<Vec3>, mtlName: string,
    lists: seq<seq<MatGroup>>, groups: seq<GroupRef>,
    group: GroupRef, matGroup: MatGroup)

  /** Every List a GroupRef names exists. */
  predicate Wf(st: ObjState)
  {
    st.group.list < |st.lists| && forall g :: g in st.groups ==> g.list < |st.lists|
  }

  /** The groups as the rest of the tool sees them: each entry with the current contents of its List. */
  function Resolve(lists: seq<seq<MatGroup>>, groups: seq<GroupRef>): (r: seq<(string, seq<MatGroup>)>)
    requires forall g :: g in groups ==> g.list < |lists|
    ensures |r| == |groups|
    ensures forall i :: 0 <= i < |r| ==> r[i] == (groups[i].name, lists[groups[i].list])
  {
    if |groups| == 0 then []
    else Resolve(lists, groups[..|groups| - 1]) + [(groups[|groups| - 1].name, lists[groups[|groups| - 1].list])]
  }

  /** "v x y z": three numbers after the keyword; the last field keeps the rest of the line. */
  function ParseVec3(line: string, parse: FloatParser): Option<Vec3>
  {
    var s := SplitN(line, ' ', 4, false);
    if |s| < 4 then None
    else if parse(s[1]).Some? && parse(s[2]).Some? && parse(s[3]).Some? then
      Some(Vec3(parse(s[1]).value, parse(s[2]).value, parse(s[3]).value))
    else None
  }

  /** "vt u v": two numbers after the keyword; the second field keeps the rest of the line. */
  function ParseVec2(line: string, parse: FloatParser): Option<Vec2>
  {
    var s := SplitN(line, ' ', 3, false);
    if |s| < 3 then None
    else if parse(s[1]).Some? && parse(s[2]).Some? then Some(Vec2(parse(s[1]).value, parse(s[2]).value))
    else None
  }

  /** Component `i` of a corner: the number written there, or 0 when it is missing or unreadable. */
  function CornerField(fields: seq<string>, i: nat): int
  {
    if i < |fields| then ParsedOrZero(fields[i]) else 0
  }

  /** "a/b/c": a corner's vertex, texture and normal numbers. */
  function ParseCorner(text: string): Corner
  {
    var f := SplitAll(text, '/');
    [CornerField(f, 0), CornerField(f, 1), CornerField(f, 2)]
  }

  /** "f c0 c1 c2": None when the line has fewer than three corners. */
  function ParseFace(line: string): Option<ObjTriangle>
  {
    var s := SplitN(line, ' ', 4, false);
    if |s| < 4 then None else Some(ObjTriangle(ParseCorner(s[1]), ParseCorner(s[2]), ParseCorner(s[3])))
  }

  /** Moves the pending sub-group into the current group's List when it has faces. */
  function FlushMatGroup(st: ObjState): (r: ObjState)
    requires Wf(st)
    ensures Wf(r) && r.groups == st.groups && r.group == st.group && |r.lists| == |st.lists|
    ensures (r.matGroup.matName == st.matGroup.matName && r.matGroup.tris == [])
            || (r == st && st.matGroup.tris == [])
  {
    if |st.matGroup.tris| > 0 then
      st.(lists := st.lists[st.group.list := st.lists[st.group.list] + [st.matGroup]],
          matGroup := st.matGroup.(tris := []))
    else st
  }

  /** The first entry of `groups` with the given name. */
  function FindGroup(groups: seq<GroupRef>, name: string): (r: Option<nat>)
    ensures r.Some? ==> r.value < |groups| && groups[r.value].name == name
                        && forall k :: 0 <= k < r.value ==> groups[k].name != name
    ensures r.None? ==> forall k :: 0 <= k < |groups| ==> groups[k].name != name
  {
    if |groups| == 0 then None
    else if groups[0].name == name then Some(0)
    else match FindGroup(groups[1..], name)
      case Some(k) => Some(k + 1)
      case None => None
  }

  /** A "g"/"o" line naming `name`. */
  function SwitchGroup(st: ObjState, name: string): (r: ObjState)
    requires Wf(st)
    ensures Wf(r)
  {
    if st.group.name == name then st
    else match FindGroup(st.groups, name)
      case Some(i) => st.(group := st.groups[i])
      case None =>
        var s1 := FlushMatGroup(st);
        var s2 :=
          if |s1.lists[s1.group.list]| > 0 then
            s1.(groups := s1.groups + [s1.group], lists := s1.lists + [[]],
                group := GroupRef(s1.group.name, |s1.lists|))
          else s1;
        s2.(group := s2.group.(name := name))
  }

  /** The keyword a line starts with, tested in the order ReadObj tests them, ignoring case. */
  datatype LineKind = Vertex | TexCoord | Normal | Face | UseMtl | MtlLib | Group | Other

  function KindOf(line: string): (k: LineKind)
    ensures k == UseMtl || k == MtlLib ==> |line| >= 7
    ensures k == Group ==> |line| >= 2
  {
    if StartsWithIgnoreCase(line, "v ") then Vertex
    else if StartsWithIgnoreCase(line, "vt ") then TexCoord
    else if StartsWithIgnoreCase(line, "vn ") then Normal
    else if StartsWithIgnoreCase(line, "f ") then Face
    else if StartsWithIgnoreCase(line, "usemtl ") then UseMtl
    else if StartsWithIgnoreCase(line, "mtllib ") then MtlLib
    else if StartsWithIgnoreCase(line, "g ") || StartsWithIgnoreCase(line, "o ") then Group
    else Other
  }

  /** One line of the OBJ file. */
  function Step(st: ObjState, line: string, parse: FloatParser): (r: ObjState)
    requires Wf(st)
    ensures Wf(r)
  {
    match KindOf(line)
    case Vertex => (match ParseVec3(line, parse) case Some(p) => st.(v := st.v + [p]) case None => st)
    case TexCoord => (match ParseVec2(line, parse) case Some(p) => st.(vt := st.vt + [p]) case None => st)
    case Normal => (match ParseVec3(line, parse) case Some(p) => st.(vn := st.vn + [p]) case None => st)
    case Face =>
      (match ParseFace(line)
       case Some(t) => st.(matGroup := st.matGroup.(tris := st.matGroup.tris + [t]))
       case None => st)
    case UseMtl =>
      var s1 := FlushMatGroup(st);
      s1.(matGroup := s1.matGroup.(matName := line[7..]))
    case MtlLib => st.(mtlName := line[7..])
    case Group => SwitchGroup(st, line[2..])
    case Other => st
  }

  /** The lines of the file, in order. */
  function Lines(st: ObjState, lines: seq<string>, parse: FloatParser): (r: ObjState)
    requires Wf(st)
    ensures Wf(r)
    decreases |lines|
  {
    if |lines| == 0 then st else Lines(Step(st, lines[0], parse), lines[1..], parse)
  }

  /** ReadObj's locals on entry: the group "UnamedMesh" with a new List, an empty sub-group. */
  function Begin(st: ObjState): (r: ObjState)
    ensures Wf(r) || !(forall g :: g in st.groups ==> g.list < |st.lists|)
  {
    st.(lists := st.lists + [[]], group := GroupRef("UnamedMesh", |st.lists|), matGroup := MatGroup("", []))
  }

  /** After the last line: the pending sub-group, then the current group if it has any. */
  function Finish(st: ObjState): (r: ObjState)
    requires Wf(st)
    ensures Wf(r)
  {
    var s1 := FlushMatGroup(st);
    if |s1.lists[s1.group.list]| > 0 then s1.(groups := s1.groups + [s1.group]) else s1
  }

  /** ReadObj over a whole file, starting from the tool's fields. */
  function ReadObjSpec(st: ObjState, lines: seq<string>, parse: FloatParser): (r: ObjState)
    requires forall g :: g in st.groups ==> g.list < |st.lists|
    ensures Wf(r)
  {
    Finish(Lines(Begin(st), lines, parse))
  }

  // ---------------------------------------------------------------- what ReadObj promises

  /** The vertex a line contributes: one for a readable "v" line, none otherwise. */
  function VertexOf(line: string, parse: FloatParser): seq<Vec3>
  {
    if KindOf(line) == Vertex && ParseVec3(line, parse).Some? then [ParseVec3(line, parse).value] else []
  }

  function VerticesOf(lines: seq<string>, parse: FloatParser): seq<Vec3>
  {
    if |lines| == 0 then [] else VertexOf(lines[0], parse) + VerticesOf(lines[1..], parse)
  }

  /** ReadObj appends exactly the vertices of the readable "v" lines, in file order. */
  lemma {:induction false} ReadObjVertices(st: ObjState, lines: seq<string>, parse: FloatParser)
    requires Wf(st)
    ensures Lines(st, lines, parse).v == st.v + VerticesOf(lines, parse)
    decreases |lines|
  {
    if |lines| > 0 {
      var s1 := Step(st, lines[0], parse);
      StepVertices(st, lines[0], parse);
      ReadObjVertices(s1, lines[1..], parse);
      Assoc(st.v, VertexOf(lines[0], parse), VerticesOf(lines[1..], parse));
    }
  }

  /** One line adds its vertex, if any, and no other. */
  lemma StepVertices(st: ObjState, line: string, parse: FloatParser)
    requires Wf(st)
    ensures Step(st, line, parse).v == st.v + VertexOf(line, parse)
  {
    match KindOf(line)
    case Vertex =>
    case TexCoord =>
    case Normal =>
    case Face =>
    case UseMtl =>
    case MtlLib =>
    case Group =>
    case Other =>
  }

  /** The texture coordinate a line contributes: one for a readable "vt" line, none otherwise. */
  function TexCoordOf(line: string, parse: FloatParser): seq<Vec2>
  {
    if KindOf(line) == TexCoord && ParseVec2(line, parse).Some? then [ParseVec2(line, parse).value] else []
  }

  function TexCoordsOf(lines: seq<string>, parse: FloatParser): seq<Vec2>
  {
    if |lines| == 0 then [] else TexCoordOf(lines[0], parse) + TexCoordsOf(lines[1..], parse)
  }

  /** ReadObj appends exactly the texture coordinates of the readable "vt" lines, in file order. */
  lemma {:induction false} ReadObjTexCoords(st: ObjState, lines: seq<string>, parse: FloatParser)
    requires Wf(st)
    ensures Lines(st, lines, parse).vt == st.vt + TexCoordsOf(lines, parse)
    decreases |lines|
  {
    if |lines| > 0 {
      var s1 := Step(st, lines[0], parse);
      StepTexCoords(st, lines[0], parse);
      ReadObjTexCoords(s1, lines[1..], parse);
      Assoc(st.vt, TexCoordOf(lines[0], parse), TexCoordsOf(lines[1..], parse));
    }
  }

  /** One line adds its texture coordinate, if any, and no other. */
  lemma StepTexCoords(st: ObjState, line: string, parse: FloatParser)
    requires Wf(st)
    ensures Step(st, line, parse).vt == st.vt + TexCoordOf(line, parse)
  {
    match KindOf(line)
    case Vertex =>
    case TexCoord =>
    case Normal =>
    case Face =>
    case UseMtl =>
    case MtlLib =>
    case Group =>
    case Other =>
  }

  /** The normal a line contributes: one for a readable "vn" line, none otherwise. */
  function NormalOf(line: string, parse: FloatParser): seq<Vec3>
  {
    if KindOf(line) == Normal && ParseVec3(line, parse).Some? then [ParseVec3(line, parse).value] else []
  }

  function NormalsOf(lines: seq<string>, parse: FloatParser): seq<Vec3>
  {
    if |lines| == 0 then [] else NormalOf(lines[0], parse) + NormalsOf(lines[1..], parse)
  }

  /** ReadObj appends exactly the normals of the readable "vn" lines, in file order. */
  lemma {:induction false} ReadObjNormals(st: ObjState, lines: seq<string>, parse: FloatParser)
    requires Wf(st)
    ensures Lines(st, lines, parse).vn == st.vn + NormalsOf(lines, parse)
    decreases |lines|
  {
    if |lines| > 0 {
      var s1 := Step(st, lines[0], parse);
      StepNormals(st, lines[0], parse);
      ReadObjNormals(s1, lines[1..], parse);
      Assoc(st.vn, NormalOf(lines[0], parse), NormalsOf(lines[1..], parse));
    }
  }

  /** One line adds its normal, if any, and no other. */
  lemma StepNormals(st: ObjState, line: string, parse: FloatParser)
    requires Wf(st)
    ensures Step(st, line, parse).vn == st.vn + NormalOf(line, parse)
  {
    match KindOf(line)
    case Vertex =>
    case TexCoord =>
    case Normal =>
    case Face =>
    case UseMtl =>
    case MtlLib =>
    case Group =>
    case Other =>
  }

  /** A corner field that is missing or not an integer reads as 0; a readable one as its value. */
  lemma FaceFieldDefaults(text: string, i: nat)
    requires i < 3
    ensures var f := SplitAll(text, '/');
      ParseCorner(text)[i] == (if i < |f| && TryParseInt(f[i]).Some? then TryParseInt(f[i]).value else 0)
  {
  }

  /**
   * Every List an entry of `groups` refers to has at least one sub-group,
   * and no List holds a sub-group without faces.
   */
  predicate NoEmptyGroups(st: ObjState)
    requires Wf(st)
  {
    (forall g :: g in st.groups ==> |st.lists[g.list]| > 0)
    && (forall l, mg :: l in st.lists && mg in l ==> |mg.tris| > 0)
  }

  lemma FlushKeepsNoEmpty(st: ObjState)
    requires Wf(st) && NoEmptyGroups(st)
    ensures NoEmptyGroups(FlushMatGroup(st))
  {
    var r := FlushMatGroup(st);
    if |st.matGroup.tris| > 0 {
      forall l, mg | l in r.lists && mg in l
        ensures |mg.tris| > 0
      {
        var j :| 0 <= j < |r.lists| && r.lists[j] == l;
        if j != st.group.list {
          assert l in st.lists;
        }
      }
      forall g | g in r.groups
        ensures |r.lists[g.list]| > 0
      {
        if g.list != st.group.list {
          assert r.lists[g.list] == st.lists[g.list];
        }
      }
    }
  }

  lemma StepKeepsNoEmpty(st: ObjState, line: string, parse: FloatParser)
    requires Wf(st) && NoEmptyGroups(st)
    ensures NoEmptyGroups(Step(st, line, parse))
  {
    var r := Step(st, line, parse);
    match KindOf(line)
    case UseMtl =>
      FlushKeepsNoEmpty(st);
      SameGroupsNoEmpty(FlushMatGroup(st), r);
    case Group =>
      SwitchKeepsNoEmpty(st, line[2..]);
    case _ =>
      SameGroupsNoEmpty(st, r);
  }

  /** Only the groups and their Lists decide NoEmptyGroups. */
  lemma SameGroupsNoEmpty(st: ObjState, r: ObjState)
    requires Wf(st) && Wf(r) && NoEmptyGroups(st)
    requires r.groups == st.groups && r.lists == st.lists
    ensures NoEmptyGroups(r)
  {
  }

  lemma SwitchKeepsNoEmpty(st: ObjState, name: string)
    requires Wf(st) && NoEmptyGroups(st)
    ensures NoEmptyGroups(SwitchGroup(st, name))
  {
    if st.group.name != name && FindGroup(st.groups, name).None? {
      FlushKeepsNoEmpty(st);
      var s1 := FlushMatGroup(st);
      if |s1.lists[s1.group.list]| > 0 {
        var s2 := s1.(groups := s1.groups + [s1.group], lists := s1.lists + [[]],
                      group := GroupRef(s1.group.name, |s1.lists|));
        forall l, mg | l in s2.lists && mg in l
          ensures |mg.tris| > 0
        {
          if l != [] {
            assert l in s1.lists;
          }
        }
      }
    }
  }

  lemma {:induction false} LinesKeepNoEmpty(st: ObjState, lines: seq<string>, parse: FloatParser)
    requires Wf(st) && NoEmptyGroups(st)
    ensures NoEmptyGroups(Lines(st, lines, parse))
    decreases |lines|
  {
    if |lines| > 0 {
      StepKeepsNoEmpty(st, lines[0], parse);
      LinesKeepNoEmpty(Step(st, lines[0], parse), lines[1..], parse);
    }
  }

  /**
   * ReadObj only ever records non-empty groups made of non-empty material
   * sub-groups, whatever the file holds.
   */
  lemma ReadObjNoEmptyGroups(st: ObjState, lines: seq<string>, parse: FloatParser)
    requires Wf(st) && NoEmptyGroups(st)
    ensures NoEmptyGroups(ReadObjSpec(st, lines, parse))
  {
    var b := Begin(st);
    forall l, mg | l in b.lists && mg in l
      ensures |mg.tris| > 0
    {
      if l != [] {
        assert l in st.lists;
      }
    }
    LinesKeepNoEmpty(b, lines, parse);
    var e := Lines(b, lines, parse);
    FlushKeepsNoEmpty(e);
  }

  /** The tool's fields before its first file. */
  const Empty := ObjState([], [], [], "", [], [], GroupRef("", 0), MatGroup("", []))

  /** Lines takes the first line, then the rest. */
  lemma LinesFirst(st: ObjState, lines: seq<string>, parse: FloatParser)
    requires Wf(st) && |lines| > 0
    ensures Lines(st, lines, parse) == Lines(Step(st, lines[0], parse), lines[1..], parse)
  {
  }

  /** Lines starting "g " are group lines naming the rest of the line. */
  lemma GroupLine(name: string)
    ensures KindOf("g " + name) == Group && ("g " + name)[2..] == name
  {
    var line := "g " + name;
    assert line[..2] == "g ";
    assert UpperAscii(line[..2][0]) == 'G';
  }

  /** Lines starting "usemtl " select the material named by the rest of the line. */
  lemma UseMtlLine(name: string)
    ensures KindOf("usemtl " + name) == UseMtl && ("usemtl " + name)[7..] == name
  {
    var line := "usemtl " + name;
    assert line[..7] == "usemtl ";
    assert UpperAscii(line[..2][0]) == 'U' && UpperAscii(line[..3][0]) == 'U';
  }

  /**
   * A file that leaves group `a` for group `b` and comes back, drawing the
   * face line `face` once in each stretch.
   */
  function ResumeFile(a: string, b: string, m: string, n: string, face: string): seq<string>
  {
    ["g " + a, face, "g " + b, "usemtl " + m, face, "usemtl " + n, "g " + a, face]
  }

  /** The states ReadObj passes through on ResumeFile, `k` lines in. */
  function ResumeState(a: string, b: string, m: string, n: string, k: nat, t: ObjTriangle): (st: ObjState)
    requires k <= 8
    ensures Wf(st)
  {
    if k == 0 then Begin(Empty)
    else if k == 1 then ObjState([], [], [], "", [[]], [], GroupRef(a, 0), MatGroup("", []))
    else if k == 2 then ObjState([], [], [], "", [[]], [], GroupRef(a, 0), MatGroup("", [t]))
    else if k == 3 then
      ObjState([], [], [], "", [[MatGroup("", [t])], []], [GroupRef(a, 0)], GroupRef(b, 1), MatGroup("", []))
    else if k == 4 then
      ObjState([], [], [], "", [[MatGroup("", [t])], []], [GroupRef(a, 0)], GroupRef(b, 1), MatGroup(m, []))
    else if k == 5 then
      ObjState([], [], [], "", [[MatGroup("", [t])], []], [GroupRef(a, 0)], GroupRef(b, 1), MatGroup(m, [t]))
    else if k == 6 then
      ObjState([], [], [], "", [[MatGroup("", [t])], [MatGroup(m, [t])]], [GroupRef(a, 0)], GroupRef(b, 1), MatGroup(n, []))
    else if k == 7 then
      ObjState([], [], [], "", [[MatGroup("", [t])], [MatGroup(m, [t])]], [GroupRef(a, 0)], GroupRef(a, 0), MatGroup(n, []))
    else
      ObjState([], [], [], "", [[MatGroup("", [t])], [MatGroup(m, [t])]], [GroupRef(a, 0)], GroupRef(a, 0), MatGroup(n, [t]))
  }

  /** A readable face line adds its triangle to the pending sub-group. */
  lemma StepFace(st: ObjState, line: string, t: ObjTriangle, parse: FloatParser)
    requires Wf(st) && KindOf(line) == Face && ParseFace(line) == Some(t)
    ensures Step(st, line, parse) == st.(matGroup := st.matGroup.(tris := st.matGroup.tris + [t]))
  {
  }

  /** A "usemtl" line closes the pending sub-group and opens one for the named material. */
  lemma StepUseMtl(st: ObjState, name: string, parse: FloatParser)
    requires Wf(st)
    ensures Step(st, "usemtl " + name, parse) == FlushMatGroup(st).(matGroup := MatGroup(name, []))
  {
    UseMtlLine(name);
  }

  /** A "g" line switches group. */
  lemma StepGroup(st: ObjState, name: string, parse: FloatParser)
    requires Wf(st)
    ensures Step(st, "g " + name, parse) == SwitchGroup(st, name)
  {
    GroupLine(name);
  }

  lemma ResumeFaces(a: string, b: string, m: string, n: string, face: string, t: ObjTriangle, parse: FloatParser)
    requires KindOf(face) == Face && ParseFace(face) == Some(t)
    ensures Step(ResumeState(a, b, m, n, 1, t), face, parse) == ResumeState(a, b, m, n, 2, t)
    ensures Step(ResumeState(a, b, m, n, 4, t), face, parse) == ResumeState(a, b, m, n, 5, t)
    ensures Step(ResumeState(a, b, m, n, 7, t), face, parse) == ResumeState(a, b, m, n, 8, t)
  {
    StepFace(ResumeState(a, b, m, n, 1, t), face, t, parse);
    StepFace(ResumeState(a, b, m, n, 4, t), face, t, parse);
    StepFace(ResumeState(a, b, m, n, 7, t), face, t, parse);
    assert [] + [t] == [t];
  }

  lemma ResumeGroups(a: string, b: string, m: string, n: string, t: ObjTriangle, parse: FloatParser)
    requires a != b && a != "UnamedMesh"
    ensures Step(ResumeState(a, b, m, n, 0, t), "g " + a, parse) == ResumeState(a, b, m, n, 1, t)
    ensures Step(ResumeState(a, b, m, n, 2, t), "g " + b, parse) == ResumeState(a, b, m, n, 3, t)
    ensures Step(ResumeState(a, b, m, n, 6, t), "g " + a, parse) == ResumeState(a, b, m, n, 7, t)
  {
    StepGroup(ResumeState(a, b, m, n, 0, t), a, parse);
    StepGroup(ResumeState(a, b, m, n, 6, t), a, parse);
    var st := ResumeState(a, b, m, n, 2, t);
    StepGroup(st, b, parse);
    assert FindGroup(st.groups, b) == None;
    assert st.lists[0] + [st.matGroup] == [MatGroup("", [t])];
    var s1 := FlushMatGroup(st);
    assert s1 == st.(lists := [[MatGroup("", [t])]], matGroup := MatGroup("", []));
  }

  lemma ResumeMaterials(a: string, b: string, m: string, n: string, t: ObjTriangle, parse: FloatParser)
    ensures Step(ResumeState(a, b, m, n, 3, t), "usemtl " + m, parse) == ResumeState(a, b, m, n, 4, t)
    ensures Step(ResumeState(a, b, m, n, 5, t), "usemtl " + n, parse) == ResumeState(a, b, m, n, 6, t)
  {
    StepUseMtl(ResumeState(a, b, m, n, 3, t), m, parse);
    var st := ResumeState(a, b, m, n, 5, t);
    StepUseMtl(st, n, parse);
    assert st.lists[1] + [st.matGroup] == [MatGroup(m, [t])];
    assert FlushMatGroup(st) == st.(lists := [[MatGroup("", [t])], [MatGroup(m, [t])]], matGroup := MatGroup(m, []));
  }

  /** Lines walks ResumeFile through the states of ResumeState. */
  lemma ResumeTrace(a: string, b: string, m: string, n: string, face: string, t: ObjTriangle, parse: FloatParser)
    requires a != b && a != "UnamedMesh"
    requires KindOf(face) == Face && ParseFace(face) == Some(t)
    ensures Lines(Begin(Empty), ResumeFile(a, b, m, n, face), parse) == ResumeState(a, b, m, n, 8, t)
  {
    ResumeFaces(a, b, m, n, face, t, parse);
    ResumeGroups(a, b, m, n, t, parse);
    ResumeMaterials(a, b, m, n, t, parse);
    var file := ResumeFile(a, b, m, n, face);
    assert file[0] == file[6] == "g " + a && file[1] == file[4] == file[7] == face && file[2] == "g " + b;
    assert file[3] == "usemtl " + m && file[5] == "usemtl " + n && file[8..] == [];
    SuffixStep(file, 0);
    LinesStep(ResumeState(a, b, m, n, 0, t), file[0], ResumeState(a, b, m, n, 1, t), file[1..], parse);
    SuffixStep(file, 1);
    LinesStep(ResumeState(a, b, m, n, 1, t), file[1], ResumeState(a, b, m, n, 2, t), file[2..], parse);
    SuffixStep(file, 2);
    LinesStep(ResumeState(a, b, m, n, 2, t), file[2], ResumeState(a, b, m, n, 3, t), file[3..], parse);
    SuffixStep(file, 3);
    LinesStep(ResumeState(a, b, m, n, 3, t), file[3], ResumeState(a, b, m, n, 4, t), file[4..], parse);
    SuffixStep(file, 4);
    LinesStep(ResumeState(a, b, m, n, 4, t), file[4], ResumeState(a, b, m, n, 5, t), file[5..], parse);
    SuffixStep(file, 5);
    LinesStep(ResumeState(a, b, m, n, 5, t), file[5], ResumeState(a, b, m, n, 6, t), file[6..], parse);
    SuffixStep(file, 6);
    LinesStep(ResumeState(a, b, m, n, 6, t), file[6], ResumeState(a, b, m, n, 7, t), file[7..], parse);
    SuffixStep(file, 7);
    LinesStep(ResumeState(a, b, m, n, 7, t), file[7], ResumeState(a, b, m, n, 8, t), file[8..], parse);
  }

  lemma SuffixStep<T>(s: seq<T>, k: nat)
    requires k < |s|
    ensures s[k..] == [s[k]] + s[k + 1..]
  {
  }

  /** A line that takes ReadObj from one state to the next. */
  lemma LinesStep(st: ObjState, line: string, next: ObjState, rest: seq<string>, parse: FloatParser)
    requires Wf(st) && Step(st, line, parse) == next
    ensures Lines(st, [line] + rest, parse) == Lines(next, rest, parse)
  {
    assert ([line] + rest)[0] == line && ([line] + rest)[1..] == rest;
  }

  /**
   * Returning to a group name already recorded switches back to that entry
   * without closing the group being left: group `a` is recorded twice, both
   * entries sharing one List, and group `b` disappears together with the
   * face drawn under material `m`.
   */
  lemma ResumedGroupIsRecordedTwice(a: string, b: string, m: string, n: string, face: string,
                                    t: ObjTriangle, parse: FloatParser)
    requires a != b && a != "UnamedMesh"
    requires KindOf(face) == Face && ParseFace(face) == Some(t)
    ensures var r := ReadObjSpec(Empty, ResumeFile(a, b, m, n, face), parse);
      var entry := (a, [MatGroup("", [t]), MatGroup(n, [t])]);
      Resolve(r.lists, r.groups) == [entry, entry]
  {
    var r := Finish(ResumeState(a, b, m, n, 8, t));
    var entry := (a, [MatGroup("", [t]), MatGroup(n, [t])]);
    ResumeTrace(a, b, m, n, face, t, parse);
    ResumeFinish(a, b, m, n, t);
    var res := Resolve(r.lists, r.groups);
    assert res[0] == entry && res[1] == entry;
    assert res == [entry, entry];
  }

  lemma ResumeFinish(a: string, b: string, m: string, n: string, t: ObjTriangle)
    ensures var r := Finish(ResumeState(a, b, m, n, 8, t));
      r.groups == [GroupRef(a, 0), GroupRef(a, 0)] && |r.lists| == 2 && r.lists[0] == [MatGroup("", [t]), MatGroup(n, [t])]
  {
    var s8 := ResumeState(a, b, m, n, 8, t);
    assert s8.lists[0] + [s8.matGroup] == [MatGroup("", [t]), MatGroup(n, [t])];
  }
}
