// What ObjTool.ReadCbox builds from a ".cbox" file: the collision boxes of
// each mesh, linked to their children. Boxes are objects in the source and a
// box can be reached from several parents, so the model keeps them in an
// arena (`boxes`) and links them by index.
module CboxRead {
  import opened Wrappers
  import opened Machine
  import opened Text

  /** A CollisionBox as ReadCbox fills it: name, depth and child links. */
  datatype CboxNode = CboxNode(name: string, level: u32, left: Option<nat>, right: Option<nat>)

  /**
   * The arena, the local `cboxGroup` (mesh name and the List of its boxes)
   * and the field `cboxGroups` (mesh name, root box).
   */
  datatype CboxState = CboxState(boxes: seq<CboxNode>, meshName: string, list: seq<nat>,
                                 cboxGroups: seq<(string, nat)>)

  predicate IsLink(boxes: seq<CboxNode>, link: Option<nat>)
  {
    link.Some? ==> link.value < |boxes|
  }

  /** Every index in the state names a box of the arena. */
  predicate Wf(st: CboxState)
  {
    (forall j :: 0 <= j < |st.list| ==> st.list[j] < |st.boxes|)
    && (forall j :: 0 <= j < |st.cboxGroups| ==> st.cboxGroups[j].1 < |st.boxes|)
    && (forall k :: 0 <= k < |st.boxes| ==> IsLink(st.boxes, st.boxes[k].left) && IsLink(st.boxes, st.boxes[k].right))
  }

  const MaxLevel: u32 := 5

  /** List.Find on the current mesh's boxes: the first one with this name. */
  function FindBox(st: CboxState, name: string): (r: Option<nat>)
    requires Wf(st)
    ensures r.Some? ==> r.value in st.list && st.boxes[r.value].name == name
    ensures r.None? ==> forall j :: 0 <= j < |st.list| ==> st.boxes[st.list[j]].name != name
  {
    FindIn(st.boxes, st.list, name)
  }

  function FindIn(boxes: seq<CboxNode>, list: seq<nat>, name: string): (r: Option<nat>)
    requires forall j :: 0 <= j < |list| ==> list[j] < |boxes|
    ensures r.Some? ==> r.value in list && boxes[r.value].name == name
    ensures r.None? ==> forall j :: 0 <= j < |list| ==> boxes[list[j]].name != name
  {
    if |list| == 0 then None
    else if boxes[list[0]].name == name then Some(list[0])
    else FindIn(boxes, list[1..], name)
  }

  /** A new box with no children, added to the arena and to the current mesh's List. */
  function NewBox(st: CboxState, name: string, level: u32): (r: CboxState)
    requires Wf(st)
    ensures Wf(r)
  {
    st.(boxes := st.boxes + [CboxNode(name, level, None, None)], list := st.list + [|st.boxes|])
  }

  /** The box named `name`, created one level below `level` when the mesh has none. */
  function FindOrNew(st: CboxState, name: string, level: u32): (r: (CboxState, nat))
    requires Wf(st) && level < MaxLevel
    ensures Wf(r.0) && r.1 < |r.0.boxes| && |st.boxes| <= |r.0.boxes|
    ensures r.0.boxes[..|st.boxes|] == st.boxes && r.0.meshName == st.meshName && r.0.cboxGroups == st.cboxGroups
  {
    match FindBox(st, name)
    case Some(k) => (st, k)
    case None => (NewBox(st, name, level + 1), |st.boxes|)
  }

  /**
   * The child fields of "CBOX <box> <left> <right>" (after empty fields are
   * dropped): fields 2 and 3 name the children; a missing field ends the line
   * where it is needed.
   */
  function SetChildren(st: CboxState, b: nat, s: seq<string>): (r: CboxState)
    requires Wf(st) && b < |st.boxes| && st.boxes[b].level < MaxLevel
    ensures Wf(r) && |st.boxes| <= |r.boxes| && r.meshName == st.meshName && r.cboxGroups == st.cboxGroups
  {
    if |s| < 3 then st
    else
      var level := st.boxes[b].level;
      var (s1, l) := FindOrNew(st, s[2], level);
      var s2 := s1.(boxes := s1.boxes[b := s1.boxes[b].(left := Some(l))]);
      if |s| < 4 then s2
      else
        var (s3, r) := FindOrNew(s2, s[3], level);
        s3.(boxes := s3.boxes[b := s3.boxes[b].(right := Some(r))])
  }

  /** One line of the file; Fail where ReadCbox throws. */
  function CboxStep(st: CboxState, line: string): (r: (CboxState, Outcome))
    requires Wf(st)
    ensures Wf(r.0)
  {
    if StartsWith(line, "MESH\t") then
      var st1 := if |st.list| > 0 then st.(cboxGroups := st.cboxGroups + [(st.meshName, st.list[0])], list := []) else st;
      (st1.(meshName := line[5..]), Pass)
    else if StartsWith(line, "CBOX\t") && !IsBlank(st.meshName) then
      var s := SplitN(line, '\t', 4, true);
      if |s| < 2 then
        // List.Find reads s[1] only when the List has a box to test
        if |st.list| > 0 then (st, Pass) else (st, Fail("Index was outside the bounds of the array."))
      else
        match FindBox(st, s[1])
        case None =>
          var st1 := NewBox(st, s[1], 0);
          (SetChildren(st1, |st.boxes|, s), Pass)
        case Some(b) =>
          if st.boxes[b].level < MaxLevel then (SetChildren(st, b, s), Pass) else (st, Pass)
    else (st, Pass)
  }

  /** The rest of the file; the first failure ends the read. */
  function CboxLines(st: CboxState, lines: seq<string>): (r: (CboxState, Outcome))
    requires Wf(st)
    ensures Wf(r.0)
    decreases |lines|
  {
    if |lines| == 0 then (st, Pass)
    else
      var (st1, o) := CboxStep(st, lines[0]);
      if o.Fail? then (st1, o) else CboxLines(st1, lines[1..])
  }

  /** After the last line the open mesh is recorded with its first box as root. */
  function FinishCbox(st: CboxState): (r: CboxState)
    requires Wf(st)
    ensures Wf(r)
  {
    if |st.list| > 0 then st.(cboxGroups := st.cboxGroups + [(st.meshName, st.list[0])]) else st
  }

  /** ReadCbox from the tool's arena and `cboxGroups`. */
  function ReadCboxSpec(boxes: seq<CboxNode>, cboxGroups: seq<(string, nat)>, lines: seq<string>): (r: (CboxState, Outcome))
    requires Wf(CboxState(boxes, "", [], cboxGroups))
    ensures Wf(r.0)
  {
    var (st, o) := CboxLines(CboxState(boxes, "", [], cboxGroups), lines);
    if o.Fail? then (st, o) else (FinishCbox(st), Pass)
  }

  // ---------------------------------------------------------------- what ReadCbox promises

  /** Box lines are ignored until a "MESH" line names a mesh. */
  lemma BlankMeshIgnoresBoxes(st: CboxState, line: string)
    requires Wf(st) && IsBlank(st.meshName) && !StartsWith(line, "MESH\t")
    ensures CboxStep(st, line) == (st, Pass)
  {
  }

  /** No box is deeper than level 5. */
  predicate LevelsBounded(boxes: seq<CboxNode>)
  {
    forall k :: 0 <= k < |boxes| ==> boxes[k].level <= MaxLevel
  }

  lemma FindOrNewBounded(st: CboxState, name: string, level: u32)
    requires Wf(st) && level < MaxLevel && LevelsBounded(st.boxes)
    ensures LevelsBounded(FindOrNew(st, name, level).0.boxes)
  {
  }

  lemma SetChildrenBounded(st: CboxState, b: nat, s: seq<string>)
    requires Wf(st) && b < |st.boxes| && st.boxes[b].level < MaxLevel && LevelsBounded(st.boxes)
    ensures LevelsBounded(SetChildren(st, b, s).boxes)
  {
    if |s| >= 3 {
      var level := st.boxes[b].level;
      FindOrNewBounded(st, s[2], level);
      var (s1, l) := FindOrNew(st, s[2], level);
      var s2 := s1.(boxes := s1.boxes[b := s1.boxes[b].(left := Some(l))]);
      if |s| >= 4 {
        FindOrNewBounded(s2, s[3], level);
      }
    }
  }

  lemma {:induction false} CboxLinesBounded(st: CboxState, lines: seq<string>)
    requires Wf(st) && LevelsBounded(st.boxes)
    ensures LevelsBounded(CboxLines(st, lines).0.boxes)
    decreases |lines|
  {
    if |lines| > 0 {
      var line := lines[0];
      if StartsWith(line, "CBOX\t") && !IsBlank(st.meshName) {
        var s := SplitN(line, '\t', 4, true);
        if |s| >= 2 {
          match FindBox(st, s[1])
          case None =>
            SetChildrenBounded(NewBox(st, s[1], 0), |st.boxes|, s);
          case Some(b) =>
            if st.boxes[b].level < MaxLevel {
              SetChildrenBounded(st, b, s);
            }
        }
      }
      var (st1, o) := CboxStep(st, line);
      if o.Pass? {
        CboxLinesBounded(st1, lines[1..]);
      }
    }
  }

  /** ReadCbox never builds a box deeper than level 5: each child is one level below its creator. */
  lemma ReadCboxLevelsBounded(boxes: seq<CboxNode>, cboxGroups: seq<(string, nat)>, lines: seq<string>)
    requires Wf(CboxState(boxes, "", [], cboxGroups)) && LevelsBounded(boxes)
    ensures LevelsBounded(ReadCboxSpec(boxes, cboxGroups, lines).0.boxes)
  {
    CboxLinesBounded(CboxState(boxes, "", [], cboxGroups), lines);
  }

  /** A child the mesh does not have yet is created one level below its parent and linked as its left child. */
  lemma NewLeftChildIsOneLevelDown(st: CboxState, b: nat, s: seq<string>)
    requires Wf(st) && b < |st.boxes| && st.boxes[b].level < MaxLevel && |s| >= 3
    requires FindBox(st, s[2]).None?
    ensures var r := SetChildren(st, b, s);
      |r.boxes| > |st.boxes| && r.boxes[b].left == Some(|st.boxes|)
      && r.boxes[|st.boxes|].name == s[2] && r.boxes[|st.boxes|].level == st.boxes[b].level + 1
  {
  }

  /** A box already at level 5 or deeper keeps its children whatever the line says. */
  lemma DeepBoxIgnored(st: CboxState, line: string)
    requires Wf(st) && StartsWith(line, "CBOX\t") && !IsBlank(st.meshName)
    requires var s := SplitN(line, '\t', 4, true);
      |s| >= 2 && FindBox(st, s[1]).Some? && st.boxes[FindBox(st, s[1]).value].level >= MaxLevel
    ensures CboxStep(st, line) == (st, Pass)
  {
  }

  /**
   * ReadCbox throws exactly on a box line with no box name under a named
   * mesh that has no box yet; with a box already there the line is skipped.
   */
  lemma CboxStepFails(st: CboxState, line: string)
    requires Wf(st)
    ensures CboxStep(st, line).1.Fail? <==>
      (!StartsWith(line, "MESH\t") && StartsWith(line, "CBOX\t") && !IsBlank(st.meshName)
       && |SplitN(line, '\t', 4, true)| < 2 && |st.list| == 0)
  {
  }

  /**
   * Empty fields are dropped before the fields are counted, so a line with an
   * empty left field and a right field gives the box only a left child, the
   * one named as right.
   */
  lemma EmptyLeftFieldShiftsRight(mesh: string, box: string, right: string)
    requires !IsBlank(mesh) && box != "" && right != "" && box != right
    requires '\t' !in box && '\t' !in right
    ensures var st := CboxState([], mesh, [], []);
      var r := CboxStep(st, "CBOX\t" + box + "\t\t" + right).0;
      r.boxes == [CboxNode(box, 0, Some(1), None), CboxNode(right, 1, None, None)]
  {
    var line := "CBOX\t" + box + "\t\t" + right;
    assert line[..5] == "CBOX\t";
    assert !StartsWith(line, "MESH\t") by {
      assert line[0] == 'C';
    }
    SplitDropsEmpty(box, right);
  }

  lemma SplitDropsEmpty(box: string, right: string)
    requires box != "" && right != "" && '\t' !in box && '\t' !in right
    ensures SplitN("CBOX\t" + box + "\t\t" + right, '\t', 4, true) == ["CBOX", box, right]
  {
    var r2 := ['\t'] + right;
    var r1 := box + ['\t'] + r2;
    assert "CBOX\t" + box + "\t\t" + right == "CBOX" + ['\t'] + r1;
    SplitNRemoveCons("CBOX", '\t', r1, 4);
    SplitNRemoveCons(box, '\t', r2, 3);
    SplitNRemoveLead('\t', right, 2);
    SplitNWhole(right, '\t', 2);
  }
}
