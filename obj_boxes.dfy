// What ObjTool.ReadCboxValues and ObjTool.AutoGenerateCBox do to collision
// boxes: which OBJ group each box is fitted to, and the shape of the tree
// built automatically. The fitting itself (a principal component analysis
// over float coordinates) is a parameter `fit`.
module ObjBoxes {
  import opened Wrappers
  import opened Machine
  import opened Records
  import opened ObjRead
  import opened ObjPack
  import opened CboxRead

  /** A group of ReadObj's result: its name and its material sub-groups. */
  type Group = (string, seq<MatGroup>)

  /** The geometry AllPca gives a box: centre, the three axes and the half lengths. */
  datatype Frame = Frame(position: Vec3, cross: Vec3, forward: Vec3, up: Vec3, length: Vec3)

  // ================================================================ ReadCboxValues

  /** The first group whose name equals `name` exactly. */
  function FirstGroup(groups: seq<Group>, name: string): (r: Option<nat>)
    ensures r.Some? ==> r.value < |groups| && groups[r.value].0 == name
    ensures r.Some? ==> forall k :: 0 <= k < r.value ==> groups[k].0 != name
    ensures r.None? ==> forall k :: 0 <= k < |groups| ==> groups[k].0 != name
  {
    if |groups| == 0 then None
    else if groups[0].0 == name then Some(0)
    else match FirstGroup(groups[1..], name)
      case None => None
      case Some(i) => Some(i + 1)
  }

  function MissingGroup(name: string): string
  {
    "Warning : the group " + name + " doesn't exist.\n"
  }

  /**
   * The outcome of fitting boxes: the groups not used, the boxes fitted in
   * order with the vertex numbers each was fitted to, the group each one
   * consumed, and the warnings logged.
   */
  datatype Fitting = Fitting(groups: seq<Group>, fits: seq<(nat, seq<int>)>, used: seq<Group>, warnings: seq<string>)

  function Then(a: Fitting, b: Fitting): Fitting
  {
    Fitting(b.groups, a.fits + b.fits, a.used + b.used, a.warnings + b.warnings)
  }

  predicate Links(boxes: seq<CboxNode>)
  {
    forall k :: 0 <= k < |boxes| ==> IsLink(boxes, boxes[k].left) && IsLink(boxes, boxes[k].right)
  }

  /**
   * ReadCboxValues(box): the first group named like the box is removed and
   * the box fitted to its vertices, then the left and the right child are
   * handled the same way; a box without a group is reported and its
   * children are not visited.
   */
  function FitBox(boxes: seq<CboxNode>, b: nat, groups: seq<Group>): (r: Fitting)
    requires Links(boxes) && b < |boxes|
    ensures |r.groups| <= |groups|
    decreases |groups|
  {
    var node := boxes[b];
    match FirstGroup(groups, node.name)
    case None => Fitting(groups, [], [], [MissingGroup(node.name)])
    case Some(i) =>
      var rest := groups[..i] + groups[i + 1..];
      var here := Fitting(rest, [(b, CboxPoints(groups[i].1))], [groups[i]], []);
      var afterLeft := if node.left.Some? then Then(here, FitBox(boxes, node.left.value, rest)) else here;
      if node.right.Some? then Then(afterLeft, FitBox(boxes, node.right.value, afterLeft.groups)) else afterLeft
  }

  /** FitBox on a box without a group of its name. */
  lemma FitBoxMissing(boxes: seq<CboxNode>, b: nat, groups: seq<Group>)
    requires Links(boxes) && b < |boxes| && FirstGroup(groups, boxes[b].name).None?
    ensures FitBox(boxes, b, groups) == Fitting(groups, [], [], [MissingGroup(boxes[b].name)])
  {
  }

  /** FitBox on a box whose group is at `i`, in terms of what its left child leaves. */
  lemma FitBoxFound(boxes: seq<CboxNode>, b: nat, groups: seq<Group>, i: nat, afterLeft: Fitting, r: Fitting)
    requires Links(boxes) && b < |boxes| && FirstGroup(groups, boxes[b].name) == Some(i)
    requires var rest := groups[..i] + groups[i + 1..];
      var here := Fitting(rest, [(b, CboxPoints(groups[i].1))], [groups[i]], []);
      afterLeft == if boxes[b].left.Some? then Then(here, FitBox(boxes, boxes[b].left.value, rest)) else here
    requires r == if boxes[b].right.Some? then Then(afterLeft, FitBox(boxes, boxes[b].right.value, afterLeft.groups))
                  else afterLeft
    ensures FitBox(boxes, b, groups) == r
  {
  }

  /** Each fitted box consumed one group of its own name, and was fitted to that group's vertices. */
  predicate FitsMatch(boxes: seq<CboxNode>, f: Fitting)
  {
    |f.fits| == |f.used|
    && forall k :: 0 <= k < |f.fits| ==>
         f.fits[k].0 < |boxes| && boxes[f.fits[k].0].name == f.used[k].0 && f.fits[k].1 == CboxPoints(f.used[k].1)
  }

  /** The groups left over and the groups used together are the groups there were. */
  predicate Conserves(groups: seq<Group>, f: Fitting)
  {
    multiset(f.groups) + multiset(f.used) == multiset(groups)
  }

  lemma ThenKeeps(boxes: seq<CboxNode>, groups: seq<Group>, a: Fitting, b: Fitting)
    requires FitsMatch(boxes, a) && FitsMatch(boxes, b)
    requires Conserves(groups, a) && Conserves(a.groups, b)
    ensures FitsMatch(boxes, Then(a, b)) && Conserves(groups, Then(a, b))
  {
    var t := Then(a, b);
    forall k | 0 <= k < |t.fits|
      ensures t.fits[k].0 < |boxes| && boxes[t.fits[k].0].name == t.used[k].0 && t.fits[k].1 == CboxPoints(t.used[k].1)
    {
      if k >= |a.fits| {
        assert t.fits[k] == b.fits[k - |a.fits|] && t.used[k] == b.used[k - |a.fits|];
      }
    }
  }

  /**
   * ReadCboxValues removes exactly the groups it fits boxes to (no group is
   * lost or duplicated), and each box fitted got the vertices of a group of
   * its own name.
   */
  lemma {:induction false} FitBoxCorrect(boxes: seq<CboxNode>, b: nat, groups: seq<Group>)
    requires Links(boxes) && b < |boxes|
    ensures FitsMatch(boxes, FitBox(boxes, b, groups)) && Conserves(groups, FitBox(boxes, b, groups))
    decreases |groups|
  {
    var node := boxes[b];
    match FirstGroup(groups, node.name)
    case None =>
    case Some(i) =>
      var rest := groups[..i] + groups[i + 1..];
      assert groups == groups[..i] + [groups[i]] + groups[i + 1..];
      var here := Fitting(rest, [(b, CboxPoints(groups[i].1))], [groups[i]], []);
      assert FitsMatch(boxes, here) && Conserves(groups, here);
      var afterLeft := if node.left.Some? then Then(here, FitBox(boxes, node.left.value, rest)) else here;
      if node.left.Some? {
        FitBoxCorrect(boxes, node.left.value, rest);
        ThenKeeps(boxes, groups, here, FitBox(boxes, node.left.value, rest));
      }
      if node.right.Some? {
        FitBoxCorrect(boxes, node.right.value, afterLeft.groups);
        ThenKeeps(boxes, groups, afterLeft, FitBox(boxes, node.right.value, afterLeft.groups));
      }
  }

  /** A box with no group of its name is reported, and nothing below it is fitted. */
  lemma UnmatchedBoxStops(boxes: seq<CboxNode>, b: nat, groups: seq<Group>)
    requires Links(boxes) && b < |boxes|
    requires forall k :: 0 <= k < |groups| ==> groups[k].0 != boxes[b].name
    ensures FitBox(boxes, b, groups) == Fitting(groups, [], [], [MissingGroup(boxes[b].name)])
  {
    assert FirstGroup(groups, boxes[b].name).None?;
  }

  /** The first box fitted is the box itself, fitted to the first group of its name. */
  lemma FitBoxStartsAtBox(boxes: seq<CboxNode>, b: nat, groups: seq<Group>, i: nat)
    requires Links(boxes) && b < |boxes|
    requires i < |groups| && groups[i].0 == boxes[b].name
    requires forall k :: 0 <= k < i ==> groups[k].0 != boxes[b].name
    ensures var r := FitBox(boxes, b, groups);
      |r.fits| > 0 && r.fits[0] == (b, CboxPoints(groups[i].1)) && r.used[0] == groups[i]
  {
    var node := boxes[b];
    assert FirstGroup(groups, node.name) == Some(i);
  }

  /** The foreach over cboxGroups in the converters: each mesh's root box in turn. */
  function FitRoots(boxes: seq<CboxNode>, roots: seq<(string, nat)>, groups: seq<Group>): (r: Fitting)
    requires Links(boxes) && forall j :: 0 <= j < |roots| ==> roots[j].1 < |boxes|
    decreases |roots|
  {
    if |roots| == 0 then Fitting(groups, [], [], [])
    else
      var first := FitBox(boxes, roots[0].1, groups);
      Then(first, FitRoots(boxes, roots[1..], first.groups))
  }

  lemma {:induction false} FitRootsCorrect(boxes: seq<CboxNode>, roots: seq<(string, nat)>, groups: seq<Group>)
    requires Links(boxes) && forall j :: 0 <= j < |roots| ==> roots[j].1 < |boxes|
    ensures FitsMatch(boxes, FitRoots(boxes, roots, groups)) && Conserves(groups, FitRoots(boxes, roots, groups))
    decreases |roots|
  {
    if |roots| > 0 {
      var first := FitBox(boxes, roots[0].1, groups);
      FitBoxCorrect(boxes, roots[0].1, groups);
      FitRootsCorrect(boxes, roots[1..], first.groups);
      ThenKeeps(boxes, groups, first, FitRoots(boxes, roots[1..], first.groups));
    }
  }

  // ================================================================ AutoGenerateCBox

  /**
   * One side of the split of a box's triangles, in order: a triangle goes
   * left when the centre of its bounding box, projected on the box's longest
   * axis, lies below the projection of the mean AllPca gives for the box's
   * points, and right otherwise (ties go right).
   */
  function Side(tris: seq<ObjTriangle>, below: (Frame, ObjTriangle) -> bool, frame: Frame, left: bool): (r: seq<ObjTriangle>)
  {
    if |tris| == 0 then []
    else (if below(frame, tris[0]) == left then [tris[0]] else []) + Side(tris[1..], below, frame, left)
  }

  /** A side holds triangles of the input, each on the side `below` puts it. */
  lemma {:induction false} SideKeeps(tris: seq<ObjTriangle>, below: (Frame, ObjTriangle) -> bool, frame: Frame, left: bool)
    ensures forall t :: t in Side(tris, below, frame, left) ==> t in tris && below(frame, t) == left
  {
    if |tris| > 0 {
      SideKeeps(tris[1..], below, frame, left);
    }
  }

  /** Every triangle goes to exactly one side: the two sides together are a permutation of the input. */
  lemma {:induction false} PartitionIsPermutation(tris: seq<ObjTriangle>, below: (Frame, ObjTriangle) -> bool, frame: Frame)
    ensures multiset(Side(tris, below, frame, true)) + multiset(Side(tris, below, frame, false)) == multiset(tris)
  {
    if |tris| > 0 {
      PartitionIsPermutation(tris[1..], below, frame);
      assert tris == [tris[0]] + tris[1..];
    }
  }

  /** Both sides of a partition keep every vertex lookup valid. */
  lemma SidesInRange(tris: seq<ObjTriangle>, below: (Frame, ObjTriangle) -> bool, frame: Frame, vCount: nat)
    requires InRange(tris, vCount)
    ensures InRange(Side(tris, below, frame, true), vCount) && InRange(Side(tris, below, frame, false), vCount)
  {
    SideKeeps(tris, below, frame, true);
    SideKeeps(tris, below, frame, false);
  }

  /** Every vertex number of the triangles can be looked up in `v` (v[n - 1] does not throw). */
  predicate InRange(tris: seq<ObjTriangle>, vCount: nat)
  {
    forall t :: t in tris ==> 1 <= t.p0[0] <= vCount && 1 <= t.p1[0] <= vCount && 1 <= t.p2[0] <= vCount
  }

  /** The vertices of one triangle are all among the first vCount. */
  predicate TriInRange(t: ObjTriangle, vCount: nat)
  {
    1 <= t.p0[0] <= vCount && 1 <= t.p1[0] <= vCount && 1 <= t.p2[0] <= vCount
  }

  /** The faces from position j on: face j, then the ones after it. */
  lemma SideAt(tris: seq<ObjTriangle>, j: nat, below: (Frame, ObjTriangle) -> bool, frame: Frame, vCount: nat)
    requires j < |tris|
    ensures Side(tris[j..], below, frame, true)
         == (if below(frame, tris[j]) then [tris[j]] else []) + Side(tris[j + 1..], below, frame, true)
    ensures Side(tris[j..], below, frame, false)
         == (if below(frame, tris[j]) then [] else [tris[j]]) + Side(tris[j + 1..], below, frame, false)
    ensures InRange(tris[j..], vCount) <==> TriInRange(tris[j], vCount) && InRange(tris[j + 1..], vCount)
  {
    assert tris[j..][0] == tris[j] && tris[j..][1..] == tris[j + 1..];
    assert forall t :: t in tris[j..] <==> t == tris[j] || t in tris[j + 1..];
  }

  function FittedBox(level: u32, f: Frame): Box
  {
    Box("", level, f.position, f.cross, f.forward, f.up, f.length, None, None)
  }

  /**
   * AutoGenerateCBox on a new box at `level` holding `tris`: the box is
   * fitted to the triangles' vertices, and below level 5 it gets two
   * children at level + 1 holding the two sides of the partition. None
   * where a vertex lookup throws.
   */
  function AutoTree(level: u32, tris: seq<ObjTriangle>, vCount: nat,
                    fit: seq<int> -> Frame, below: (Frame, ObjTriangle) -> bool): (r: Option<Box>)
    ensures level <= MaxLevel ==> (r.None? <==> level < MaxLevel && !InRange(tris, vCount))
    ensures level <= MaxLevel && r.Some? ==>
      ShapeOf(r.value) == Perfect(level) && r.value.position == fit(FacePoints([], tris)).position
    decreases MaxLevel as int - level as int
  {
    var frame := fit(FacePoints([], tris));
    var box := FittedBox(level, frame);
    if level >= MaxLevel then Some(box)
    else if !InRange(tris, vCount) then None
    else
      var l := Side(tris, below, frame, true);
      var rt := Side(tris, below, frame, false);
      SidesInRange(tris, below, frame, vCount);
      ChildrenOf(box, AutoTree(level + 1, l, vCount, fit, below), AutoTree(level + 1, rt, vCount, fit, below))
  }

  /** A fitted box with both children generated, or None where either child failed. */
  function ChildrenOf(box: Box, lb: Option<Box>, rb: Option<Box>): (r: Option<Box>)
    ensures r.Some? <==> lb.Some? && rb.Some?
    ensures r.Some? ==> r.value == box.(left := lb, right := rb)
  {
    if lb.Some? && rb.Some? then Some(box.(left := lb, right := rb)) else None
  }

  /** AutoTree below level 5 on faces whose vertices exist, in terms of its two children. */
  lemma AutoTreeSplit(level: u32, tris: seq<ObjTriangle>, vCount: nat, fit: seq<int> -> Frame,
                      below: (Frame, ObjTriangle) -> bool, frame: Frame, l: seq<ObjTriangle>, rt: seq<ObjTriangle>)
    requires level < MaxLevel && InRange(tris, vCount) && frame == fit(FacePoints([], tris))
    requires l == Side(tris, below, frame, true) && rt == Side(tris, below, frame, false)
    ensures var lb, rb := AutoTree(level + 1, l, vCount, fit, below), AutoTree(level + 1, rt, vCount, fit, below);
      AutoTree(level, tris, vCount, fit, below)
      == ChildrenOf(FittedBox(level, frame), lb, rb)
  {
  }

  /** The shape of a box hierarchy: the level of every box, and where children are missing. */
  datatype Shape = Leaf(level: u32) | Node(level: u32, left: Shape, right: Shape) | OneChild

  function ShapeOf(b: Box): Shape
    decreases b
  {
    if b.left.Some? && b.right.Some? then Node(b.level, ShapeOf(b.left.value), ShapeOf(b.right.value))
    else if b.left.None? && b.right.None? then Leaf(b.level)
    else OneChild
  }

  /** The shape of a complete tree from `level` down to level 5, with levels counting up by one. */
  function Perfect(level: u32): Shape
    requires level <= MaxLevel
    decreases MaxLevel as int - level as int
  {
    if level == MaxLevel then Leaf(level) else Node(level, Perfect(level + 1), Perfect(level + 1))
  }

  predicate Complete(b: Box, level: u32)
    requires level <= MaxLevel
  {
    ShapeOf(b) == Perfect(level)
  }

  function Pow2(n: nat): (r: nat)
    ensures r >= 1
  {
    if n == 0 then 1 else 2 * Pow2(n - 1)
  }

  lemma {:induction false} CompleteCount(b: Box, level: u32)
    requires level <= MaxLevel && Complete(b, level)
    ensures BoxCount(b) == Pow2(MaxLevel as nat - level as nat + 1) - 1
    decreases MaxLevel as int - level as int
  {
    if level < MaxLevel {
      assert b.left.Some? && b.right.Some?;
      CompleteCount(b.left.value, level + 1);
      CompleteCount(b.right.value, level + 1);
    }
  }

  /**
   * A complete tree from level 0, which AutoGenerateCBox builds from a new
   * root whose vertices all exist, holds 2^6 - 1 = 63 boxes.
   */
  lemma RootCount(b: Box)
    requires Complete(b, 0)
    ensures BoxCount(b) == 63
  {
    CompleteCount(b, 0);
    assert Pow2(6) == 64;
  }
}
