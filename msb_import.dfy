// What importing one mesh scene file does to a tool that may already hold
// elements: the items each section's loop adds before an exception ends it,
// the displayed names they take (renamed past the names already registered),
// the shift of their parent ids past the registry, and the message of the
// exception that ends the import.
module MsbImport {
  import opened Wrappers
  import opened Machine
  import opened Text
  import opened Binary
  import opened MsbRecords
  import opened MsbNames
  import opened MsbParse

  /**
   * ParentId, or a motion's NodeId, after `+= _parentcount`: a non-negative
   * id is moved past the registered names, wrapping as a 32-bit int; a
   * negative one (no parent) is kept.
   */
  function ShiftId(id: int, shift: int): (r: int)
    ensures IsInt32(r) || r == id
    ensures id < 0 ==> r == id
    ensures id >= 0 && IsInt32(id + shift) ==> r == id + shift
  {
    if id >= 0 then AsInt32(AsUInt32(id + shift)) else id
  }

  /**
   * What a section's loop leaves: the items it added, the displayed names
   * they took, the stream after them, and whether an item ended the loop
   * with an exception (its read failed, or ProcessName threw).
   */
  datatype Loaded<T> = Loaded(items: seq<T>, names: seq<string>, rest: seq<byte>, failed: bool)

  /** Nothing added: a section the import never reached. */
  function Unreached<T>(): Loaded<T>
  {
    Loaded([], [], [], false)
  }

  /**
   * Up to `n` items read one after another and added under the name
   * ProcessName gives them against `texts` and the names added before them;
   * stops at the first item that cannot be read or named.
   */
  function Load<T>(read: seq<byte> -> Option<(T, seq<byte>)>, nameOf: T -> string, s: seq<byte>,
                   texts: seq<string>, n: nat): (r: Loaded<T>)
    ensures |r.items| == |r.names| <= n
    ensures !r.failed ==> |r.items| == n
  {
    if n == 0 then Loaded([], [], s, false)
    else
      var l := Load(read, nameOf, s, texts, n - 1);
      if l.failed then l
      else
        match read(l.rest)
        case None => l.(failed := true)
        case Some((x, r)) =>
          match ProcessedName(nameOf(x), texts + l.names)
          case None => l.(failed := true)
          case Some(name) => Loaded(l.items + [x], l.names + [name], r, false)
  }

  /** One more turn of the loop, when the next item reads and takes a name. */
  lemma LoadStep<T>(read: seq<byte> -> Option<(T, seq<byte>)>, nameOf: T -> string, s: seq<byte>,
                    texts: seq<string>, i: nat, x: T, r: seq<byte>, name: string)
    requires var l := Load(read, nameOf, s, texts, i);
      !l.failed && read(l.rest) == Some((x, r)) && ProcessedName(nameOf(x), texts + l.names) == Some(name)
    ensures var l := Load(read, nameOf, s, texts, i);
      Load(read, nameOf, s, texts, i + 1) == Loaded(l.items + [x], l.names + [name], r, false)
  {
  }

  /** An item that cannot be read or named ends the loop: the items before it are all there is. */
  lemma LoadEnds<T>(read: seq<byte> -> Option<(T, seq<byte>)>, nameOf: T -> string, s: seq<byte>,
                    texts: seq<string>, i: nat, n: nat)
    requires i < n
    requires var l := Load(read, nameOf, s, texts, i);
      !l.failed && (read(l.rest).None? || ProcessedName(nameOf(read(l.rest).value.0), texts + l.names).None?)
    ensures Load(read, nameOf, s, texts, n) == Load(read, nameOf, s, texts, i).(failed := true)
  {
    LoadStops(read, nameOf, s, texts, i + 1, n);
  }

  /** Once an item fails, a longer loop adds nothing more. */
  lemma {:induction false} LoadStops<T>(read: seq<byte> -> Option<(T, seq<byte>)>, nameOf: T -> string,
                                        s: seq<byte>, texts: seq<string>, k: nat, n: nat)
    requires k <= n && Load(read, nameOf, s, texts, k).failed
    ensures Load(read, nameOf, s, texts, n) == Load(read, nameOf, s, texts, k)
    decreases n
  {
    if n > k {
      LoadStops(read, nameOf, s, texts, k, n - 1);
    }
  }

  /**
   * The items added are the ones the same reads give without the naming:
   * the first |items| reads succeed and leave the same stream, and a loop
   * that did not fail read all `n` items.
   */
  lemma {:induction false} LoadReads<T>(read: seq<byte> -> Option<(T, seq<byte>)>, nameOf: T -> string,
                                        s: seq<byte>, texts: seq<string>, n: nat)
    ensures var l := Load(read, nameOf, s, texts, n);
      ReadRun(read, s, |l.items|) == Run(l.items, l.rest, true)
    ensures var l := Load(read, nameOf, s, texts, n);
      !l.failed ==> ReadRun(read, s, n) == Run(l.items, l.rest, true)
  {
    if n > 0 {
      LoadReads(read, nameOf, s, texts, n - 1);
      var l := Load(read, nameOf, s, texts, n - 1);
      if !l.failed {
        assert |l.items| == n - 1;
      }
    }
  }

  /** Each of `names` is new: neither in `texts` nor among the names before it. */
  predicate Fresh(texts: seq<string>, names: seq<string>)
    decreases |names|
  {
    |names| == 0 || (Fresh(texts, names[..|names| - 1]) && names[|names| - 1] !in texts + names[..|names| - 1])
  }

  /** Fresh, name by name. */
  lemma {:induction false} FreshAt(texts: seq<string>, names: seq<string>, i: nat)
    requires Fresh(texts, names) && i < |names|
    ensures names[i] !in texts + names[..i]
    decreases |names|
  {
    if i < |names| - 1 {
      var front := names[..|names| - 1];
      FreshAt(texts, front, i);
      assert front[..i] == names[..i];
    }
  }

  /** Every name taken is new: it is neither registered nor taken by an earlier item. */
  lemma {:induction false} LoadNames<T>(read: seq<byte> -> Option<(T, seq<byte>)>, nameOf: T -> string,
                                        s: seq<byte>, texts: seq<string>, n: nat)
    ensures Fresh(texts, Load(read, nameOf, s, texts, n).names)
  {
    if n > 0 {
      LoadNames(read, nameOf, s, texts, n - 1);
      var l := Load(read, nameOf, s, texts, n - 1);
      var l' := Load(read, nameOf, s, texts, n);
      if |l'.names| > |l.names| {
        assert l'.names[..|l'.names| - 1] == l.names;
      }
    }
  }

  /** An item whose own name is new keeps it. */
  lemma {:induction false} LoadKeepsName<T>(read: seq<byte> -> Option<(T, seq<byte>)>, nameOf: T -> string,
                                            s: seq<byte>, texts: seq<string>, n: nat, i: nat)
    requires var l := Load(read, nameOf, s, texts, n); i < |l.names| && nameOf(l.items[i]) !in texts + l.names[..i]
    ensures var l := Load(read, nameOf, s, texts, n); l.names[i] == nameOf(l.items[i])
  {
    var l := Load(read, nameOf, s, texts, n - 1);
    var l' := Load(read, nameOf, s, texts, n);
    if |l'.names| == |l.names| {
      assert l'.names == l.names && l'.items == l.items;
      LoadKeepsName(read, nameOf, s, texts, n - 1, i);
    } else if i < |l.names| {
      assert l'.names[..i] == l.names[..i];
      LoadKeepsName(read, nameOf, s, texts, n - 1, i);
    } else {
      assert l'.names[..i] == l.names;
    }
  }

  function ElementName(x: ElementData): string
  {
    x.realName
  }

  function AnimationName(x: AnimationData): string
  {
    x.realName
  }

  /** The item loop of a section that starts with its tagged uint count; None when the count cannot be read. */
  function LoadSection<T>(read: seq<byte> -> Option<(T, seq<byte>)>, nameOf: T -> string, s: seq<byte>,
                          texts: seq<string>): Option<Loaded<T>>
  {
    match TaggedU32(s)
    case None => None
    case Some((n, r)) => Some(Load(read, nameOf, r, texts, n))
  }

  const HeaderFailure: string := "Failed to read the mesh scene name.\n"

  /** The message of a section whose count cannot be read; `what` is "node", "mesh", "bone" or "animation". */
  function CountFailure(what: string): string
  {
    "Failed to read the " + what + " count.\n"
  }

  /** The message of the node, mesh or bone numbered k + 1 that cannot be read or named. */
  function ItemFailure(what: string, k: nat): string
  {
    "Failed to read the " + what + " number " + NatToString(k + 1) + ".\n"
  }

  /** The same for an animation, worded without "the". */
  function AnimationFailure(k: nat): string
  {
    "Failed to read animation number " + NatToString(k + 1) + ".\n"
  }

  function KindWord(kind: Kind): string
  {
    match kind
    case NodeKind => "node"
    case MeshKind => "mesh"
    case BoneKind => "bone"
  }

  /** What one import adds, list by list, and the message of the exception that ended it, if one did. */
  datatype Imported = Imported(nodes: Loaded<ElementData>, meshes: Loaded<ElementData>, bones: Loaded<ElementData>,
                               animations: Loaded<AnimationData>, error: Option<string>)

  /** An element section of `kind` as Import runs it: the count, then that many elements loaded against `texts`. */
  function ElementStage(kind: Kind, s: seq<byte>, texts: seq<string>): Option<Loaded<ElementData>>
  {
    LoadSection(ElementReader(kind), ElementName, s, texts)
  }

  /** The message an element section ends the import with, if it does. */
  function StageError(kind: Kind, l: Option<Loaded<ElementData>>): Option<string>
  {
    if l.None? then Some(CountFailure(KindWord(kind)))
    else if l.value.failed then Some(ItemFailure(KindWord(kind), |l.value.items|))
    else None
  }

  /** The whole import of `s` into a tool whose registry shows `texts`: the header, then the four sections. */
  function ImportPlan(s: seq<byte>, texts: seq<string>): Imported
  {
    match ReadHeader(s)
    case None => Start().(error := Some(HeaderFailure))
    case Some(r) => AfterHeader(r, texts)
  }

  function Got(l: Option<Loaded<ElementData>>): Loaded<ElementData>
  {
    if l.None? then Unreached() else l.value
  }

  /** Nothing read yet: the lists an import starts from. */
  function Start(): Imported
  {
    Imported(Unreached(), Unreached(), Unreached(), Unreached(), None)
  }

  /** `p` with the list of `kind` replaced by `l`. */
  function WithSection(p: Imported, kind: Kind, l: Loaded<ElementData>): Imported
  {
    match kind
    case NodeKind => p.(nodes := l)
    case MeshKind => p.(meshes := l)
    case BoneKind => p.(bones := l)
  }

  function Rank(kind: Kind): nat
  {
    match kind
    case NodeKind => 2
    case MeshKind => 1
    case BoneKind => 0
  }

  /**
   * The element sections from the one of `kind` on, after the lists `p`
   * holds so far: the nodes, then the meshes, then the bones, the first
   * exception ending the import, and after the bones the animations.
   */
  function Sections(kind: Kind, p: Imported, s: seq<byte>, texts: seq<string>): Imported
    decreases Rank(kind)
  {
    var l := ElementStage(kind, s, texts);
    var q := WithSection(p, kind, Got(l));
    if StageError(kind, l).Some? then q.(error := StageError(kind, l))
    else
      match kind
      case NodeKind => Sections(MeshKind, q, l.value.rest, texts + l.value.names)
      case MeshKind => Sections(BoneKind, q, l.value.rest, texts + l.value.names)
      case BoneKind => AfterBones(q.nodes, q.meshes, q.bones, l.value.rest, texts + l.value.names)
  }

  function AfterHeader(s: seq<byte>, texts: seq<string>): Imported
  {
    Sections(NodeKind, Start(), s, texts)
  }

  function AfterNodes(nodes: Loaded<ElementData>, s: seq<byte>, texts: seq<string>): Imported
  {
    Sections(MeshKind, Start().(nodes := nodes), s, texts)
  }

  function AfterMeshes(nodes: Loaded<ElementData>, meshes: Loaded<ElementData>, s: seq<byte>, texts: seq<string>): Imported
  {
    Sections(BoneKind, Start().(nodes := nodes, meshes := meshes), s, texts)
  }

  function AfterBones(nodes: Loaded<ElementData>, meshes: Loaded<ElementData>, bones: Loaded<ElementData>,
                      s: seq<byte>, texts: seq<string>): Imported
  {
    match LoadSection(ReadAnimation, AnimationName, s, texts)
    case None => Imported(nodes, meshes, bones, Unreached(), Some(CountFailure("animation")))
    case Some(l) => Imported(nodes, meshes, bones, l, if l.failed then Some(AnimationFailure(|l.items|)) else None)
  }

  /** Every name an import adds, in the order the ids of the file count them. */
  function AddedNames(p: Imported): seq<string>
  {
    p.nodes.names + p.meshes.names + p.bones.names + p.animations.names
  }

  /**
   * An import that ends without an exception added exactly the four lists
   * ReadScene reads from the same file, in the same order.
   */
  lemma ImportReadsScene(s: seq<byte>, texts: seq<string>)
    ensures var p := ImportPlan(s, texts);
      p.error.None? ==> ReadScene(s) == Some(Contents(p.nodes.items, p.meshes.items, p.bones.items, p.animations.items))
  {
    var p := ImportPlan(s, texts);
    if p.error.None? {
      var r0 := ReadHeader(s).value;
      var l0 := ElementStage(NodeKind, r0, texts).value;
      StageReads(ElementReader(NodeKind), ElementName, r0, texts);
      AfterNodesReads(l0, l0.rest, texts + l0.names);
    }
  }

  /** A section loop that did not fail read what ReadSection reads. */
  lemma StageReads<T>(read: seq<byte> -> Option<(T, seq<byte>)>, nameOf: T -> string, s: seq<byte>, texts: seq<string>)
    ensures var l := LoadSection(read, nameOf, s, texts);
      l.Some? && !l.value.failed ==> ReadSection(read, s) == Some((l.value.items, l.value.rest))
  {
    if TaggedU32(s).Some? {
      var n := TaggedU32(s).value;
      LoadReads(read, nameOf, n.1, texts, n.0);
    }
  }

  lemma AfterNodesReads(nodes: Loaded<ElementData>, s: seq<byte>, t: seq<string>)
    ensures var p := AfterNodes(nodes, s, t);
      p.error.None? ==> p.nodes == nodes && ReadSection(ElementReader(MeshKind), s) == Some((p.meshes.items, p.meshes.rest))
                        && ReadSection(ElementReader(BoneKind), p.meshes.rest) == Some((p.bones.items, p.bones.rest))
                        && ReadSection(ReadAnimation, p.bones.rest) == Some((p.animations.items, p.animations.rest))
  {
    var l := ElementStage(MeshKind, s, t);
    StageReads(ElementReader(MeshKind), ElementName, s, t);
    if StageError(MeshKind, l).None? {
      AfterMeshesReads(nodes, l.value, l.value.rest, t + l.value.names);
    }
  }

  lemma AfterMeshesReads(nodes: Loaded<ElementData>, meshes: Loaded<ElementData>, s: seq<byte>, t: seq<string>)
    ensures var p := AfterMeshes(nodes, meshes, s, t);
      p.error.None? ==> p.nodes == nodes && p.meshes == meshes
                        && ReadSection(ElementReader(BoneKind), s) == Some((p.bones.items, p.bones.rest))
                        && ReadSection(ReadAnimation, p.bones.rest) == Some((p.animations.items, p.animations.rest))
  {
    var l := ElementStage(BoneKind, s, t);
    StageReads(ElementReader(BoneKind), ElementName, s, t);
    if StageError(BoneKind, l).None? {
      StageReads(ReadAnimation, AnimationName, l.value.rest, t + l.value.names);
    }
  }

  /** A file ReadScene cannot read makes the import end with an exception. */
  lemma UnreadableFails(s: seq<byte>, texts: seq<string>)
    requires ReadScene(s).None?
    ensures ImportPlan(s, texts).error.Some?
  {
    ImportReadsScene(s, texts);
  }

  /** The names of one section's items are new to the registry and to each other. */
  lemma StageFresh<T>(read: seq<byte> -> Option<(T, seq<byte>)>, nameOf: T -> string, s: seq<byte>, texts: seq<string>)
    requires LoadSection(read, nameOf, s, texts).Some?
    ensures Fresh(texts, LoadSection(read, nameOf, s, texts).value.names)
  {
    var n := TaggedU32(s).value;
    assert LoadSection(read, nameOf, s, texts).value == Load(read, nameOf, n.1, texts, n.0);
    LoadNames(read, nameOf, n.1, texts, n.0);
  }

  /** Names new to `texts + a` and to each other, after names new to `texts` and to each other, are all new. */
  lemma {:induction false} FreshAppend(texts: seq<string>, a: seq<string>, b: seq<string>)
    requires Fresh(texts, a) && Fresh(texts + a, b)
    ensures Fresh(texts, a + b)
    decreases |b|
  {
    if |b| == 0 {
      assert a + b == a;
    } else {
      var front := b[..|b| - 1];
      FreshAppend(texts, a, front);
      assert (a + b)[..|a + b| - 1] == a + front;
      Regroup(texts, a, front);
    }
  }

  lemma Regroup<T>(texts: seq<T>, a: seq<T>, b: seq<T>)
    ensures (texts + a) + b == texts + (a + b)
  {
  }

  /** The names of one element section, when it is reached, are new after those before it. */
  lemma ElementStageFresh(kind: Kind, s: seq<byte>, texts: seq<string>, before: seq<string>)
    requires Fresh(texts, before)
    ensures var l := ElementStage(kind, s, texts + before); Fresh(texts, before + Got(l).names)
  {
    var l := ElementStage(kind, s, texts + before);
    if l.Some? {
      StageFresh(ElementReader(kind), ElementName, s, texts + before);
      FreshAppend(texts, before, l.value.names);
    } else {
      assert before + Got(l).names == before;
    }
  }

  lemma AfterBonesFresh(nodes: Loaded<ElementData>, meshes: Loaded<ElementData>, bones: Loaded<ElementData>,
                        s: seq<byte>, texts: seq<string>, t: seq<string>)
    requires Fresh(texts, nodes.names + meshes.names + bones.names)
    requires t == texts + (nodes.names + meshes.names + bones.names)
    ensures Fresh(texts, AddedNames(AfterBones(nodes, meshes, bones, s, t)))
  {
    var before := nodes.names + meshes.names + bones.names;
    var p := AfterBones(nodes, meshes, bones, s, t);
    if LoadSection(ReadAnimation, AnimationName, s, t).Some? {
      StageFresh(ReadAnimation, AnimationName, s, t);
      FreshAppend(texts, before, p.animations.names);
    } else {
      assert AddedNames(p) == before;
    }
  }

  lemma AfterMeshesFresh(nodes: Loaded<ElementData>, meshes: Loaded<ElementData>, s: seq<byte>,
                         texts: seq<string>, t: seq<string>)
    requires Fresh(texts, nodes.names + meshes.names)
    requires t == texts + (nodes.names + meshes.names)
    ensures Fresh(texts, AddedNames(AfterMeshes(nodes, meshes, s, t)))
  {
    var before := nodes.names + meshes.names;
    var l := ElementStage(BoneKind, s, t);
    ElementStageFresh(BoneKind, s, texts, before);
    if StageError(BoneKind, l).None? {
      var b := l.value;
      Regroup(texts, nodes.names + meshes.names, b.names);
      AfterBonesFresh(nodes, meshes, b, b.rest, texts, t + b.names);
    } else {
      assert AddedNames(AfterMeshes(nodes, meshes, s, t)) == before + Got(l).names;
    }
  }

  lemma AfterNodesFresh(nodes: Loaded<ElementData>, s: seq<byte>, texts: seq<string>, t: seq<string>)
    requires Fresh(texts, nodes.names)
    requires t == texts + nodes.names
    ensures Fresh(texts, AddedNames(AfterNodes(nodes, s, t)))
  {
    var l := ElementStage(MeshKind, s, t);
    ElementStageFresh(MeshKind, s, texts, nodes.names);
    if StageError(MeshKind, l).None? {
      var m := l.value;
      Regroup(texts, nodes.names, m.names);
      AfterMeshesFresh(nodes, m, m.rest, texts, t + m.names);
    } else {
      assert AddedNames(AfterNodes(nodes, s, t)) == nodes.names + Got(l).names;
    }
  }

  /**
   * An import never leaves two elements with one name: every name it adds
   * is new to the registry and to the names added before it, whether or not
   * the import ends with an exception.
   */
  lemma ImportNamesFresh(s: seq<byte>, texts: seq<string>)
    ensures var all := AddedNames(ImportPlan(s, texts));
      forall i :: 0 <= i < |all| ==> all[i] !in texts + all[..i]
  {
    var all := AddedNames(ImportPlan(s, texts));
    ImportFresh(s, texts);
    forall i | 0 <= i < |all|
      ensures all[i] !in texts + all[..i]
    {
      FreshAt(texts, all, i);
    }
  }

  lemma ImportFresh(s: seq<byte>, texts: seq<string>)
    ensures Fresh(texts, AddedNames(ImportPlan(s, texts)))
  {
    if ReadHeader(s).Some? {
      var r := ReadHeader(s).value;
      var l := ElementStage(NodeKind, r, texts);
      ElementStageFresh(NodeKind, r, texts, []);
      assert texts + [] == texts && [] + Got(l).names == Got(l).names;
      if StageError(NodeKind, l).None? {
        AfterNodesFresh(l.value, l.value.rest, texts, texts + l.value.names);
      } else {
        assert AddedNames(ImportPlan(s, texts)) == Got(l).names;
      }
    } else {
      assert AddedNames(ImportPlan(s, texts)) == [];
    }
  }
}
