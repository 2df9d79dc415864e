// The MsbTool class of the mesh scene editor: the four element lists, the
// registry of element names they share, and the operations on them — adding
// and removing names, the ids Export gives parents and the root, and Import,
// proved to read the lists ReadScene reads, renaming taken names, shifting
// parent ids past the names already registered and resolving the parents.
module MsbTools {
  import opened Wrappers
  import opened Machine
  import opened Float32
  import opened Text
  import opened Binary
  import opened MsbRecords
  import opened MsbNames
  import opened MsbElements
  import opened MsbFormat
  import opened MsbParse
  import opened MsbImport
  import opened MsbWrite

  /** The name buffers of some elements, in order. */
  function NameBufs(es: seq<Element>): (r: seq<Buf>)
    ensures |r| == |es| && forall i :: 0 <= i < |es| ==> r[i] == es[i].name
  {
    seq(|es|, i requires 0 <= i < |es| => es[i].name)
  }

  /** The displayed-name buffers of some animations, in order. */
  function AnimationBufs(xs: seq<Animation>): (r: seq<Buf>)
    ensures |r| == |xs| && forall i :: 0 <= i < |xs| ==> r[i] == xs[i].displayedName
  {
    seq(|xs|, i requires 0 <= i < |xs| => xs[i].displayedName)
  }

  /** The parent reference of each element. */
  function ParentBufs(es: seq<Element>): set<Buf?>
    reads es
  {
    set e | e in es :: e.parentName
  }

  /** The motions of some animations. */
  function MotionsOf(xs: seq<Animation>): set<Motion>
    reads xs
  {
    set a, m | a in xs && m in a.motions :: m
  }

  /** What an element holds besides its parent reference: its displayed name and its properties. */
  datatype Held = Held(name: string, parentId: int, realName: string, pivot: Point3d, position: Point3d,
                       scale: Point3d, attributes: seq<Attribute>, influenceMapName: Option<string>, restLength: F32)

  function HeldOf(e: Element): Held
    reads e, e.name
  {
    Held(e.name.text, e.parentId, e.realName, e.pivot, e.position, e.scale, e.attributes, e.influenceMapName, e.restLength)
  }

  /**
   * The element Import adds for `x` read from a section of `kind`, named
   * `name`: the parent id shifted, the bone fields set only on a bone.
   */
  function Expected(kind: Kind, x: ElementData, name: string, shift: int): Held
  {
    Held(name, ShiftId(x.parentId, shift), x.realName, x.pivot, x.position, x.scale, x.attributes,
         if kind == BoneKind then Some(x.influenceMapName) else None,
         if kind == BoneKind then x.restLength else Zero)
  }

  /** The elements `es` are the ones a section loop `l` of `kind` adds, in order. */
  predicate LoadedAs(es: seq<Element>, kind: Kind, l: Loaded<ElementData>, shift: int)
    reads es, set e | e in es :: e.name
  {
    |es| == |l.items| == |l.names|
    && forall j :: 0 <= j < |es| ==> HeldOf(es[j]) == Expected(kind, l.items[j], l.names[j], shift)
  }

  /** One more element added by one more turn of a section loop. */
  lemma LoadedSnoc(es: seq<Element>, e: Element, kind: Kind, l: Loaded<ElementData>, x: ElementData, name: string,
                   r: seq<byte>, shift: int)
    requires LoadedAs(es, kind, l, shift) && HeldOf(e) == Expected(kind, x, name, shift)
    ensures LoadedAs(es + [e], kind, Loaded(l.items + [x], l.names + [name], r, false), shift)
  {
  }

  /** A section loop whose next item fails leaves what it had added. */
  /** A motion built from `x`: its node id shifted by `shift`, its six channels as read. */
  predicate MotionAs(m: Motion, x: MotionData, shift: int)
    reads m, m.channels
  {
    m.nodeId == ShiftId(x.nodeId, shift) && m.channels[..] == x.channels
  }

  predicate MotionsAs(ms: seq<Motion>, xs: seq<MotionData>, shift: int)
    reads set m | m in ms, set m | m in ms :: m.channels
  {
    |ms| == |xs| && forall k :: 0 <= k < |ms| ==> MotionAs(ms[k], xs[k], shift)
  }

  /** An animation built from `x` and named `name`. */
  predicate AnimationAs(a: Animation, x: AnimationData, name: string, shift: int)
    reads a, a.displayedName, set m | m in a.motions, set m | m in a.motions :: m.channels
  {
    a.displayedName.text == name && a.realName == x.realName && a.duration == x.duration
    && MotionsAs(a.motions, x.motions, shift)
  }

  /** Everything AnimationAs reads, over some animations. */
  function AnimationFrame(xs: seq<Animation>): set<object>
    reads xs
  {
    (set a | a in xs :: a as object) + (set a | a in xs :: a.displayedName as object)
    + (set a, m | a in xs && m in a.motions :: m as object)
    + (set a, m | a in xs && m in a.motions :: m.channels as object)
  }

  /** The animations an import built from the items of `l`, under the names it gave them. */
  predicate AnimationsAs(xs: seq<Animation>, l: Loaded<AnimationData>, shift: int)
    reads xs, AnimationFrame(xs)
  {
    |xs| == |l.items| == |l.names|
    && forall j :: 0 <= j < |xs| ==> AnimationAs(xs[j], l.items[j], l.names[j], shift)
  }

  lemma AnimationsSnoc(xs: seq<Animation>, a: Animation, l: Loaded<AnimationData>, x: AnimationData, name: string,
                       r: seq<byte>, shift: int)
    requires AnimationsAs(xs, l, shift) && AnimationAs(a, x, name, shift)
    ensures AnimationsAs(xs + [a], Loaded(l.items + [x], l.names + [name], r, false), shift)
  {
  }

  lemma AnimationBufsSnoc(xs: seq<Animation>, a: Animation)
    ensures AnimationBufs(xs + [a]) == AnimationBufs(xs) + [a.displayedName]
  {
  }

  /** The motions of a list with one more animation are those of the list and those of the animation. */
  lemma MotionsOfSnoc(xs: seq<Animation>, a: Animation)
    ensures forall m :: m in MotionsOf(xs + [a]) ==> m in MotionsOf(xs) || m in a.motions
  {
  }

  lemma NameBufsSnoc(es: seq<Element>, e: Element)
    ensures NameBufs(es + [e]) == NameBufs(es) + [e.name]
  {
  }

  /** The registry after one more element's name is added, as the item loop keeps it. */
  lemma RegisteredStep(items: seq<Buf>, es: seq<Element>, e: Element, r0: seq<Buf>, r1: seq<Buf>)
    requires r0 == items + NameBufs(es) && r1 == r0 + [e.name]
    ensures r1 == items + NameBufs(es + [e])
  {
    NameBufsSnoc(es, e);
    Assoc(items, NameBufs(es), [e.name]);
  }

  /** What UpdateParentName leaves on each element of `es`, the only change it makes. */
  method ResolveAll(es: seq<Element>)
    modifies set e | e in es
    ensures forall e :: e in es ==> e.parentName == Resolved(old(e.parentName), e.parentId, e.registry.items)
    ensures forall e :: e in es ==> unchanged(e`parentId, e`realName, e`pivot, e`position, e`scale, e`attributes)
    ensures forall e :: e in es ==> unchanged(e`influenceMapName, e`restLength)
  {
    for i := 0 to |es|
      invariant forall e :: e in es ==> unchanged(e`parentId, e`realName, e`pivot, e`position, e`scale, e`attributes)
      invariant forall e :: e in es ==> unchanged(e`influenceMapName, e`restLength)
      invariant forall j :: 0 <= j < |es| ==>
        es[j].parentName == if es[j] in es[..i]
                            then Resolved(old(es[j].parentName), es[j].parentId, es[j].registry.items)
                            else old(es[j].parentName)
    {
      es[i].UpdateParentName();
      assert es[..i + 1] == es[..i] + [es[i]];
    }
    assert es[..|es|] == es;
  }

  /** The motion half of UpdateParentName: UpdateMotionNode on every animation, in order. */
  method ResolveMotions(xs: seq<Animation>)
    modifies MotionsOf(xs)
    ensures forall m :: m in MotionsOf(xs) ==> m.parentName == Resolved(old(m.parentName), m.nodeId, m.registry.items)
    ensures forall m :: m in MotionsOf(xs) ==> m.nodeId == old(m.nodeId)
  {
    for i := 0 to |xs|
      invariant forall m :: m in MotionsOf(xs) ==> m.nodeId == old(m.nodeId)
      invariant forall m :: m in MotionsOf(xs) ==>
        m.parentName == if m in MotionsOf(xs[..i])
                        then Resolved(old(m.parentName), m.nodeId, m.registry.items)
                        else old(m.parentName)
    {
      xs[i].UpdateMotionNode();
      assert xs[..i + 1] == xs[..i] + [xs[i]];
    }
    assert xs[..|xs|] == xs;
  }

  class MsbTool {
    /** The registry's size when the current import began: the shift for the file's ids. */
    var parentCount: int
    var nodes: seq<Element>
    var meshes: seq<Element>
    var bones: seq<Element>
    var animations: seq<Animation>
    /** The names of the elements, after "None" at position 0. */
    const registry: NameList

    /** No elements; the registry holds "None" only. */
    constructor ()
      ensures parentCount == 0 && nodes == [] && meshes == [] && bones == [] && animations == []
      ensures fresh(registry) && |registry.items| == 1 && fresh(registry.items[0])
      ensures registry.Texts() == ["None"]
    {
      parentCount := 0;
      nodes, meshes, bones, animations := [], [], [], [];
      var none := new Buf("None");
      registry := new NameList();
      new;
      registry.Add(none);
    }

    /** The name buffers of the four lists, in the order ids are given. */
    function Bufs(): seq<Buf>
      reads this
    {
      NameBufs(nodes) + NameBufs(meshes) + NameBufs(bones) + AnimationBufs(animations)
    }

    /** The displayed names of the four lists, in the order ids are given. */
    function Names(): (r: seq<string>)
      reads this, Bufs()
      ensures |r| == |nodes| + |meshes| + |bones| + |animations|
    {
      TextsOf(Bufs())
    }

    /** The registry as AddNode and its siblings keep it: "None", then the four lists' names in order. */
    predicate InOrder()
      reads this, registry
    {
      |registry.items| >= 1 && registry.items[1..] == Bufs()
    }

    // ---------------------------------------------------------------- names

    /**
     * AddNode: a new node named `name`, its buffer inserted in the registry
     * after "None" and the nodes' names. List.Insert throws past the end of
     * the registry; nothing changes then.
     */
    method AddNode(name: string) returns (ok: bool)
      modifies this`nodes, registry
      ensures ok <==> 1 + |old(nodes)| <= |old(registry.items)|
      ensures !ok ==> nodes == old(nodes) && registry.items == old(registry.items)
      ensures ok ==> |nodes| == |old(nodes)| + 1 && nodes[..|old(nodes)|] == old(nodes)
      ensures ok ==> var e := nodes[|old(nodes)|];
        && fresh(e) && fresh(e.name) && e.name.text == name && e.registry == registry && e.parentId == -1
        && registry.items == old(registry.items)[..1 + |old(nodes)|] + [e.name] + old(registry.items)[1 + |old(nodes)|..]
      ensures old(InOrder()) ==> ok && InOrder()
    {
      var b := new Buf(name);
      ghost var n, m, bo, an := NameBufs(nodes), NameBufs(meshes), NameBufs(bones), AnimationBufs(animations);
      ghost var items, ordered := registry.items, InOrder();
      var at := 1 + |nodes|;
      if at > |registry.items| {
        return false;
      }
      registry.Insert(at, b);
      var e := new Element(registry, b);
      nodes := nodes + [e];
      ok := true;
      NameBufsSnoc(old(nodes), e);
      if ordered {
        GroupedNode(n, m, bo, an, b);
        InsertKeepsOrder(items, n, m + bo + an, b);
      }
    }

    /** AddMesh: as AddNode, the name inserted after the nodes' and the meshes' names. */
    method AddMesh(name: string) returns (ok: bool)
      modifies this`meshes, registry
      ensures ok <==> 1 + |nodes| + |old(meshes)| <= |old(registry.items)|
      ensures !ok ==> meshes == old(meshes) && registry.items == old(registry.items)
      ensures ok ==> |meshes| == |old(meshes)| + 1 && meshes[..|old(meshes)|] == old(meshes)
      ensures ok ==> var e := meshes[|old(meshes)|]; var at := 1 + |nodes| + |old(meshes)|;
        && fresh(e) && fresh(e.name) && e.name.text == name && e.registry == registry && e.parentId == -1
        && registry.items == old(registry.items)[..at] + [e.name] + old(registry.items)[at..]
      ensures old(InOrder()) ==> ok && InOrder()
    {
      var b := new Buf(name);
      ghost var n, m, bo, an := NameBufs(nodes), NameBufs(meshes), NameBufs(bones), AnimationBufs(animations);
      ghost var items, ordered := registry.items, InOrder();
      var at := 1 + |nodes| + |meshes|;
      if at > |registry.items| {
        return false;
      }
      registry.Insert(at, b);
      var e := new Element(registry, b);
      meshes := meshes + [e];
      ok := true;
      NameBufsSnoc(old(meshes), e);
      if ordered {
        GroupedMesh(n, m, bo, an, b);
        InsertKeepsOrder(items, n + m, bo + an, b);
      }
    }

    /** AddBone: as AddNode, the name inserted after the nodes', meshes' and bones' names. */
    method AddBone(name: string) returns (ok: bool)
      modifies this`bones, registry
      ensures ok <==> 1 + |nodes| + |meshes| + |old(bones)| <= |old(registry.items)|
      ensures !ok ==> bones == old(bones) && registry.items == old(registry.items)
      ensures ok ==> |bones| == |old(bones)| + 1 && bones[..|old(bones)|] == old(bones)
      ensures ok ==> var e := bones[|old(bones)|]; var at := 1 + |nodes| + |meshes| + |old(bones)|;
        && fresh(e) && fresh(e.name) && e.name.text == name && e.registry == registry && e.parentId == -1
        && e.influenceMapName == None
        && registry.items == old(registry.items)[..at] + [e.name] + old(registry.items)[at..]
      ensures old(InOrder()) ==> ok && InOrder()
    {
      var b := new Buf(name);
      ghost var n, m, bo, an := NameBufs(nodes), NameBufs(meshes), NameBufs(bones), AnimationBufs(animations);
      ghost var items, ordered := registry.items, InOrder();
      var at := 1 + |nodes| + |meshes| + |bones|;
      if at > |registry.items| {
        return false;
      }
      registry.Insert(at, b);
      var e := new Element(registry, b);
      bones := bones + [e];
      ok := true;
      NameBufsSnoc(old(bones), e);
      if ordered {
        GroupedBone(n, m, bo, an, b);
        InsertKeepsOrder(items, n + m + bo, an, b);
      }
    }

    /** AddAnimation: as AddNode, the name inserted after every element's name. */
    method AddAnimation(name: string) returns (ok: bool)
      modifies this`animations, registry
      ensures ok <==> 1 + |nodes| + |meshes| + |bones| + |old(animations)| <= |old(registry.items)|
      ensures !ok ==> animations == old(animations) && registry.items == old(registry.items)
      ensures ok ==> |animations| == |old(animations)| + 1 && animations[..|old(animations)|] == old(animations)
      ensures ok ==> var x := animations[|old(animations)|];
        var at := 1 + |nodes| + |meshes| + |bones| + |old(animations)|;
        && fresh(x) && fresh(x.displayedName) && x.displayedName.text == name && x.registry == registry
        && x.motions == []
        && registry.items == old(registry.items)[..at] + [x.displayedName] + old(registry.items)[at..]
      ensures old(InOrder()) ==> ok && InOrder()
    {
      var b := new Buf(name);
      ghost var n, m, bo, an := NameBufs(nodes), NameBufs(meshes), NameBufs(bones), AnimationBufs(animations);
      ghost var items, ordered := registry.items, InOrder();
      var at := 1 + |nodes| + |meshes| + |bones| + |animations|;
      if at > |registry.items| {
        return false;
      }
      registry.Insert(at, b);
      var x := new Animation(registry, b);
      animations := animations + [x];
      ok := true;
      assert AnimationBufs(animations) == an + [b];
      if ordered {
        GroupedAnimation(n, m, bo, an, b);
        InsertKeepsOrder(items, n + m + bo + an, [], b);
      }
    }

    /** RemoveElementName: the first registry entry whose text is `name` is removed; nothing when there is none. */
    method RemoveElementName(name: string)
      modifies registry
      ensures var i := FirstIndex(old(registry.Texts()), name);
        registry.items == if i == -1 then old(registry.items) else old(registry.items)[..i] + old(registry.items)[i + 1..]
    {
      ghost var texts := registry.Texts();
      for i := 0 to |registry.items|
        invariant registry.items == old(registry.items)
        invariant name !in texts[..i]
      {
        if registry.items[i].text == name {
          FirstIndexIs(texts, name, i);
          registry.RemoveAt(i);
          return;
        }
        assert texts[..i + 1] == texts[..i] + [texts[i]];
      }
      assert texts[..|registry.items|] == texts;
    }

    // ---------------------------------------------------------------- ids

    /** The id Export gives the element named `parent`: its position among the four lists' names, -1 for none. */
    function ParentIdOf(parent: string): (r: int)
      reads this, Bufs()
      ensures -1 <= r < |nodes| + |meshes| + |bones| + |animations|
      ensures r == -1 <==> parent !in Names()
      ensures r >= 0 ==> Names()[r] == parent && parent !in Names()[..r]
    {
      FirstIndex(Names(), parent)
    }

    /** The names of the four lists, one list after another. */
    lemma NamesSplit()
      ensures Names() == TextsOf(NameBufs(nodes)) + TextsOf(NameBufs(meshes)) + TextsOf(NameBufs(bones))
                         + TextsOf(AnimationBufs(animations))
    {
      TextsOfAppend(NameBufs(nodes) + NameBufs(meshes) + NameBufs(bones), AnimationBufs(animations));
      TextsOfAppend(NameBufs(nodes) + NameBufs(meshes), NameBufs(bones));
      TextsOfAppend(NameBufs(nodes), NameBufs(meshes));
    }

    /**
     * The four searches of GetNewParentId: the id is the position among the
     * nodes when a node is named `parent`, else the nodes' count plus the
     * position among the meshes, and so on through the bones and animations.
     */
    lemma ParentIdSplit(parent: string)
      ensures var a, b, c, d := TextsOf(NameBufs(nodes)), TextsOf(NameBufs(meshes)),
                                TextsOf(NameBufs(bones)), TextsOf(AnimationBufs(animations));
        ParentIdOf(parent)
        == if FirstIndex(a, parent) >= 0 then FirstIndex(a, parent)
           else if FirstIndex(b, parent) >= 0 then |nodes| + FirstIndex(b, parent)
           else if FirstIndex(c, parent) >= 0 then |nodes| + |meshes| + FirstIndex(c, parent)
           else if FirstIndex(d, parent) >= 0 then |nodes| + |meshes| + |bones| + FirstIndex(d, parent)
           else -1
    {
      NamesSplit();
      FirstIndexOfFour(TextsOf(NameBufs(nodes)), TextsOf(NameBufs(meshes)),
                       TextsOf(NameBufs(bones)), TextsOf(AnimationBufs(animations)), parent);
    }

    /**
     * GetNewParentId, for an element (with its ParentName) and for a motion
     * (with its Node): the first of the nodes, meshes, bones and animations,
     * in that order, whose displayed name is `parent`, as its id; -1 when
     * none is. The four searches are one loop over the lists laid end to end.
     */
    method NewParentId(parent: string) returns (r: int)
      ensures r == ParentIdOf(parent)
    {
      var bufs := Bufs();
      ghost var names := TextsOf(bufs);
      ghost var k := FirstIndex(names, parent);
      assert ParentIdOf(parent) == k;
      for i := 0 to |bufs|
        invariant parent !in names[..i] && ParentIdOf(parent) == k
      {
        if bufs[i].text == parent {
          FirstIndexIs(names, parent, i);
          return i;
        }
        NotInPrefixStep(names, parent, i);
      }
      NotInWhole(names, parent);
      return -1;
    }

    /** The parent ids Export writes for some elements. */
    function ParentIds(es: seq<Element>): (r: seq<int>)
      reads this, Bufs(), es, ParentBufs(es)
      ensures |r| == |es| && forall i :: 0 <= i < |es| ==> r[i] == ParentIdOf(es[i].ParentName())
    {
      seq(|es|, i requires 0 <= i < |es| reads this, Bufs(), es, ParentBufs(es) => ParentIdOf(es[i].ParentName()))
    }

    /**
     * The root id Export writes: the first node without a parent, unless a
     * mesh has none, in which case the first such mesh wins (the mesh loop
     * runs after the node loop has found one); 0 when every element has a parent.
     */
    method RootId() returns (r: int)
      ensures r == RootOf(ParentIds(nodes), ParentIds(meshes), |nodes|)
    {
      ghost var ps, ms := ParentIds(nodes), ParentIds(meshes);
      r := 0;
      for i := 0 to |nodes|
        invariant -1 !in ps[..i] && r == 0
        invariant ParentIds(nodes) == ps && ParentIds(meshes) == ms
      {
        if ParentIdOf(nodes[i].ParentName()) == -1 {
          FirstIndexIs(ps, -1, i);
          r := i;
          break;
        }
        NotInPrefixStep(ps, -1, i);
      }
      if r == 0 && -1 !in ps[..|nodes|] {
        NotInWhole(ps, -1);
      }
      ghost var fromNodes := r;
      assert fromNodes == (if -1 in ps then FirstIndex(ps, -1) else 0);
      for i := 0 to |meshes|
        invariant -1 !in ms[..i] && r == fromNodes
        invariant ParentIds(nodes) == ps && ParentIds(meshes) == ms
      {
        if ParentIdOf(meshes[i].ParentName()) == -1 {
          FirstIndexIs(ms, -1, i);
          return i + |nodes|;
        }
        NotInPrefixStep(ms, -1, i);
      }
      NotInWhole(ms, -1);
    }

    // ---------------------------------------------------------------- Export

    /** The record Export writes for an element: its new parent id and its properties (a missing influence map name as ""). */
    function ExportedElement(e: Element): (r: ElementData)
      reads this, Bufs(), e, e.parentName
      ensures r.parentId == ParentIdOf(e.ParentName()) && r.realName == e.realName
      ensures r.pivot == e.pivot && r.position == e.position && r.scale == e.scale && r.attributes == e.attributes
      ensures e.influenceMapName.Some? ==> r.influenceMapName == e.influenceMapName.value
      ensures r.restLength == e.restLength
    {
      ElementData(ParentIdOf(e.ParentName()), e.realName, e.pivot, e.position, e.scale, e.attributes,
                  if e.influenceMapName.Some? then e.influenceMapName.value else "", e.restLength)
    }

    /** The records of some elements, in order. */
    function ExportedElements(es: seq<Element>): (r: seq<ElementData>)
      reads this, Bufs(), es, ParentBufs(es)
      ensures |r| == |es| && forall i :: 0 <= i < |es| ==> r[i] == ExportedElement(es[i])
    {
      seq(|es|, i requires 0 <= i < |es| reads this, Bufs(), es, ParentBufs(es) => ExportedElement(es[i]))
    }

    /** The record Export writes for a motion: the new id of its node and its six channels. */
    function ExportedMotion(m: Motion): (r: MotionData)
      reads this, Bufs(), m, m.parentName, m.channels
      ensures r.nodeId == ParentIdOf(m.Node()) && r.channels == m.channels[..]
    {
      MotionData(ParentIdOf(m.Node()), m.channels[..])
    }

    /** The records of some motions, in order. */
    function ExportedMotions(ms: seq<Motion>): (r: seq<MotionData>)
      reads this, Bufs(), ms, set m | m in ms :: m.parentName, set m | m in ms :: m.channels
      ensures |r| == |ms| && forall i :: 0 <= i < |ms| ==> r[i] == ExportedMotion(ms[i])
    {
      seq(|ms|, i requires 0 <= i < |ms|
                  reads this, Bufs(), ms, set m | m in ms :: m.parentName, set m | m in ms :: m.channels
                  => ExportedMotion(ms[i]))
    }

    /** The record Export writes for an animation: its real name, duration and motions. */
    function ExportedAnimation(a: Animation): (r: AnimationData)
      reads this, Bufs(), a, a.motions, set m | m in a.motions :: m.parentName, set m | m in a.motions :: m.channels
      ensures r.realName == a.realName && r.duration == a.duration && r.motions == ExportedMotions(a.motions)
    {
      AnimationData(a.realName, a.duration, ExportedMotions(a.motions))
    }

    /** The records of some animations, in order. */
    function ExportedAnimations(xs: seq<Animation>): (r: seq<AnimationData>)
      reads this, Bufs(), xs, MotionsOf(xs), set a, m | a in xs && m in a.motions :: m.parentName,
            set a, m | a in xs && m in a.motions :: m.channels
      ensures |r| == |xs| && forall i :: 0 <= i < |xs| ==> r[i] == ExportedAnimation(xs[i])
    {
      seq(|xs|, i requires 0 <= i < |xs|
                  reads this, Bufs(), xs, MotionsOf(xs), set a, m | a in xs && m in a.motions :: m.parentName,
                        set a, m | a in xs && m in a.motions :: m.channels
                  => assert xs[i] in xs;
                     assert forall m :: m in xs[i].motions ==> m in MotionsOf(xs);
                     ExportedAnimation(xs[i]))
    }

    /** The bones' influence map names, None where one is null. */
    function InfluenceMaps(): (r: seq<Option<string>>)
      reads this, bones
      ensures |r| == |bones| && forall i :: 0 <= i < |bones| ==> r[i] == bones[i].influenceMapName
    {
      seq(|bones|, i requires 0 <= i < |bones| reads this, bones => bones[i].influenceMapName)
    }

    /**
     * Export to `path`: the scene is named after the file name without its
     * extension, its root id is the one RootId finds, and the four lists are
     * written as records whose parents and nodes get the ids GetNewParentId
     * gives. The bytes and the outcome are those of ExportResult: the whole
     * file, or the file cut at the first bone without an influence map name.
     * (The lists are taken as they were on entry: the stream Export allocates
     * is new and nothing else changes.)
     */
    method Export(path: string) returns (file: seq<byte>, o: Outcome)
      ensures (file, o) == old(ExportResult(Scene(GetFileNameWithoutExtension(path),
                                                  RootOf(ParentIds(nodes), ParentIds(meshes), |nodes|),
                                                  ExportedElements(nodes), ExportedElements(meshes),
                                                  ExportedElements(bones), ExportedAnimations(animations)),
                                            InfluenceMaps()))
    {
      var root := RootOf(ParentIds(nodes), ParentIds(meshes), |nodes|);
      var s := Scene(GetFileNameWithoutExtension(path), root, ExportedElements(nodes), ExportedElements(meshes),
                     ExportedElements(bones), ExportedAnimations(animations));
      file, o := WriteScene(s, InfluenceMaps());
    }

    /**
     * UpdateParentName: every element's parent, and every motion's node,
     * becomes the registry entry at its id when the id is a position of the
     * registry; nothing else changes.
     */
    method UpdateParentName()
      modifies (set e | e in nodes + meshes + bones), MotionsOf(animations)
      ensures forall e: Element :: e in nodes + meshes + bones ==>
                e.parentName == Resolved(old(e.parentName), e.parentId, e.registry.items)
      ensures forall m :: m in MotionsOf(animations) ==>
                m.parentName == Resolved(old(m.parentName), m.nodeId, m.registry.items)
      ensures forall e :: e in nodes + meshes + bones ==> HeldOf(e) == old(HeldOf(e))
      ensures forall m :: m in MotionsOf(animations) ==> m.nodeId == old(m.nodeId)
    {
      ResolveAll(nodes);
      ResolveAll(meshes);
      ResolveAll(bones);
      ResolveMotions(animations);
    }

    /**
     * UpdateParentName at the end of an import: besides resolving every
     * parent, it leaves the elements and animations the import built as
     * they were built.
     */
    method ResolveImported(ghost ns: seq<Element>, ghost ms: seq<Element>, ghost bs: seq<Element>,
                           ghost xs: seq<Animation>, ghost p: Imported,
                           ghost n0: seq<Element>, ghost m0: seq<Element>, ghost b0: seq<Element>,
                           ghost a0: seq<Animation>)
      requires nodes == n0 + ns && meshes == m0 + ms && bones == b0 + bs && animations == a0 + xs
      requires LoadedAs(ns, NodeKind, p.nodes, parentCount) && LoadedAs(ms, MeshKind, p.meshes, parentCount)
      requires LoadedAs(bs, BoneKind, p.bones, parentCount) && AnimationsAs(xs, p.animations, parentCount)
      modifies (set e | e in nodes + meshes + bones), MotionsOf(animations)
      ensures forall e: Element :: e in nodes + meshes + bones ==>
                e.parentName == Resolved(old(e.parentName), e.parentId, e.registry.items)
      ensures forall m :: m in MotionsOf(animations) ==>
                m.parentName == Resolved(old(m.parentName), m.nodeId, m.registry.items)
      ensures forall e :: e in nodes + meshes + bones ==> HeldOf(e) == old(HeldOf(e))
      ensures forall e: Element :: e in n0 || e in m0 || e in b0 ==>
                unchanged(e`parentId, e`realName, e`pivot, e`position, e`scale, e`attributes, e`influenceMapName, e`restLength)
                && e.name.text == old(e.name.text)
                && e.parentName == Resolved(old(e.parentName), e.parentId, e.registry.items)
      ensures forall a: Animation, m: Motion :: a in a0 && m in a.motions ==>
                unchanged(m`nodeId) && m.parentName == Resolved(old(m.parentName), m.nodeId, m.registry.items)
      ensures LoadedAs(ns, NodeKind, p.nodes, parentCount) && LoadedAs(ms, MeshKind, p.meshes, parentCount)
      ensures LoadedAs(bs, BoneKind, p.bones, parentCount) && AnimationsAs(xs, p.animations, parentCount)
      ensures unchanged(this) && registry.items == old(registry.items) && registry.Texts() == old(registry.Texts())
      ensures forall e :: e in ns + ms + bs && 0 <= e.parentId < |e.registry.items| ==>
                e.parentName == e.registry.items[e.parentId]
      ensures forall m :: m in MotionsOf(xs) && 0 <= m.nodeId < |m.registry.items| ==>
                m.parentName == m.registry.items[m.nodeId]
    {
      ListsGrow(n0, ns, m0, ms, b0, bs);
      assert forall a, m :: a in a0 && m in a.motions ==> a in animations;
      UpdateParentName();
      forall j | 0 <= j < |ns|
        ensures HeldOf(ns[j]) == Expected(NodeKind, p.nodes.items[j], p.nodes.names[j], parentCount)
      {
        assert ns[j] in ns + ms + bs;
      }
      forall j | 0 <= j < |ms|
        ensures HeldOf(ms[j]) == Expected(MeshKind, p.meshes.items[j], p.meshes.names[j], parentCount)
      {
        assert ms[j] in ns + ms + bs;
      }
      forall j | 0 <= j < |bs|
        ensures HeldOf(bs[j]) == Expected(BoneKind, p.bones.items[j], p.bones.names[j], parentCount)
      {
        assert bs[j] in ns + ms + bs;
      }
      forall j | 0 <= j < |xs|
        ensures AnimationAs(xs[j], p.animations.items[j], p.animations.names[j], parentCount)
      {
        var a := xs[j];
        assert a in xs && a in animations;
        forall k | 0 <= k < |a.motions|
          ensures MotionAs(a.motions[k], p.animations.items[j].motions[k], parentCount)
        {
          assert a.motions[k] in a.motions;
          assert a.motions[k] in MotionsOf(animations);
        }
      }
    }

    // ---------------------------------------------------------------- import

    /**
     * The element an import builds for `x`, before ProcessName: its name
     * buffer holds the real name, its parent id is shifted past the names
     * registered when the import began, its attributes are added one by one,
     * and a bone also takes its influence map name and rest length.
     */
    method NewElement(kind: Kind, x: ElementData) returns (e: Element)
      ensures fresh(e) && fresh(e.name) && e.registry == registry && e.parentName == null
      ensures HeldOf(e) == Expected(kind, x, x.realName, parentCount)
    {
      var b := new Buf(x.realName);
      e := new Element(registry, b);
      e.parentId := ShiftId(x.parentId, parentCount);
      e.realName := x.realName;
      e.pivot, e.position, e.scale := x.pivot, x.position, x.scale;
      for j := 0 to |x.attributes|
        modifies e`attributes
        invariant e.attributes == x.attributes[..j]
      {
        e.AddAttribute(x.attributes[j]);
        assert x.attributes[..j + 1] == x.attributes[..j] + [x.attributes[j]];
      }
      assert x.attributes[..|x.attributes|] == x.attributes;
      if kind == BoneKind {
        e.influenceMapName := Some(x.influenceMapName);
        e.restLength := x.restLength;
      }
    }

    /**
     * One turn of the item loop: the element built for `x`, renamed by
     * ProcessName and, when that does not throw, registered at the end.
     */
    method AddElement(kind: Kind, x: ElementData, ghost texts: seq<string>) returns (e: Element, ok: bool)
      requires texts == registry.Texts()
      modifies registry
      ensures fresh(e) && fresh(e.name) && e.registry == registry && e.parentName == null
      ensures var name := ProcessedName(ElementName(x), texts);
        && (ok <==> name.Some?)
        && (ok ==> e.name.text == name.value && HeldOf(e) == Expected(kind, x, name.value, parentCount)
                   && registry.items == old(registry.items) + [e.name]
                   && registry.Texts() == texts + [name.value])
        && (!ok ==> registry.items == old(registry.items))
    {
      e := NewElement(kind, x);
      var o := e.ProcessName();
      ok := o.Pass?;
      if ok {
        registry.Register(e.name);
      }
    }

    /**
     * One turn of the item loop of ImportNodes, ImportMeshes and ImportBones,
     * after `es` were added by the turns before it: the next element is read
     * by `read`, renamed and registered, or the loop ends with an exception.
     */
    method ReadNextElement(kind: Kind, read: seq<byte> -> Option<(ElementData, seq<byte>)>, rest: seq<byte>,
                           ghost s: seq<byte>, ghost texts: seq<string>, ghost i: nat, ghost n: nat, ghost es: seq<Element>)
      returns (e: Element?, next: seq<byte>, ghost x: Option<ElementData>)
      requires i < n
      requires var l := Load(read, ElementName, s, texts, i);
        !l.failed && rest == l.rest && registry.Texts() == texts + l.names && LoadedAs(es, kind, l, parentCount)
      modifies registry
      ensures var l := Load(read, ElementName, s, texts, i);
        var l' := Load(read, ElementName, s, texts, i + 1);
        if e == null then l' == l.(failed := true) && Load(read, ElementName, s, texts, n) == l' && registry.items == old(registry.items)
                          && LoadedAs(es, kind, l', parentCount)
        else
          && fresh(e) && fresh(e.name) && e.registry == registry && e.parentName == null
          && x.Some? && l' == Loaded(l.items + [x.value], l.names + [e.name.text], next, false)
          && LoadedAs(es + [e], kind, l', parentCount)
          && registry.items == old(registry.items) + [e.name] && registry.Texts() == texts + l'.names
    {
      ghost var l := Load(read, ElementName, s, texts, i);
      var r := read(rest);
      if r.None? {
        LoadEnds(read, ElementName, s, texts, i, n);
        return null, rest, None;
      }
      var y := r.value.0;
      x, next := Some(y), r.value.1;
      var ok;
      e, ok := AddElement(kind, y, texts + l.names);
      if !ok {
        LoadEnds(read, ElementName, s, texts, i, n);
        return null, rest, x;
      }
      assert read(l.rest) == Some((y, next));
      LoadStep(read, ElementName, s, texts, i, y, next, e.name.text);
      LoadedSnoc(es, e, kind, l, y, e.name.text, next, parentCount);
      Regroup(texts, l.names, [e.name.text]);
    }

    /**
     * One turn of the item loop together with the list it extends: `es` with
     * the next element appended, or `es` itself when the loop ends there
     * (`stop`).
     */
    method ElementTurn(kind: Kind, read: seq<byte> -> Option<(ElementData, seq<byte>)>, rest: seq<byte>,
                       ghost s: seq<byte>, ghost texts: seq<string>, ghost items: seq<Buf>,
                       ghost i: nat, ghost n: nat, es: seq<Element>)
      returns (es': seq<Element>, next: seq<byte>, stop: bool)
      requires i < n
      requires var l := Load(read, ElementName, s, texts, i);
        !l.failed && rest == l.rest && LoadedAs(es, kind, l, parentCount)
        && registry.Texts() == texts + l.names && registry.items == items + NameBufs(es)
      modifies registry
      ensures stop ==> var l := Load(read, ElementName, s, texts, n);
        l.failed && LoadedAs(es', kind, l, parentCount) && next == l.rest
        && registry.items == items + NameBufs(es') && registry.Texts() == texts + l.names
      ensures !stop ==> var l := Load(read, ElementName, s, texts, i + 1);
        !l.failed && LoadedAs(es', kind, l, parentCount) && next == l.rest
        && registry.items == items + NameBufs(es') && registry.Texts() == texts + l.names
      ensures forall e :: e in es' ==> e in es || (fresh(e) && fresh(e.name) && e.registry == registry)
    {
      var e;
      ghost var x;
      ghost var r0 := registry.items;
      e, next, x := ReadNextElement(kind, read, rest, s, texts, i, n, es);
      if e == null {
        return es, rest, true;
      }
      RegisteredStep(items, es, e, r0, registry.items);
      es', stop := es + [e], false;
    }

    /**
     * The item loop of ImportNodes, ImportMeshes and ImportBones: up to `n`
     * elements read from `s` by `read`, each renamed by ProcessName and
     * registered; the first that cannot be read or named ends the loop. The
     * elements come back to be appended to their list.
     */
    method ReadElements(kind: Kind, read: seq<byte> -> Option<(ElementData, seq<byte>)>, s: seq<byte>, n: nat)
      returns (es: seq<Element>, rest: seq<byte>, failed: bool)
      modifies registry
      ensures var l := Load(read, ElementName, s, old(registry.Texts()), n);
        LoadedAs(es, kind, l, parentCount) && rest == l.rest && failed == l.failed
        && registry.items == old(registry.items) + NameBufs(es)
        && registry.Texts() == old(registry.Texts()) + l.names
      ensures forall e :: e in es ==> fresh(e) && fresh(e.name) && e.registry == registry
    {
      ghost var texts, items := registry.Texts(), registry.items;
      ghost var l := Load(read, ElementName, s, texts, 0);
      es, rest, failed := [], s, false;
      var i := 0;
      while i < n
        invariant i <= n && l == Load(read, ElementName, s, texts, i)
        invariant !l.failed && LoadedAs(es, kind, l, parentCount) && rest == l.rest
        invariant registry.Texts() == texts + l.names && registry.items == items + NameBufs(es)
        invariant forall e :: e in es ==> fresh(e) && fresh(e.name) && e.registry == registry
      {
        var stop;
        es, rest, stop := ElementTurn(kind, read, rest, s, texts, items, i, n, es);
        if stop {
          failed := true;
          return;
        }
        i := i + 1;
        l := Load(read, ElementName, s, texts, i);
      }
    }

    /**
     * ImportNodes, ImportMeshes or ImportBones, without the append to the
     * list: the tagged count, then the item loop. The message is the
     * exception's, when one ends the section.
     */
    method ImportSection(kind: Kind, s: seq<byte>) returns (es: seq<Element>, rest: seq<byte>, err: Option<string>)
      modifies registry
      ensures var l := ElementStage(kind, s, old(registry.Texts()));
        && err == StageError(kind, l) && LoadedAs(es, kind, Got(l), parentCount)
        && (l.Some? ==> rest == l.value.rest)
        && registry.items == old(registry.items) + NameBufs(es)
        && registry.Texts() == old(registry.Texts()) + Got(l).names
      ensures forall e :: e in es ==> fresh(e) && fresh(e.name) && e.registry == registry
    {
      var count := TaggedU32(s);
      if count.None? {
        return [], s, Some(CountFailure(KindWord(kind)));
      }
      var failed;
      es, rest, failed := ReadElements(kind, ElementReader(kind), count.value.1, count.value.0);
      err := if failed then Some(ItemFailure(KindWord(kind), |es|)) else None;
    }

    /**
     * The motion the channel loop builds for `x`: its node id shifted past
     * the names registered when the import began, then each keyframe of each
     * of the six channels added in order.
     */
    method NewMotion(x: MotionData) returns (m: Motion)
      requires |x.channels| == 6
      ensures fresh(m) && fresh(m.channels) && m.registry == registry && m.parentName == null
      ensures MotionAs(m, x, parentCount)
    {
      m := new Motion(registry);
      m.nodeId := ShiftId(x.nodeId, parentCount);
      for k := 0 to 6
        modifies m.channels
        invariant forall c :: 0 <= c < k ==> m.channels[c] == x.channels[c]
        invariant forall c :: k <= c < 6 ==> m.channels[c] == []
      {
        ghost var before := m.channels[..];
        for t := 0 to |x.channels[k]|
          modifies m.channels
          invariant m.channels[k] == x.channels[k][..t]
          invariant forall c :: 0 <= c < 6 && c != k ==> m.channels[c] == before[c]
        {
          m.AddKeyframe(k, x.channels[k][t]);
          assert x.channels[k][..t + 1] == x.channels[k][..t] + [x.channels[k][t]];
        }
        assert x.channels[k][..|x.channels[k]|] == x.channels[k];
      }
      assert m.channels[..] == x.channels;
    }

    /**
     * The animation the animation loop builds for `x`, before ProcessName:
     * its name buffer holds the real name, and its motions are built and
     * added in order.
     */
    method NewAnimation(x: AnimationData) returns (a: Animation)
      requires SixChannels(x.motions)
      ensures fresh(a) && fresh(a.displayedName) && a.registry == registry
      ensures forall m :: m in a.motions ==> fresh(m) && fresh(m.channels) && m.registry == registry
      ensures AnimationAs(a, x, x.realName, parentCount)
    {
      var b := new Buf(x.realName);
      a := new Animation(registry, b);
      a.realName := x.realName;
      a.duration := x.duration;
      for j := 0 to |x.motions|
        modifies a`motions
        invariant |a.motions| == j && forall k :: 0 <= k < j ==> MotionAs(a.motions[k], x.motions[k], parentCount)
        invariant forall m :: m in a.motions ==> fresh(m) && fresh(m.channels) && m.registry == registry
      {
        var m := NewMotion(x.motions[j]);
        a.AddMotion(m);
      }
    }

    /**
     * One turn of the animation loop: the animation built for `x`, renamed by
     * ProcessName and, when that does not throw, registered at the end.
     */
    method AddReadAnimation(x: AnimationData, ghost texts: seq<string>) returns (a: Animation, ok: bool)
      requires SixChannels(x.motions) && texts == registry.Texts()
      modifies registry
      ensures fresh(a) && fresh(a.displayedName) && a.registry == registry
      ensures forall m :: m in a.motions ==> fresh(m) && fresh(m.channels) && m.registry == registry
      ensures var name := ProcessedName(AnimationName(x), texts);
        && (ok <==> name.Some?)
        && (ok ==> AnimationAs(a, x, name.value, parentCount)
                   && registry.items == old(registry.items) + [a.displayedName]
                   && registry.Texts() == texts + [name.value])
        && (!ok ==> registry.items == old(registry.items))
    {
      a := NewAnimation(x);
      var o := a.ProcessName();
      ok := o.Pass?;
      if ok {
        registry.Register(a.displayedName);
      }
    }

    /**
     * One turn of the animation loop of ImportAnimations, after `xs` were
     * added by the turns before it: the next animation is read by `read`,
     * renamed and registered, or the loop ends with an exception.
     */
    method ReadNextAnimation(read: seq<byte> -> Option<(AnimationData, seq<byte>)>, rest: seq<byte>,
                             ghost s: seq<byte>, ghost texts: seq<string>, ghost i: nat, ghost n: nat,
                             ghost xs: seq<Animation>)
      returns (a: Animation?, next: seq<byte>, ghost x: Option<AnimationData>)
      requires forall t :: read(t).Some? ==> SixChannels(read(t).value.0.motions)
      requires i < n
      requires var l := Load(read, AnimationName, s, texts, i);
        !l.failed && rest == l.rest && registry.Texts() == texts + l.names && AnimationsAs(xs, l, parentCount)
      modifies registry
      ensures var l := Load(read, AnimationName, s, texts, i);
        var l' := Load(read, AnimationName, s, texts, i + 1);
        if a == null then l' == l.(failed := true) && Load(read, AnimationName, s, texts, n) == l'
                          && registry.items == old(registry.items) && next == rest
                          && AnimationsAs(xs, l', parentCount) && registry.Texts() == texts + l'.names
        else
          && fresh(a) && fresh(a.displayedName) && a.registry == registry
          && (forall m :: m in a.motions ==> fresh(m) && fresh(m.channels) && m.registry == registry)
          && x.Some? && l' == Loaded(l.items + [x.value], l.names + [a.displayedName.text], next, false)
          && AnimationsAs(xs + [a], l', parentCount)
          && registry.items == old(registry.items) + [a.displayedName] && registry.Texts() == texts + l'.names
    {
      ghost var l := Load(read, AnimationName, s, texts, i);
      var r := read(rest);
      if r.None? {
        LoadEnds(read, AnimationName, s, texts, i, n);
        return null, rest, None;
      }
      var y := r.value.0;
      x, next := Some(y), r.value.1;
      var ok;
      a, ok := AddReadAnimation(y, texts + l.names);
      assert AnimationsAs(xs, l, parentCount);
      if !ok {
        LoadEnds(read, AnimationName, s, texts, i, n);
        return null, rest, x;
      }
      LoadStep(read, AnimationName, s, texts, i, y, next, a.displayedName.text);
      AnimationsSnoc(xs, a, l, y, a.displayedName.text, next, parentCount);
      Regroup(texts, l.names, [a.displayedName.text]);
    }

    /**
     * One turn of the animation loop together with the list it extends: `xs`
     * with the next animation appended, or `xs` itself when the loop ends
     * there (`stop`).
     */
    method AnimationTurn(read: seq<byte> -> Option<(AnimationData, seq<byte>)>, rest: seq<byte>,
                         ghost s: seq<byte>, ghost texts: seq<string>, ghost items: seq<Buf>,
                         ghost i: nat, ghost n: nat, xs: seq<Animation>)
      returns (xs': seq<Animation>, next: seq<byte>, stop: bool)
      requires forall t :: read(t).Some? ==> SixChannels(read(t).value.0.motions)
      requires i < n
      requires var l := Load(read, AnimationName, s, texts, i);
        !l.failed && rest == l.rest && AnimationsAs(xs, l, parentCount)
        && registry.Texts() == texts + l.names && registry.items == items + AnimationBufs(xs)
      modifies registry
      ensures stop ==> var l := Load(read, AnimationName, s, texts, n);
        l.failed && AnimationsAs(xs', l, parentCount) && next == l.rest
        && registry.items == items + AnimationBufs(xs') && registry.Texts() == texts + l.names
      ensures !stop ==> var l := Load(read, AnimationName, s, texts, i + 1);
        !l.failed && AnimationsAs(xs', l, parentCount) && next == l.rest
        && registry.items == items + AnimationBufs(xs') && registry.Texts() == texts + l.names
      ensures forall a :: a in xs' ==> a in xs || (fresh(a) && fresh(a.displayedName) && a.registry == registry)
      ensures forall m :: m in MotionsOf(xs') ==> m in old(MotionsOf(xs)) || (fresh(m) && fresh(m.channels) && m.registry == registry)
    {
      var a;
      ghost var x;
      a, next, x := ReadNextAnimation(read, rest, s, texts, i, n, xs);
      if a == null {
        return xs, next, true;
      }
      AnimationBufsSnoc(xs, a);
      Assoc(items, AnimationBufs(xs), [a.displayedName]);
      MotionsOfSnoc(xs, a);
      xs', stop := xs + [a], false;
    }

    /**
     * The animation loop of ImportAnimations: up to `n` animations read from
     * `s` by `read`, each renamed by ProcessName and registered; the first
     * that cannot be read or named ends the loop.
     */
    method ReadAnimations(read: seq<byte> -> Option<(AnimationData, seq<byte>)>, s: seq<byte>, n: nat)
      returns (xs: seq<Animation>, rest: seq<byte>, failed: bool)
      requires forall t :: read(t).Some? ==> SixChannels(read(t).value.0.motions)
      modifies registry
      ensures var l := Load(read, AnimationName, s, old(registry.Texts()), n);
        AnimationsAs(xs, l, parentCount) && rest == l.rest && failed == l.failed
        && registry.items == old(registry.items) + AnimationBufs(xs)
        && registry.Texts() == old(registry.Texts()) + l.names
      ensures forall a :: a in xs ==> fresh(a) && fresh(a.displayedName) && a.registry == registry
      ensures forall m :: m in MotionsOf(xs) ==> fresh(m) && fresh(m.channels) && m.registry == registry
    {
      ghost var texts, items := registry.Texts(), registry.items;
      ghost var l := Load(read, AnimationName, s, texts, 0);
      xs, rest, failed := [], s, false;
      var i := 0;
      while i < n
        invariant i <= n && l == Load(read, AnimationName, s, texts, i)
        invariant !l.failed && AnimationsAs(xs, l, parentCount) && rest == l.rest
        invariant registry.Texts() == texts + l.names && registry.items == items + AnimationBufs(xs)
        invariant forall a :: a in xs ==> fresh(a) && fresh(a.displayedName) && a.registry == registry
        invariant forall m :: m in MotionsOf(xs) ==> fresh(m) && fresh(m.channels) && m.registry == registry
      {
        var stop;
        xs, rest, stop := AnimationTurn(read, rest, s, texts, items, i, n, xs);
        assert forall m :: m in MotionsOf(xs) ==> fresh(m) && fresh(m.channels) && m.registry == registry;
        if stop {
          failed := true;
          return;
        }
        i := i + 1;
        l := Load(read, AnimationName, s, texts, i);
      }
    }

    /**
     * ImportAnimations, without the append to the list: the tagged count,
     * then the animation loop. The message is the exception's, when one ends
     * the section.
     */
    method ImportAnimationSection(s: seq<byte>) returns (xs: seq<Animation>, rest: seq<byte>, err: Option<string>)
      modifies registry
      ensures var l := LoadSection(ReadAnimation, AnimationName, s, old(registry.Texts()));
        && err == (if l.None? then Some(CountFailure("animation"))
                   else if l.value.failed then Some(AnimationFailure(|l.value.items|)) else None)
        && AnimationsAs(xs, if l.None? then Unreached() else l.value, parentCount)
        && (l.Some? ==> rest == l.value.rest)
        && registry.items == old(registry.items) + AnimationBufs(xs)
        && registry.Texts() == old(registry.Texts()) + (if l.None? then [] else l.value.names)
      ensures forall a :: a in xs ==> fresh(a) && fresh(a.displayedName) && a.registry == registry
      ensures forall m :: m in MotionsOf(xs) ==> fresh(m) && fresh(m.channels) && m.registry == registry
    {
      var count := TaggedU32(s);
      if count.None? {
        return [], s, Some(CountFailure("animation"));
      }
      forall t | ReadAnimation(t).Some?
        ensures SixChannels(ReadAnimation(t).value.0.motions)
      {
        ReadAnimationSix(t, ReadAnimation(t).value.0, ReadAnimation(t).value.1);
      }
      var failed;
      xs, rest, failed := ReadAnimations(ReadAnimation, count.value.1, count.value.0);
      err := if failed then Some(AnimationFailure(|xs|)) else None;
    }

    /** ImportAnimations, once the bones are in: the last stage of an import. */
    method AnimationsStage(s: seq<byte>, ghost n0: Loaded<ElementData>, ghost m0: Loaded<ElementData>,
                           ghost b0: Loaded<ElementData>)
      returns (err: Option<string>, ghost xs: seq<Animation>)
      modifies this`animations, registry
      ensures var p := AfterBones(n0, m0, b0, s, old(registry.Texts()));
        && err == p.error && p.nodes == n0 && p.meshes == m0 && p.bones == b0
        && animations == old(animations) + xs && AnimationsAs(xs, p.animations, parentCount)
        && registry.items == old(registry.items) + AnimationBufs(xs)
        && registry.Texts() == old(registry.Texts()) + p.animations.names
      ensures forall a :: a in xs ==> fresh(a) && fresh(a.displayedName) && a.registry == registry
      ensures forall m :: m in MotionsOf(xs) ==> fresh(m) && fresh(m.channels) && m.registry == registry
    {
      var added, rest;
      added, rest, err := ImportAnimationSection(s);
      animations := animations + added;
      xs := added;
    }

    /** ImportBones, then the animations when the bones are all in. */
    method BonesStage(s: seq<byte>, ghost n0: Loaded<ElementData>, ghost m0: Loaded<ElementData>)
      returns (err: Option<string>, ghost bs: seq<Element>, ghost xs: seq<Animation>)
      modifies this`bones, this`animations, registry
      ensures var p := AfterMeshes(n0, m0, s, old(registry.Texts()));
        && err == p.error && p.nodes == n0 && p.meshes == m0
        && bones == old(bones) + bs && LoadedAs(bs, BoneKind, p.bones, parentCount)
        && animations == old(animations) + xs && AnimationsAs(xs, p.animations, parentCount)
        && registry.items == old(registry.items) + (NameBufs(bs) + AnimationBufs(xs))
        && registry.Texts() == old(registry.Texts()) + (p.bones.names + p.animations.names)
      ensures forall e :: e in bs ==> fresh(e) && fresh(e.name) && e.registry == registry
      ensures forall a :: a in xs ==> fresh(a) && fresh(a.displayedName) && a.registry == registry
      ensures forall m :: m in MotionsOf(xs) ==> fresh(m) && fresh(m.channels) && m.registry == registry
    {
      ghost var texts, items := registry.Texts(), registry.items;
      ghost var l := ElementStage(BoneKind, s, texts);
      var added, rest;
      added, rest, err := ImportSection(BoneKind, s);
      bones := bones + added;
      bs := added;
      if err.Some? {
        xs := [];
        assert AnimationBufs(xs) == [];
        return;
      }
      err, xs := AnimationsStage(rest, n0, m0, l.value);
      Regroup(texts, l.value.names, AfterBones(n0, m0, l.value, rest, texts + l.value.names).animations.names);
      Regroup(items, NameBufs(bs), AnimationBufs(xs));
    }

    /** ImportMeshes, then the later stages when the meshes are all in. */
    method MeshesStage(s: seq<byte>, ghost n0: Loaded<ElementData>)
      returns (err: Option<string>, ghost ms: seq<Element>, ghost bs: seq<Element>, ghost xs: seq<Animation>)
      modifies this`meshes, this`bones, this`animations, registry
      ensures var p := AfterNodes(n0, s, old(registry.Texts()));
        && err == p.error && p.nodes == n0
        && meshes == old(meshes) + ms && LoadedAs(ms, MeshKind, p.meshes, parentCount)
        && bones == old(bones) + bs && LoadedAs(bs, BoneKind, p.bones, parentCount)
        && animations == old(animations) + xs && AnimationsAs(xs, p.animations, parentCount)
        && registry.items == old(registry.items) + (NameBufs(ms) + (NameBufs(bs) + AnimationBufs(xs)))
        && registry.Texts() == old(registry.Texts()) + (p.meshes.names + (p.bones.names + p.animations.names))
      ensures forall e :: e in ms + bs ==> fresh(e) && fresh(e.name) && e.registry == registry
      ensures forall a :: a in xs ==> fresh(a) && fresh(a.displayedName) && a.registry == registry
      ensures forall m :: m in MotionsOf(xs) ==> fresh(m) && fresh(m.channels) && m.registry == registry
    {
      ghost var texts, items := registry.Texts(), registry.items;
      ghost var l := ElementStage(MeshKind, s, texts);
      var added, rest;
      added, rest, err := ImportSection(MeshKind, s);
      meshes := meshes + added;
      ms := added;
      if err.Some? {
        bs, xs := [], [];
        assert NameBufs(bs) + AnimationBufs(xs) == [];
        return;
      }
      err, bs, xs := BonesStage(rest, n0, l.value);
      ghost var p := AfterMeshes(n0, l.value, rest, texts + l.value.names);
      Regroup(texts, l.value.names, p.bones.names + p.animations.names);
      Regroup(items, NameBufs(ms), NameBufs(bs) + AnimationBufs(xs));
    }

    /** ImportNodes, then the later stages when the nodes are all in. */
    method NodesStage(s: seq<byte>)
      returns (err: Option<string>, ghost ns: seq<Element>, ghost ms: seq<Element>, ghost bs: seq<Element>,
               ghost xs: seq<Animation>)
      modifies this`nodes, this`meshes, this`bones, this`animations, registry
      ensures var p := AfterHeader(s, old(registry.Texts()));
        && err == p.error
        && nodes == old(nodes) + ns && LoadedAs(ns, NodeKind, p.nodes, parentCount)
        && meshes == old(meshes) + ms && LoadedAs(ms, MeshKind, p.meshes, parentCount)
        && bones == old(bones) + bs && LoadedAs(bs, BoneKind, p.bones, parentCount)
        && animations == old(animations) + xs && AnimationsAs(xs, p.animations, parentCount)
        && registry.items == old(registry.items) + (NameBufs(ns) + (NameBufs(ms) + (NameBufs(bs) + AnimationBufs(xs))))
        && registry.Texts() == old(registry.Texts()) + (p.nodes.names + (p.meshes.names + (p.bones.names + p.animations.names)))
      ensures forall e :: e in ns + ms + bs ==> fresh(e) && fresh(e.name) && e.registry == registry
      ensures forall a :: a in xs ==> fresh(a) && fresh(a.displayedName) && a.registry == registry
      ensures forall m :: m in MotionsOf(xs) ==> fresh(m) && fresh(m.channels) && m.registry == registry
    {
      ghost var texts, items := registry.Texts(), registry.items;
      ghost var l := ElementStage(NodeKind, s, texts);
      var added, rest;
      added, rest, err := ImportSection(NodeKind, s);
      nodes := nodes + added;
      ns := added;
      if err.Some? {
        ms, bs, xs := [], [], [];
        assert NameBufs(ms) + (NameBufs(bs) + AnimationBufs(xs)) == [];
        return;
      }
      err, ms, bs, xs := MeshesStage(rest, l.value);
      ghost var p := AfterNodes(l.value, rest, texts + l.value.names);
      Regroup(texts, l.value.names, p.meshes.names + (p.bones.names + p.animations.names));
      Regroup(items, NameBufs(ns), NameBufs(ms) + (NameBufs(bs) + AnimationBufs(xs)));
      forall e | e in ns + ms + bs
        ensures fresh(e) && fresh(e.name) && e.registry == registry
      {
        assert e in ns || e in ms + bs;
      }
    }

    /**
     * The reads of Import between the seek to the start and
     * UpdateParentName: the header, then the four sections, each list
     * growing by what its section added; the first exception ends it, with
     * its message.
     */
    method ImportStages(data: seq<byte>)
      returns (err: Option<string>, ghost ns: seq<Element>, ghost ms: seq<Element>, ghost bs: seq<Element>,
               ghost xs: seq<Animation>)
      modifies this`parentCount, this`nodes, this`meshes, this`bones, this`animations, registry
      ensures parentCount == |old(registry.items)|
      ensures var p := ImportPlan(data, old(registry.Texts()));
        && err == p.error
        && nodes == old(nodes) + ns && LoadedAs(ns, NodeKind, p.nodes, parentCount)
        && meshes == old(meshes) + ms && LoadedAs(ms, MeshKind, p.meshes, parentCount)
        && bones == old(bones) + bs && LoadedAs(bs, BoneKind, p.bones, parentCount)
        && animations == old(animations) + xs && AnimationsAs(xs, p.animations, parentCount)
        && registry.items == old(registry.items) + (NameBufs(ns) + (NameBufs(ms) + (NameBufs(bs) + AnimationBufs(xs))))
        && registry.Texts() == old(registry.Texts()) + (p.nodes.names + (p.meshes.names + (p.bones.names + p.animations.names)))
      ensures forall e :: e in ns + ms + bs ==> fresh(e) && fresh(e.name) && e.registry == registry
      ensures forall a :: a in xs ==> fresh(a) && fresh(a.displayedName) && a.registry == registry
      ensures forall m :: m in MotionsOf(xs) ==> fresh(m) && fresh(m.channels) && m.registry == registry
      ensures forall e: Element :: e in old(nodes) || e in old(meshes) || e in old(bones) ==>
                unchanged(e`parentId, e`parentName, e`realName, e`pivot, e`position, e`scale, e`attributes,
                          e`influenceMapName, e`restLength)
                && e.name.text == old(e.name.text)
      ensures forall a: Animation, m: Motion :: a in old(animations) && m in a.motions ==>
                unchanged(m`nodeId, m`parentName)
    {
      parentCount := |registry.items|;
      var header := ReadHeader(data);
      if header.None? {
        ns, ms, bs, xs := [], [], [], [];
        assert NameBufs(ns) + (NameBufs(ms) + (NameBufs(bs) + AnimationBufs(xs))) == [];
        return Some(HeaderFailure), ns, ms, bs, xs;
      }
      err, ns, ms, bs, xs := NodesStage(header.value);
    }

    /**
     * Import of one file: the registry's size becomes the shift for the
     * file's ids, the four sections are read into the lists, and, when no
     * exception ended the reads, every parent and motion node is resolved.
     * The exception's message is the outcome; what was added before it stays.
     */
    method Import(data: seq<byte>)
      returns (o: Outcome, ghost ns: seq<Element>, ghost ms: seq<Element>, ghost bs: seq<Element>,
               ghost xs: seq<Animation>)
      modifies this`parentCount, this`nodes, this`meshes, this`bones, this`animations, registry
      modifies (set e | e in nodes + meshes + bones), MotionsOf(animations)
      ensures parentCount == |old(registry.items)|
      ensures var p := ImportPlan(data, old(registry.Texts()));
        && o == (if p.error.None? then Pass else Fail(p.error.value))
        && nodes == old(nodes) + ns && LoadedAs(ns, NodeKind, p.nodes, parentCount)
        && meshes == old(meshes) + ms && LoadedAs(ms, MeshKind, p.meshes, parentCount)
        && bones == old(bones) + bs && LoadedAs(bs, BoneKind, p.bones, parentCount)
        && animations == old(animations) + xs && AnimationsAs(xs, p.animations, parentCount)
        && registry.items == old(registry.items) + (NameBufs(ns) + (NameBufs(ms) + (NameBufs(bs) + AnimationBufs(xs))))
        && registry.Texts() == old(registry.Texts()) + (p.nodes.names + (p.meshes.names + (p.bones.names + p.animations.names)))
      ensures forall e :: e in ns + ms + bs ==> fresh(e) && fresh(e.name) && e.registry == registry
      ensures o.Pass? ==> forall e :: e in ns + ms + bs && 0 <= e.parentId < |e.registry.items| ==>
                e.parentName == e.registry.items[e.parentId]
      ensures o.Pass? ==> forall m :: m in MotionsOf(xs) && 0 <= m.nodeId < |m.registry.items| ==>
                m.parentName == m.registry.items[m.nodeId]
      ensures forall e: Element :: e in old(nodes) || e in old(meshes) || e in old(bones) ==>
                unchanged(e`parentId, e`realName, e`pivot, e`position, e`scale, e`attributes, e`influenceMapName, e`restLength)
                && e.name.text == old(e.name.text)
      ensures forall e: Element :: e in old(nodes) || e in old(meshes) || e in old(bones) ==>
                e.parentName == if o.Pass? then Resolved(old(e.parentName), e.parentId, e.registry.items)
                                else old(e.parentName)
      ensures forall a: Animation, m: Motion :: a in old(animations) && m in a.motions ==>
                unchanged(m`nodeId)
                && m.parentName == if o.Pass? then Resolved(old(m.parentName), m.nodeId, m.registry.items)
                                   else old(m.parentName)
    {
      var err;
      err, ns, ms, bs, xs := ImportStages(data);
      if err.Some? {
        return Fail(err.value), ns, ms, bs, xs;
      }
      ResolveImported(ns, ms, bs, xs, ImportPlan(data, old(registry.Texts())),
                      old(nodes), old(meshes), old(bones), old(animations));
      o := Pass;
    }
  }

  /** The elements of three lists are among them once each list is extended. */
  lemma ListsGrow(n0: seq<Element>, ns: seq<Element>, m0: seq<Element>, ms: seq<Element>,
                  b0: seq<Element>, bs: seq<Element>)
    ensures forall e :: e in n0 || e in m0 || e in b0 ==> e in (n0 + ns) + (m0 + ms) + (b0 + bs)
    ensures forall e :: e in ns + ms + bs ==> e in (n0 + ns) + (m0 + ms) + (b0 + bs)
  {
  }

  /**
   * After an import, the id an imported element carries for the element the
   * file numbered `raw` names the buffer that element was added under: the
   * shift moves file ids past the `items0` already registered.
   */
  lemma ParentIsImported(items0: seq<Buf>, added: seq<Buf>, raw: int)
    requires 0 <= raw < |added| && IsInt32(raw + |items0|)
    ensures 0 <= ShiftId(raw, |items0|) < |items0 + added|
    ensures (items0 + added)[ShiftId(raw, |items0|)] == added[raw]
  {
  }

  /** An entry inserted after "None" and `front` keeps the registry ordered: `front`, the entry, the rest. */
  lemma InsertKeepsOrder<T>(items: seq<T>, front: seq<T>, rest: seq<T>, x: T)
    requires |items| >= 1 && items[1..] == front + rest
    ensures 1 + |front| <= |items|
    ensures (items[..1 + |front|] + [x] + items[1 + |front|..])[1..] == front + [x] + rest
  {
    assert items[1..1 + |front|] == front;
    assert items[1 + |front|..] == rest;
  }

  /** The four lists with a node entry added, regrouped around the place of the entry. */
  lemma GroupedNode<T>(n: seq<T>, m: seq<T>, b: seq<T>, a: seq<T>, x: T)
    ensures n + m + b + a == n + (m + b + a) && (n + [x]) + m + b + a == n + [x] + (m + b + a)
  {
  }

  /** The same with a mesh entry added. */
  lemma GroupedMesh<T>(n: seq<T>, m: seq<T>, b: seq<T>, a: seq<T>, x: T)
    ensures n + m + b + a == (n + m) + (b + a) && n + (m + [x]) + b + a == (n + m) + [x] + (b + a)
  {
  }

  /** The same with a bone entry added. */
  lemma GroupedBone<T>(n: seq<T>, m: seq<T>, b: seq<T>, a: seq<T>, x: T)
    ensures n + m + (b + [x]) + a == (n + m + b) + [x] + a
  {
  }

  /** The same with an animation entry added. */
  lemma GroupedAnimation<T>(n: seq<T>, m: seq<T>, b: seq<T>, a: seq<T>, x: T)
    ensures n + m + b + (a + [x]) == (n + m + b + a) + [x] + []
  {
  }

  /**
   * The root id from the parent ids of the nodes and of the meshes: the
   * first mesh without a parent (its id follows the nodes'), else the first
   * node without one, else 0.
   */
  function RootOf(nodeParents: seq<int>, meshParents: seq<int>, nodeCount: int): (r: int)
    ensures -1 in meshParents ==> r == nodeCount + FirstIndex(meshParents, -1)
    ensures -1 !in meshParents && -1 in nodeParents ==> r == FirstIndex(nodeParents, -1)
    ensures -1 !in meshParents && -1 !in nodeParents ==> r == 0
  {
    if -1 in meshParents then nodeCount + FirstIndex(meshParents, -1)
    else if -1 in nodeParents then FirstIndex(nodeParents, -1)
    else 0
  }
}
