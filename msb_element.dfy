// The elements of a mesh scene as the editor holds them: nodes, meshes and
// bones (class Element; a bone's two extra properties live here too),
// animations and their motions. Each element holds the tool's name registry
// and a name buffer that the registry shares, so renaming an element rewrites
// the registry entry and every parent reference to it.
module MsbElements {
  import opened Wrappers
  import opened Machine
  import opened Float32
  import opened Text
  import opened MsbRecords
  import opened MsbNames

  const ReservedNameMessage: string := "This name is used by the program. It's better to not use it."
  const DuplicateNameMessage: string := "An element with the same name already exists. Please choose an other name."
  const InvalidNameMessage: string := "Invalid name."

  /**
   * The parent reference UpdateParentName leaves: the registry entry at `id`
   * when `id` is a position of the registry, otherwise the current one.
   */
  function Resolved(current: Buf?, id: int, items: seq<Buf>): Buf?
  {
    if 0 <= id < |items| then items[id] else current
  }

  /** The text a parent reference shows, with `absent` for null. */
  function Shown(b: Buf?, absent: string): string
    reads b
  {
    if b == null then absent else b.text
  }

  /** A node, mesh or bone. */
  class Element {
    var parentId: int
    var parentName: Buf?
    /** The name buffer; the registry holds the same reference. */
    const name: Buf
    var realName: string
    var pivot: Point3d
    var position: Point3d
    var scale: Point3d
    var attributes: seq<Attribute>
    const registry: NameList
    /** Bone.InfluenceMapName: null until it is set. */
    var influenceMapName: Option<string>
    /** Bone.RestLength. */
    var restLength: F32

    constructor (registry: NameList, name: Buf)
      ensures this.registry == registry && this.name == name
      ensures parentId == -1 && parentName == null && realName == name.text
      ensures pivot == Origin3d && position == Origin3d && scale == Origin3d && attributes == []
      ensures influenceMapName == None && restLength == Zero
    {
      this.registry := registry;
      this.name := name;
      parentId := -1;
      parentName := null;
      realName := name.text;
      pivot, position, scale := Origin3d, Origin3d, Origin3d;
      attributes := [];
      influenceMapName := None;
      restLength := Zero;
    }

    /** The Name property as the editor shows it (DisplayedName). */
    function DisplayedName(): string
      reads name
    {
      name.text
    }

    /** The ParentName getter: the parent buffer's current text, "None" without one. */
    function ParentName(): string
      reads this, parentName
    {
      Shown(parentName, "None")
    }

    /**
     * The Name setter: refuses "None", any text already registered (this
     * element's own name included) and blank text; otherwise rewrites the
     * shared buffer in place, so the registry entry holding it and every
     * parent reference to it show the new text.
     */
    method SetName(value: string) returns (o: Outcome)
      modifies name
      ensures o.Pass? <==> value != "None" && value !in old(registry.Texts()) && !IsBlank(value)
      ensures value == "None" ==> o == Fail(ReservedNameMessage)
      ensures value != "None" && value in old(registry.Texts()) ==> o == Fail(DuplicateNameMessage)
      ensures value != "None" && value !in old(registry.Texts()) && IsBlank(value) ==> o == Fail(InvalidNameMessage)
      ensures DisplayedName() == if o.Pass? then value else old(DisplayedName())
      ensures forall i :: 0 <= i < |registry.items| ==>
                registry.Texts()[i] == if o.Pass? && registry.items[i] == name then value else old(registry.Texts())[i]
      ensures o.Pass? ==> forall e: Element :: e.parentName == name ==> e.ParentName() == value
      ensures o.Pass? ==> forall m: Motion :: m.parentName == name ==> m.Node() == value
    {
      if value == "None" {
        return Fail(ReservedNameMessage);
      }
      var found := IndexOfText(registry, value);
      if found != -1 {
        return Fail(DuplicateNameMessage);
      } else if IsBlank(value) {
        return Fail(InvalidNameMessage);
      }
      name.text := value;
      return Pass;
    }

    /** The ParentName setter: the first registry buffer with that text, or null. */
    method SetParentName(value: string)
      modifies this`parentName
      ensures parentName == FirstWithText(registry.items, value)
      ensures ParentName() == if value in registry.Texts() then value else "None"
    {
      parentName := FindText(registry, value);
    }

    /** UpdateParentName: the registry entry at ParentId when ParentId is one of its positions. */
    method UpdateParentName()
      modifies this`parentName
      ensures parentName == Resolved(old(parentName), parentId, registry.items)
      ensures 0 <= parentId < |registry.items| ==> ParentName() == registry.Texts()[parentId]
    {
      if parentId >= 0 && parentId < |registry.items| {
        parentName := registry.items[parentId];
      }
    }

    /**
     * GetParentId: the position of the first registry entry with the parent's
     * text, minus one, as a uint; 0xFFFFFFFF without a parent, when no entry
     * matches, and for the entry at position 0 ("None"), which wraps.
     */
    method GetParentId() returns (r: u32)
      requires |registry.items| <= Int32Max
      ensures r == UInt32Max <==> parentName == null || FirstIndex(registry.Texts(), parentName.text) <= 0
      ensures r != UInt32Max ==> parentName != null && FirstIndex(registry.Texts(), parentName.text) == r + 1
    {
      if parentName != null {
        var i := IndexOfText(registry, parentName.text);
        if i != -1 {
          return AsUInt32(i - 1);
        }
      }
      return 0xFFFF_FFFF;
    }

    /**
     * ProcessName: when the displayed name is already registered, it becomes
     * base + "_" + (max + 1) (see ProcessedName); an exception when max is
     * int.MaxValue.
     */
    method ProcessName() returns (o: Outcome)
      modifies name
      ensures o.Pass? <==> ProcessedName(old(DisplayedName()), old(registry.Texts())).Some?
      ensures o.Pass? ==> DisplayedName() == ProcessedName(old(DisplayedName()), old(registry.Texts())).value
      ensures o.Pass? ==> DisplayedName() !in old(registry.Texts())
      ensures o.Fail? ==> DisplayedName() == old(DisplayedName())
    {
      o := ProcessBuf(name, registry);
    }

    /** AddAttribute: appends one attribute. */
    method AddAttribute(a: Attribute)
      modifies this`attributes
      ensures attributes == old(attributes) + [a]
    {
      attributes := attributes + [a];
    }
  }

  /** An animation: a displayed name, the real name the file stores, a duration and motions. */
  class Animation {
    /** The displayed-name buffer; the registry holds the same reference. */
    const displayedName: Buf
    var realName: string
    var duration: F32
    var motions: seq<Motion>
    const registry: NameList

    /** The name buffer is shared, and RealName starts as its text. */
    constructor (registry: NameList, name: Buf)
      ensures this.registry == registry && displayedName == name
      ensures realName == name.text && duration == Zero && motions == []
    {
      this.registry := registry;
      displayedName := name;
      realName := name.text;
      duration := Zero;
      motions := [];
    }

    function DisplayedName(): string
      reads displayedName
    {
      displayedName.text
    }

    /**
     * The DisplayedName setter: like Element's Name setter but without the
     * "None" check; refuses registered and blank text, otherwise rewrites the
     * shared buffer in place.
     */
    method SetDisplayedName(value: string) returns (o: Outcome)
      modifies displayedName
      ensures o.Pass? <==> value !in old(registry.Texts()) && !IsBlank(value)
      ensures value in old(registry.Texts()) ==> o == Fail(DuplicateNameMessage)
      ensures value !in old(registry.Texts()) && IsBlank(value) ==> o == Fail(InvalidNameMessage)
      ensures DisplayedName() == if o.Pass? then value else old(DisplayedName())
      ensures forall i :: 0 <= i < |registry.items| ==>
                registry.Texts()[i] == if o.Pass? && registry.items[i] == displayedName then value else old(registry.Texts())[i]
    {
      var found := IndexOfText(registry, value);
      if found != -1 {
        return Fail(DuplicateNameMessage);
      } else if IsBlank(value) {
        return Fail(InvalidNameMessage);
      }
      displayedName.text := value;
      return Pass;
    }

    /** AddMotion: appends one motion. */
    method AddMotion(m: Motion)
      modifies this`motions
      ensures motions == old(motions) + [m]
    {
      motions := motions + [m];
    }

    /** UpdateMotionNode: UpdateParentName on every motion, in order; nothing else changes. */
    method UpdateMotionNode()
      modifies set m | m in motions
      ensures forall m :: m in motions ==> m.parentName == Resolved(old(m.parentName), m.nodeId, m.registry.items)
      ensures forall m :: m in motions ==> m.nodeId == old(m.nodeId)
    {
      for i := 0 to |motions|
        invariant forall m :: m in motions ==> m.nodeId == old(m.nodeId)
        invariant forall j :: 0 <= j < |motions| ==>
          motions[j].parentName == if motions[j] in motions[..i]
                                   then Resolved(old(motions[j].parentName), motions[j].nodeId, motions[j].registry.items)
                                   else old(motions[j].parentName)
      {
        motions[i].UpdateParentName();
        assert motions[..i + 1] == motions[..i] + [motions[i]];
      }
      assert motions[..|motions|] == motions;
    }

    /** ProcessName: the same renaming rule as Element's, on the displayed name. */
    method ProcessName() returns (o: Outcome)
      modifies displayedName
      ensures o.Pass? <==> ProcessedName(old(DisplayedName()), old(registry.Texts())).Some?
      ensures o.Pass? ==> DisplayedName() == ProcessedName(old(DisplayedName()), old(registry.Texts())).value
      ensures o.Pass? ==> DisplayedName() !in old(registry.Texts())
      ensures o.Fail? ==> DisplayedName() == old(DisplayedName())
    {
      o := ProcessBuf(displayedName, registry);
    }
  }

  /** One animated element of an animation: the element's id, its node reference and six keyframe channels. */
  class Motion {
    var nodeId: int
    var parentName: Buf?
    /** The six keyframe lists. */
    const channels: array<seq<Keyframe>>
    const registry: NameList

    /** Six empty channels and no node. */
    constructor (registry: NameList)
      ensures this.registry == registry && nodeId == -1 && parentName == null
      ensures fresh(channels) && channels.Length == 6
      ensures forall k :: 0 <= k < channels.Length ==> channels[k] == []
    {
      this.registry := registry;
      nodeId := -1;
      parentName := null;
      channels := new seq<Keyframe>[6];
      new;
      for i := 0 to 6
        invariant channels.Length == 6 && nodeId == -1 && parentName == null
        invariant forall k :: 0 <= k < i ==> channels[k] == []
      {
        channels[i] := [];
      }
    }

    /** AddKeyframe(k, kf): appends kf to channel k; the other channels are unchanged. */
    method AddKeyframe(k: int, kf: Keyframe)
      requires 0 <= k < channels.Length
      modifies channels
      ensures channels[k] == old(channels[k]) + [kf]
      ensures forall j :: 0 <= j < channels.Length && j != k ==> channels[j] == old(channels[j])
    {
      channels[k] := channels[k] + [kf];
    }

    /** The Node getter: the node buffer's current text, "None" without one. */
    function Node(): string
      reads this, parentName
    {
      Shown(parentName, "None")
    }

    /** The Node setter: the first registry buffer with that text, or null. */
    method SetNode(value: string)
      modifies this`parentName
      ensures parentName == FirstWithText(registry.items, value)
      ensures Node() == if value in registry.Texts() then value else "None"
    {
      parentName := FindText(registry, value);
    }

    /** UpdateParentName: the registry entry at NodeId when NodeId is one of its positions. */
    method UpdateParentName()
      modifies this`parentName
      ensures parentName == Resolved(old(parentName), nodeId, registry.items)
      ensures 0 <= nodeId < |registry.items| ==> Node() == registry.Texts()[nodeId]
    {
      if nodeId >= 0 && nodeId < |registry.items| {
        parentName := registry.items[nodeId];
      }
    }

    /** ToString: the node's name, and "Motion" (where Node shows "None") without one. */
    function ToString(): (r: string)
      reads this, parentName
      ensures parentName != null ==> r == Node()
      ensures parentName == null ==> r == "Motion" && Node() == "None"
    {
      Shown(parentName, "Motion")
    }
  }
}
