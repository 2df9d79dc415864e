// The value types of a mesh scene (MSB) file: attribute kinds, attributes,
// points and animation keyframes, and the plain-data view of the scene's
// elements that the writer and the reader agree on.
module MsbRecords {
  import opened Machine
  import opened Float32

  /** The attribute kinds an element can carry, in declaration order. */
  datatype AttributeName =
    | GunPlacement
    | BoardingEffectPoint
    | DamageSection
    | DockPoint
    | EnginePortPlacement
    | FlagAttachmentPoint
    | GunMuzzlePlacement
    | GunVerticalPivotPlacement
    | PlayEffect
    | TorpedoHomingPoint
    | ToweePoint
    | TowerPoint
    | WakePlacement

  /** Enum.ToString(): the member's identifier, as Export writes it. */
  function AttributeText(a: AttributeName): string
  {
    match a
    case GunPlacement => "GunPlacement"
    case BoardingEffectPoint => "BoardingEffectPoint"
    case DamageSection => "DamageSection"
    case DockPoint => "DockPoint"
    case EnginePortPlacement => "EnginePortPlacement"
    case FlagAttachmentPoint => "FlagAttachmentPoint"
    case GunMuzzlePlacement => "GunMuzzlePlacement"
    case GunVerticalPivotPlacement => "GunVerticalPivotPlacement"
    case PlayEffect => "PlayEffect"
    case TorpedoHomingPoint => "TorpedoHomingPoint"
    case ToweePoint => "ToweePoint"
    case TowerPoint => "TowerPoint"
    case WakePlacement => "WakePlacement"
  }

  /**
   * GetAttributeName: the member spelled `text`, and GunPlacement for every
   * text that spells no member (so any other result is spelled by `text`).
   */
  function GetAttributeName(text: string): (r: AttributeName)
    ensures r != GunPlacement ==> text == AttributeText(r)
  {
    if text == "BoardingEffectPoint" then BoardingEffectPoint
    else if text == "DamageSection" then DamageSection
    else if text == "DockPoint" then DockPoint
    else if text == "EnginePortPlacement" then EnginePortPlacement
    else if text == "FlagAttachmentPoint" then FlagAttachmentPoint
    else if text == "GunMuzzlePlacement" then GunMuzzlePlacement
    else if text == "GunPlacement" then GunPlacement
    else if text == "GunVerticalPivotPlacement" then GunVerticalPivotPlacement
    else if text == "PlayEffect" then PlayEffect
    else if text == "TorpedoHomingPoint" then TorpedoHomingPoint
    else if text == "ToweePoint" then ToweePoint
    else if text == "TowerPoint" then TowerPoint
    else if text == "WakePlacement" then WakePlacement
    else GunPlacement
  }

  /** Every member's spelling is read back as that member. */
  lemma AttributeNameRoundTrip(a: AttributeName)
    ensures GetAttributeName(AttributeText(a)) == a
  {
    match a
    case GunPlacement =>
    case BoardingEffectPoint =>
    case DamageSection =>
    case DockPoint =>
    case EnginePortPlacement =>
    case FlagAttachmentPoint =>
    case GunMuzzlePlacement =>
    case GunVerticalPivotPlacement =>
    case PlayEffect =>
    case TorpedoHomingPoint =>
    case ToweePoint =>
    case TowerPoint =>
    case WakePlacement =>
  }

  /** An attribute: its kind and the descriptor name it points at. */
  datatype Attribute = Attribute(name: AttributeName, descriptor: string)

  /** Point3d: three floats, all zero when created. */
  datatype Point3d = Point3d(x: F32, y: F32, z: F32)

  const Origin3d: Point3d := Point3d(Zero, Zero, Zero)

  /** One keyframe of an animation channel. */
  datatype Keyframe = Keyframe(time: F32, value: F32, smoothing: u32, tension: F32, continuity: F32,
                               bias: F32, incoming: F32, outgoing: F32)

  /** The three kinds of scene element, with the type number the file stores. */
  datatype Kind = NodeKind | MeshKind | BoneKind

  function TypeNumber(k: Kind): int
  {
    match k
    case NodeKind => 0
    case MeshKind => 1
    case BoneKind => 2
  }

  /**
   * What the file holds for one element: its parent id, real name, pivot,
   * position, scale and attributes, and for a bone its influence map name and
   * rest length.
   */
  datatype ElementData = ElementData(parentId: int, realName: string, pivot: Point3d, position: Point3d,
                                     scale: Point3d, attributes: seq<Attribute>,
                                     influenceMapName: string, restLength: F32)

  /** What the file holds for one motion: its node id and its six channels. */
  datatype MotionData = MotionData(nodeId: int, channels: seq<seq<Keyframe>>)

  /** What the file holds for one animation. */
  datatype AnimationData = AnimationData(realName: string, duration: F32, motions: seq<MotionData>)
}
