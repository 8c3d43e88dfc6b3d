/**
 * The items of Yoku's Island Express (worlds/yoku/Items.py): the ItemName
 * enum, the data of every item in `item_table`, the lookup of an item from one
 * of the game's own item ids, and the game ids of an item.
 */
module Items {
  import opened Wrappers
  import Dicts

  /** How important an item is to the multiworld. */
  datatype ItemType = Normal | Progression | Junk

  /** What an item is used for in the game. */
  datatype ItemGroup = Collectible | Fruit | Movement | Tracker | Keys | Quest | Misc

  /**
   * The data of one item: its id in the multiworld, the number of copies put
   * in the pool, its importance, its group and the ids the game uses for it.
   */
  datatype ItemData = ItemData(id: int, count: int, itemType: ItemType, group: ItemGroup, yokuIds: seq<string>)

  /**
   * The members of the string enum ItemName, in declaration order. Two
   * attributes of the enum repeat an earlier value; an enum makes such an
   * attribute an alias of the earlier member, so it is not a member of its
   * own (see `Member`).
   */
  datatype ItemName =
    | AbilitiesDive
    | AbilitiesDoubleFruit
    | AbilitiesKickback
    | AbilitiesMailbag
    | AbilitiesPartyhorn
    | AbilitiesSlugVacuum
    | AbilitiesSpeed
    | Bluekey
    | BucketEmpty
    | DustbunnyDirty
    | Greenkey
    | Guano
    | Idol1
    | Idol2
    | Idol3
    | Idol4
    | Mushroom2
    | Mushroom3
    | NimKey
    | Nugget
    | PostalBadge
    | PowerupsSkvader1
    | RewardFruitMedium
    | RewardFruitBig
    | SeedPod
    | SkinsSkin1
    | SkinsSkin2
    | SkinsSkin3
    | SkinsSkin4
    | SkinsSkin5
    | SootlingLeash
    | Spores1
    | Spores2
    | Spores3
    | Spores4
    | Spores5
    | SpringKey
    | Tadpole
    | Toolbox
    | TrackerCaves
    | TrackerJungle
    | TrackerPeak
    | TrackerScarabs
    | TrackerSprings
    | TraitorSpirit
    | TreasureMap
    | Wallet
    | Collectible
  {
    /** The member's value, which is also the item's name in the multiworld. */
    function Value(): string {
      MemberValues[Position()]
    }

    /** The member's position among the members, counting from 0. */
    function Position(): (p: nat)
      ensures p < 48
    {
      match this
      case AbilitiesDive => 0
      case AbilitiesDoubleFruit => 1
      case AbilitiesKickback => 2
      case AbilitiesMailbag => 3
      case AbilitiesPartyhorn => 4
      case AbilitiesSlugVacuum => 5
      case AbilitiesSpeed => 6
      case Bluekey => 7
      case BucketEmpty => 8
      case DustbunnyDirty => 9
      case Greenkey => 10
      case Guano => 11
      case Idol1 => 12
      case Idol2 => 13
      case Idol3 => 14
      case Idol4 => 15
      case Mushroom2 => 16
      case Mushroom3 => 17
      case NimKey => 18
      case Nugget => 19
      case PostalBadge => 20
      case PowerupsSkvader1 => 21
      case RewardFruitMedium => 22
      case RewardFruitBig => 23
      case SeedPod => 24
      case SkinsSkin1 => 25
      case SkinsSkin2 => 26
      case SkinsSkin3 => 27
      case SkinsSkin4 => 28
      case SkinsSkin5 => 29
      case SootlingLeash => 30
      case Spores1 => 31
      case Spores2 => 32
      case Spores3 => 33
      case Spores4 => 34
      case Spores5 => 35
      case SpringKey => 36
      case Tadpole => 37
      case Toolbox => 38
      case TrackerCaves => 39
      case TrackerJungle => 40
      case TrackerPeak => 41
      case TrackerScarabs => 42
      case TrackerSprings => 43
      case TraitorSpirit => 44
      case TreasureMap => 45
      case Wallet => 46
      case Collectible => 47
    }
  }

  /** The value given to each attribute in the body of ItemName, as declared. */
  function DeclaredValue(attribute: string): Option<string> {
    match attribute
    case "AbilitiesDive" => Some("Progressive Dive Fish")
    case "AbilitiesDoubleFruit" => Some("Boon of plenty!")
    case "AbilitiesKickback" => Some("Kickback")
    case "AbilitiesMailbag" => Some("Mail bag")
    case "AbilitiesPartyhorn" => Some("Noisemaker")
    case "AbilitiesSlugVacuum" => Some("Progressive Slug Vacuum")
    case "AbilitiesSlugUpgrade" => Some("Progressive Slug Vacuum")
    case "AbilitiesSpeed" => Some("Grand Postmaster Badge")
    case "Bluekey" => Some("Blue Key")
    case "BucketEmpty" => Some("Empty Bucket")
    case "DustbunnyDirty" => Some("Sootling")
    case "Greenkey" => Some("Green Key")
    case "Guano" => Some("Guano")
    case "Idol1" => Some("Statue Chunk")
    case "Idol2" => Some("Statue Piece")
    case "Idol3" => Some("Statue Piece 2")
    case "Idol4" => Some("Statue Piece 3")
    case "Mushroom2" => Some("Juicy Cove Mushroom")
    case "Mushroom3" => Some("Poison Toadstool")
    case "NimKey" => Some("Nim Key")
    case "Nugget" => Some("Smashed Piece of Statue")
    case "PostalBadge" => Some("Postal Badge")
    case "PowerupsSkvader1" => Some("Progressive Skvader")
    case "PowerupsSkvader2" => Some("Progressive Skvader")
    case "RewardFruitMedium" => Some("5 Fruit")
    case "RewardFruitBig" => Some("10 Fruit")
    case "SeedPod" => Some("Seed Pod")
    case "SkinsSkin1" => Some("Bling Sprinkles")
    case "SkinsSkin2" => Some("Creepy Sprinkles")
    case "SkinsSkin3" => Some("Deadly Sprinkles")
    case "SkinsSkin4" => Some("Crimson Sprinkles")
    case "SkinsSkin5" => Some("Sweet Sprinkles")
    case "SootlingLeash" => Some("Sootling Leash")
    case "Spores1" => Some("Light Spores")
    case "Spores2" => Some("Dry Spores")
    case "Spores3" => Some("Damp Spores")
    case "Spores4" => Some("Annoyed Spores")
    case "Spores5" => Some("Frosty Spores")
    case "SpringKey" => Some("Key to the Underbelly")
    case "Tadpole" => Some("Tadpole")
    case "Toolbox" => Some("Toolbox")
    case "TrackerCaves" => Some("Tracker: Crystal Deep")
    case "TrackerJungle" => Some("Tracker: Gorilla Woods")
    case "TrackerPeak" => Some("Tracker: Ivory Peak")
    case "TrackerScarabs" => Some("Tracker: Scarabs")
    case "TrackerSprings" => Some("Tracker: Marrow Hill")
    case "TraitorSpirit" => Some("Traitor Spirit")
    case "TreasureMap" => Some("Treasure Map")
    case "Wallet" => Some("Progressive Wallet Upgrade")
    case "Collectible" => Some("Wickerling")
    case _ => None
  }

  /** The members in declaration order, the order in which the enum maps values to members. */
  const Members: seq<ItemName> := MembersBlock0 + MembersBlock1 + MembersBlock2 + MembersBlock3 + MembersBlock4 + MembersBlock5

  /** The members' values, position by position, as plain strings. */
  const MemberValues: seq<string> := ValuesBlock0 + ValuesBlock1 + ValuesBlock2 + ValuesBlock3 + ValuesBlock4 + ValuesBlock5

  const MembersBlock0: seq<ItemName> := [ItemName.AbilitiesDive, ItemName.AbilitiesDoubleFruit, ItemName.AbilitiesKickback, ItemName.AbilitiesMailbag, ItemName.AbilitiesPartyhorn, ItemName.AbilitiesSlugVacuum, ItemName.AbilitiesSpeed, ItemName.Bluekey]

  const MembersBlock1: seq<ItemName> := [ItemName.BucketEmpty, ItemName.DustbunnyDirty, ItemName.Greenkey, ItemName.Guano, ItemName.Idol1, ItemName.Idol2, ItemName.Idol3, ItemName.Idol4]

  const MembersBlock2: seq<ItemName> := [ItemName.Mushroom2, ItemName.Mushroom3, ItemName.NimKey, ItemName.Nugget, ItemName.PostalBadge, ItemName.PowerupsSkvader1, ItemName.RewardFruitMedium, ItemName.RewardFruitBig]

  const MembersBlock3: seq<ItemName> := [ItemName.SeedPod, ItemName.SkinsSkin1, ItemName.SkinsSkin2, ItemName.SkinsSkin3, ItemName.SkinsSkin4, ItemName.SkinsSkin5, ItemName.SootlingLeash, ItemName.Spores1]

  const MembersBlock4: seq<ItemName> := [ItemName.Spores2, ItemName.Spores3, ItemName.Spores4, ItemName.Spores5, ItemName.SpringKey, ItemName.Tadpole, ItemName.Toolbox, ItemName.TrackerCaves]

  const MembersBlock5: seq<ItemName> := [ItemName.TrackerJungle, ItemName.TrackerPeak, ItemName.TrackerScarabs, ItemName.TrackerSprings, ItemName.TraitorSpirit, ItemName.TreasureMap, ItemName.Wallet, ItemName.Collectible]

  const ValuesBlock0: seq<string> := ["Progressive Dive Fish", "Boon of plenty!", "Kickback", "Mail bag", "Noisemaker", "Progressive Slug Vacuum", "Grand Postmaster Badge", "Blue Key"]

  const ValuesBlock1: seq<string> := ["Empty Bucket", "Sootling", "Green Key", "Guano", "Statue Chunk", "Statue Piece", "Statue Piece 2", "Statue Piece 3"]

  const ValuesBlock2: seq<string> := ["Juicy Cove Mushroom", "Poison Toadstool", "Nim Key", "Smashed Piece of Statue", "Postal Badge", "Progressive Skvader", "5 Fruit", "10 Fruit"]

  const ValuesBlock3: seq<string> := ["Seed Pod", "Bling Sprinkles", "Creepy Sprinkles", "Deadly Sprinkles", "Crimson Sprinkles", "Sweet Sprinkles", "Sootling Leash", "Light Spores"]

  const ValuesBlock4: seq<string> := ["Dry Spores", "Damp Spores", "Annoyed Spores", "Frosty Spores", "Key to the Underbelly", "Tadpole", "Toolbox", "Tracker: Crystal Deep"]

  const ValuesBlock5: seq<string> := ["Tracker: Gorilla Woods", "Tracker: Ivory Peak", "Tracker: Scarabs", "Tracker: Marrow Hill", "Traitor Spirit", "Treasure Map", "Progressive Wallet Upgrade", "Wickerling"]

  /** Members and MemberValues as the blocks they are written in. */
  const MemberBlocks: seq<seq<ItemName>> := [MembersBlock0, MembersBlock1, MembersBlock2, MembersBlock3, MembersBlock4, MembersBlock5]
  const ValueBlocks: seq<seq<string>> := [ValuesBlock0, ValuesBlock1, ValuesBlock2, ValuesBlock3, ValuesBlock4, ValuesBlock5]

  /** Position `i` of six blocks of eight, joined in order, is position `i % 8` of block `i / 8`. */
  lemma JoinedAt<T>(blocks: seq<seq<T>>, i: nat)
    requires |blocks| == 6 && forall b | 0 <= b < 6 :: |blocks[b]| == 8
    requires i < 48
    ensures |blocks[0] + blocks[1] + blocks[2] + blocks[3] + blocks[4] + blocks[5]| == 48
    ensures (blocks[0] + blocks[1] + blocks[2] + blocks[3] + blocks[4] + blocks[5])[i] == blocks[i / 8][i % 8]
  {
  }

  /** Position `i` of Members and of MemberValues, found in its block. */
  lemma MembersAt(i: nat)
    requires i < 48
    ensures |Members| == |MemberValues| == 48
    ensures Members[i] == MemberBlocks[i / 8][i % 8] && MemberValues[i] == ValueBlocks[i / 8][i % 8]
  {
    JoinedAt(MemberBlocks, i);
    JoinedAt(ValueBlocks, i);
  }

  lemma MemberBlock0a()
    ensures |MembersBlock0| == 8
    ensures forall x | 0 <= x < 4 :: MembersBlock0[x].Position() == 0 + x
  {
  }

  lemma MemberBlock0b()
    ensures |MembersBlock0| == 8
    ensures forall x | 4 <= x < 8 :: MembersBlock0[x].Position() == 0 + x
  {
  }

  lemma MemberBlock0Of(k: ItemName)
    requires 0 <= k.Position() < 8
    ensures |MembersBlock0| == 8 && MembersBlock0[k.Position() - 0] == k
  {
  }

  lemma MemberBlock1a()
    ensures |MembersBlock1| == 8
    ensures forall x | 0 <= x < 4 :: MembersBlock1[x].Position() == 8 + x
  {
  }

  lemma MemberBlock1b()
    ensures |MembersBlock1| == 8
    ensures forall x | 4 <= x < 8 :: MembersBlock1[x].Position() == 8 + x
  {
  }

  lemma MemberBlock1Of(k: ItemName)
    requires 8 <= k.Position() < 16
    ensures |MembersBlock1| == 8 && MembersBlock1[k.Position() - 8] == k
  {
  }

  lemma MemberBlock2a()
    ensures |MembersBlock2| == 8
    ensures forall x | 0 <= x < 4 :: MembersBlock2[x].Position() == 16 + x
  {
  }

  lemma MemberBlock2b()
    ensures |MembersBlock2| == 8
    ensures forall x | 4 <= x < 8 :: MembersBlock2[x].Position() == 16 + x
  {
  }

  lemma MemberBlock2Of(k: ItemName)
    requires 16 <= k.Position() < 24
    ensures |MembersBlock2| == 8 && MembersBlock2[k.Position() - 16] == k
  {
  }

  lemma MemberBlock3a()
    ensures |MembersBlock3| == 8
    ensures forall x | 0 <= x < 4 :: MembersBlock3[x].Position() == 24 + x
  {
  }

  lemma MemberBlock3b()
    ensures |MembersBlock3| == 8
    ensures forall x | 4 <= x < 8 :: MembersBlock3[x].Position() == 24 + x
  {
  }

  lemma MemberBlock3Of(k: ItemName)
    requires 24 <= k.Position() < 32
    ensures |MembersBlock3| == 8 && MembersBlock3[k.Position() - 24] == k
  {
  }

  lemma MemberBlock4a()
    ensures |MembersBlock4| == 8
    ensures forall x | 0 <= x < 4 :: MembersBlock4[x].Position() == 32 + x
  {
  }

  lemma MemberBlock4b()
    ensures |MembersBlock4| == 8
    ensures forall x | 4 <= x < 8 :: MembersBlock4[x].Position() == 32 + x
  {
  }

  lemma MemberBlock4Of(k: ItemName)
    requires 32 <= k.Position() < 40
    ensures |MembersBlock4| == 8 && MembersBlock4[k.Position() - 32] == k
  {
  }

  lemma MemberBlock5a()
    ensures |MembersBlock5| == 8
    ensures forall x | 0 <= x < 4 :: MembersBlock5[x].Position() == 40 + x
  {
  }

  lemma MemberBlock5b()
    ensures |MembersBlock5| == 8
    ensures forall x | 4 <= x < 8 :: MembersBlock5[x].Position() == 40 + x
  {
  }

  lemma MemberBlock5Of(k: ItemName)
    requires 40 <= k.Position() < 48
    ensures |MembersBlock5| == 8 && MembersBlock5[k.Position() - 40] == k
  {
  }

  /** The member at position `i` has position `i`, and its value is at position `i` of MemberValues. */
  lemma MemberAt(i: nat)
    requires i < 48
    ensures |Members| == |MemberValues| == 48
    ensures Members[i].Position() == i && Members[i].Value() == MemberValues[i]
  {
    MembersAt(i);
    if i < 8 { MemberBlock0a(); MemberBlock0b(); } else if i < 16 { MemberBlock1a(); MemberBlock1b(); } else if i < 24 { MemberBlock2a(); MemberBlock2b(); } else if i < 32 { MemberBlock3a(); MemberBlock3b(); } else if i < 40 { MemberBlock4a(); MemberBlock4b(); } else { MemberBlock5a(); MemberBlock5b(); }
  }

  /** Every member is found at its position. */
  lemma MemberOf(k: ItemName)
    ensures |Members| == 48 && Members[k.Position()] == k
  {
    var p := k.Position();
    MembersAt(p);
    if p < 8 { MemberBlock0Of(k); } else if p < 16 { MemberBlock1Of(k); } else if p < 24 { MemberBlock2Of(k); } else if p < 32 { MemberBlock3Of(k); } else if p < 40 { MemberBlock4Of(k); } else { MemberBlock5Of(k); }
  }

  lemma ValueBlocksDistinct00()
    ensures |ValuesBlock0| == 8
    ensures forall x, y | 0 <= x < y < 8 :: ValuesBlock0[x] != ValuesBlock0[y]
  {
  }

  lemma ValueBlocksDistinct01()
    ensures |ValuesBlock0| == |ValuesBlock1| == 8
    ensures forall x, y | 0 <= x < 8 && 0 <= y < 8 :: ValuesBlock0[x] != ValuesBlock1[y]
  {
  }

  lemma ValueBlocksDistinct02()
    ensures |ValuesBlock0| == |ValuesBlock2| == 8
    ensures forall x, y | 0 <= x < 8 && 0 <= y < 8 :: ValuesBlock0[x] != ValuesBlock2[y]
  {
  }

  lemma ValueBlocksDistinct03()
    ensures |ValuesBlock0| == |ValuesBlock3| == 8
    ensures forall x, y | 0 <= x < 8 && 0 <= y < 8 :: ValuesBlock0[x] != ValuesBlock3[y]
  {
  }

  lemma ValueBlocksDistinct04()
    ensures |ValuesBlock0| == |ValuesBlock4| == 8
    ensures forall x, y | 0 <= x < 8 && 0 <= y < 8 :: ValuesBlock0[x] != ValuesBlock4[y]
  {
  }

  lemma ValueBlocksDistinct05()
    ensures |ValuesBlock0| == |ValuesBlock5| == 8
    ensures forall x, y | 0 <= x < 8 && 0 <= y < 8 :: ValuesBlock0[x] != ValuesBlock5[y]
  {
  }

  lemma ValueBlocksDistinct11()
    ensures |ValuesBlock1| == 8
    ensures forall x, y | 0 <= x < y < 8 :: ValuesBlock1[x] != ValuesBlock1[y]
  {
  }

  lemma ValueBlocksDistinct12()
    ensures |ValuesBlock1| == |ValuesBlock2| == 8
    ensures forall x, y | 0 <= x < 8 && 0 <= y < 8 :: ValuesBlock1[x] != ValuesBlock2[y]
  {
  }

  lemma ValueBlocksDistinct13()
    ensures |ValuesBlock1| == |ValuesBlock3| == 8
    ensures forall x, y | 0 <= x < 8 && 0 <= y < 8 :: ValuesBlock1[x] != ValuesBlock3[y]
  {
  }

  lemma ValueBlocksDistinct14()
    ensures |ValuesBlock1| == |ValuesBlock4| == 8
    ensures forall x, y | 0 <= x < 8 && 0 <= y < 8 :: ValuesBlock1[x] != ValuesBlock4[y]
  {
  }

  lemma ValueBlocksDistinct15()
    ensures |ValuesBlock1| == |ValuesBlock5| == 8
    ensures forall x, y | 0 <= x < 8 && 0 <= y < 8 :: ValuesBlock1[x] != ValuesBlock5[y]
  {
  }

  lemma ValueBlocksDistinct22()
    ensures |ValuesBlock2| == 8
    ensures forall x, y | 0 <= x < y < 8 :: ValuesBlock2[x] != ValuesBlock2[y]
  {
  }

  lemma ValueBlocksDistinct23()
    ensures |ValuesBlock2| == |ValuesBlock3| == 8
    ensures forall x, y | 0 <= x < 8 && 0 <= y < 8 :: ValuesBlock2[x] != ValuesBlock3[y]
  {
  }

  lemma ValueBlocksDistinct24()
    ensures |ValuesBlock2| == |ValuesBlock4| == 8
    ensures forall x, y | 0 <= x < 8 && 0 <= y < 8 :: ValuesBlock2[x] != ValuesBlock4[y]
  {
  }

  lemma ValueBlocksDistinct25()
    ensures |ValuesBlock2| == |ValuesBlock5| == 8
    ensures forall x, y | 0 <= x < 8 && 0 <= y < 8 :: ValuesBlock2[x] != ValuesBlock5[y]
  {
  }

  lemma ValueBlocksDistinct33()
    ensures |ValuesBlock3| == 8
    ensures forall x, y | 0 <= x < y < 8 :: ValuesBlock3[x] != ValuesBlock3[y]
  {
  }

  lemma ValueBlocksDistinct34()
    ensures |ValuesBlock3| == |ValuesBlock4| == 8
    ensures forall x, y | 0 <= x < 8 && 0 <= y < 8 :: ValuesBlock3[x] != ValuesBlock4[y]
  {
  }

  lemma ValueBlocksDistinct35()
    ensures |ValuesBlock3| == |ValuesBlock5| == 8
    ensures forall x, y | 0 <= x < 8 && 0 <= y < 8 :: ValuesBlock3[x] != ValuesBlock5[y]
  {
  }

  lemma ValueBlocksDistinct44()
    ensures |ValuesBlock4| == 8
    ensures forall x, y | 0 <= x < y < 8 :: ValuesBlock4[x] != ValuesBlock4[y]
  {
  }

  lemma ValueBlocksDistinct45()
    ensures |ValuesBlock4| == |ValuesBlock5| == 8
    ensures forall x, y | 0 <= x < 8 && 0 <= y < 8 :: ValuesBlock4[x] != ValuesBlock5[y]
  {
  }

  lemma ValueBlocksDistinct55()
    ensures |ValuesBlock5| == 8
    ensures forall x, y | 0 <= x < y < 8 :: ValuesBlock5[x] != ValuesBlock5[y]
  {
  }

  /** The values at positions `i` in block 0 and `j` after it differ. */
  lemma ValuesDistinctFrom0(i: nat, j: nat)
    requires 0 <= i < 8 && i < j < 48
    ensures |MemberValues| == 48 && MemberValues[i] != MemberValues[j]
  {
    MembersAt(i);
    MembersAt(j);
    var b := j / 8;
    if b == 0 { ValueBlocksDistinct00(); } else if b == 1 { ValueBlocksDistinct01(); } else if b == 2 { ValueBlocksDistinct02(); } else if b == 3 { ValueBlocksDistinct03(); } else if b == 4 { ValueBlocksDistinct04(); } else { ValueBlocksDistinct05(); }
  }

  /** The values at positions `i` in block 1 and `j` after it differ. */
  lemma ValuesDistinctFrom1(i: nat, j: nat)
    requires 8 <= i < 16 && i < j < 48
    ensures |MemberValues| == 48 && MemberValues[i] != MemberValues[j]
  {
    MembersAt(i);
    MembersAt(j);
    var b := j / 8;
    if b == 1 { ValueBlocksDistinct11(); } else if b == 2 { ValueBlocksDistinct12(); } else if b == 3 { ValueBlocksDistinct13(); } else if b == 4 { ValueBlocksDistinct14(); } else { ValueBlocksDistinct15(); }
  }

  /** The values at positions `i` in block 2 and `j` after it differ. */
  lemma ValuesDistinctFrom2(i: nat, j: nat)
    requires 16 <= i < 24 && i < j < 48
    ensures |MemberValues| == 48 && MemberValues[i] != MemberValues[j]
  {
    MembersAt(i);
    MembersAt(j);
    var b := j / 8;
    if b == 2 { ValueBlocksDistinct22(); } else if b == 3 { ValueBlocksDistinct23(); } else if b == 4 { ValueBlocksDistinct24(); } else { ValueBlocksDistinct25(); }
  }

  /** The values at positions `i` in block 3 and `j` after it differ. */
  lemma ValuesDistinctFrom3(i: nat, j: nat)
    requires 24 <= i < 32 && i < j < 48
    ensures |MemberValues| == 48 && MemberValues[i] != MemberValues[j]
  {
    MembersAt(i);
    MembersAt(j);
    var b := j / 8;
    if b == 3 { ValueBlocksDistinct33(); } else if b == 4 { ValueBlocksDistinct34(); } else { ValueBlocksDistinct35(); }
  }

  /** The values at positions `i` in block 4 and `j` after it differ. */
  lemma ValuesDistinctFrom4(i: nat, j: nat)
    requires 32 <= i < 40 && i < j < 48
    ensures |MemberValues| == 48 && MemberValues[i] != MemberValues[j]
  {
    MembersAt(i);
    MembersAt(j);
    var b := j / 8;
    if b == 4 { ValueBlocksDistinct44(); } else { ValueBlocksDistinct45(); }
  }

  /** The values at positions `i` in block 5 and `j` after it differ. */
  lemma ValuesDistinctFrom5(i: nat, j: nat)
    requires 40 <= i < 48 && i < j < 48
    ensures |MemberValues| == 48 && MemberValues[i] != MemberValues[j]
  {
    MembersAt(i);
    MembersAt(j);
    ValueBlocksDistinct55();
  }

  /** The values at two positions of MemberValues differ. */
  lemma ValuesDistinctAt(i: nat, j: nat)
    requires i < j < 48
    ensures |MemberValues| == 48 && MemberValues[i] != MemberValues[j]
  {
    if i < 8 { ValuesDistinctFrom0(i, j); } else if i < 16 { ValuesDistinctFrom1(i, j); } else if i < 24 { ValuesDistinctFrom2(i, j); } else if i < 32 { ValuesDistinctFrom3(i, j); } else if i < 40 { ValuesDistinctFrom4(i, j); } else { ValuesDistinctFrom5(i, j); }
  }

  /** No two members share a value. */
  lemma ValuesDistinct()
    ensures forall i, j | 0 <= i < j < |Members| :: Members[i].Value() != Members[j].Value()
  {
    MemberAt(0);
    forall i, j | 0 <= i < j < 48 ensures Members[i].Value() != Members[j].Value() {
      MemberAt(i);
      MemberAt(j);
      ValuesDistinctAt(i, j);
    }
  }

  /** Each member's value, as a plain string, at the member's position. */
  lemma MemberValuesAll()
    ensures |Members| == |MemberValues| == 48
    ensures forall i | 0 <= i < 48 :: Members[i].Value() == MemberValues[i]
  {
    MemberAt(0);
    forall i | 0 <= i < 48 ensures Members[i].Value() == MemberValues[i] {
      MemberAt(i);
    }
  }

  /** A string that is not among the values of the members names no member. */
  lemma NotAValue(v: string)
    requires v !in MemberValues
    ensures ByValue(v) == None
  {
    MemberValuesAll();
    forall k: ItemName ensures k.Value() != v {
      MemberPositions(k);
    }
    ByValueNoneIff(v);
  }

  /** The value of member `k`, as a function value. */
  function ValueOf(k: ItemName): string {
    k.Value()
  }

  /** The first of `xs` whose key is `v`. */
  function FirstWith<T>(xs: seq<T>, key: T -> string, v: string): (r: Option<T>)
    ensures r.Some? ==> r.value in xs && key(r.value) == v
    ensures r.None? <==> forall x | x in xs :: key(x) != v
  {
    if |xs| == 0 then None
    else if key(xs[0]) == v then Some(xs[0])
    else FirstWith(xs[1..], key, v)
  }

  /** Without an earlier element whose key is `v`, the search for `v` stops at element `i`, whose key is `v`. */
  lemma {:induction false} FirstWithAt<T>(xs: seq<T>, key: T -> string, i: nat, v: string)
    requires i < |xs| && key(xs[i]) == v
    requires forall j | 0 <= j < i :: key(xs[j]) != v
    ensures FirstWith(xs, key, v) == Some(xs[i])
  {
    if i > 0 {
      FirstWithAt(xs[1..], key, i - 1, v);
    }
  }

  /** ItemName(v): the member whose value is `v`; None where Python raises ValueError. */
  function ByValue(v: string): (r: Option<ItemName>)
    ensures r.Some? ==> r.value.Value() == v
  {
    FirstWith(Members, ValueOf, v)
  }

  /**
   * ItemName.<attribute>: the member first declared with the attribute's
   * value, so that an attribute repeating an earlier value is an alias.
   */
  function Member(attribute: string): (r: Option<ItemName>)
    ensures r.Some? ==> DeclaredValue(attribute) == Some(r.value.Value())
    ensures DeclaredValue(attribute).Some? ==> r.Some?
  {
    match DeclaredValue(attribute)
    case None => None
    case Some(v) =>
      MemberValuesAll();
      assert v in MemberValues;
      var i :| 0 <= i < 48 && MemberValues[i] == v;
      assert Members[i].Value() == v;
      ByValueNoneIff(v);
      ByValue(v)
  }

  /** Members lists every member once, at its position. */
  lemma MemberPositions(k: ItemName)
    ensures |Members| == 48
    ensures forall i | 0 <= i < |Members| :: Members[i].Position() == i
    ensures k.Position() < |Members| && Members[k.Position()] == k
  {
    MemberAt(0);
    forall i | 0 <= i < 48 ensures Members[i].Position() == i {
      MemberAt(i);
    }
    MemberOf(k);
  }

  /** Looking a member's value up gives the member back. */
  lemma ValueRoundTrip(k: ItemName)
    ensures ByValue(k.Value()) == Some(k)
  {
    MemberPositions(k);
    ValuesDistinct();
    assert forall j | 0 <= j < k.Position() :: ValueOf(Members[j]) != k.Value();
    FirstWithAt(Members, ValueOf, k.Position(), k.Value());
  }

  /** Distinct members have distinct values. */
  lemma ValueInjective(a: ItemName, b: ItemName)
    ensures a.Value() == b.Value() <==> a == b
  {
    ValueRoundTrip(a);
    ValueRoundTrip(b);
  }

  /** ItemName(v) raises ValueError exactly when no member has the value `v`. */
  lemma ByValueNoneIff(v: string)
    ensures ByValue(v).None? <==> forall k: ItemName :: k.Value() != v
  {
    if ByValue(v).None? {
      forall k: ItemName ensures k.Value() != v {
        MemberPositions(k);
        assert Members[k.Position()] in Members;
        assert ValueOf(k) != v;
      }
    }
  }

  /** AbilitiesSlugUpgrade repeats the value of AbilitiesSlugVacuum and so names that member. */
  lemma SlugUpgradeIsAlias()
    ensures Member("AbilitiesSlugUpgrade") == Member("AbilitiesSlugVacuum") == Some(ItemName.AbilitiesSlugVacuum)
  {
    SlugUpgradeDeclaration();
    ValueRoundTrip(ItemName.AbilitiesSlugVacuum);
  }

  /** Both attributes are declared with the value of AbilitiesSlugVacuum. */
  lemma SlugUpgradeDeclaration()
    ensures DeclaredValue("AbilitiesSlugUpgrade") == DeclaredValue("AbilitiesSlugVacuum") == Some(ItemName.AbilitiesSlugVacuum.Value())
  {
  }

  /** PowerupsSkvader2 repeats the value of PowerupsSkvader1 and so names that member. */
  lemma Skvader2IsAlias()
    ensures Member("PowerupsSkvader2") == Member("PowerupsSkvader1") == Some(ItemName.PowerupsSkvader1)
  {
    Skvader2Declaration();
    ValueRoundTrip(ItemName.PowerupsSkvader1);
  }

  /** Both attributes are declared with the value of PowerupsSkvader1. */
  lemma Skvader2Declaration()
    ensures DeclaredValue("PowerupsSkvader2") == DeclaredValue("PowerupsSkvader1") == Some(ItemName.PowerupsSkvader1.Value())
  {
  }

  /** One entry of item_table. */
  type ItemRow = (ItemName, ItemData)
  const ItemRows0: seq<ItemRow> := [
    (ItemName.AbilitiesDive, ItemData(9658001, 2, ItemType.Progression, ItemGroup.Movement, ["abilities/dive", "abilities/dive_speed"])),
    (ItemName.AbilitiesDoubleFruit, ItemData(9658003, 1, ItemType.Normal, ItemGroup.Misc, ["abilities/double_fruit"])),
    (ItemName.AbilitiesKickback, ItemData(9658004, 1, ItemType.Normal, ItemGroup.Misc, ["abilities/kickback"])),
    (ItemName.AbilitiesMailbag, ItemData(9658005, 1, ItemType.Progression, ItemGroup.Movement, ["abilities/mailbag"])),
    (ItemName.AbilitiesPartyhorn, ItemData(9658006, 1, ItemType.Progression, ItemGroup.Movement, ["abilities/partyhorn"])),
    (ItemName.AbilitiesSlugVacuum, ItemData(9658008, 2, ItemType.Progression, ItemGroup.Movement, ["abilities/slug_vaccum", "abilities/slug_upgrade"])),
    (ItemName.AbilitiesSpeed, ItemData(9658009, 1, ItemType.Progression, ItemGroup.Movement, ["abilities/speed"])),
    (ItemName.Bluekey, ItemData(9658010, 1, ItemType.Progression, ItemGroup.Keys, ["bluekey"]))
  ]

  const ItemRows1: seq<ItemRow> := [
    (ItemName.BucketEmpty, ItemData(9658011, 1, ItemType.Progression, ItemGroup.Quest, ["bucket_empty"])),
    (ItemName.DustbunnyDirty, ItemData(9658012, 6, ItemType.Progression, ItemGroup.Quest, ["dustbunny_dirty"])),
    (ItemName.Greenkey, ItemData(9658013, 1, ItemType.Progression, ItemGroup.Keys, ["greenkey"])),
    (ItemName.Guano, ItemData(9658014, 1, ItemType.Progression, ItemGroup.Quest, ["guano"])),
    (ItemName.Idol1, ItemData(9658015, 1, ItemType.Progression, ItemGroup.Quest, ["idol1"])),
    (ItemName.Idol2, ItemData(9658016, 1, ItemType.Progression, ItemGroup.Quest, ["idol2"])),
    (ItemName.Idol3, ItemData(9658017, 1, ItemType.Progression, ItemGroup.Quest, ["idol3"])),
    (ItemName.Idol4, ItemData(9658018, 1, ItemType.Progression, ItemGroup.Quest, ["idol4"]))
  ]

  const ItemRows2: seq<ItemRow> := [
    (ItemName.Mushroom2, ItemData(9658019, 1, ItemType.Progression, ItemGroup.Quest, ["mushroom_2"])),
    (ItemName.Mushroom3, ItemData(9658020, 1, ItemType.Progression, ItemGroup.Quest, ["mushroom_3"])),
    (ItemName.NimKey, ItemData(9658021, 1, ItemType.Progression, ItemGroup.Keys, ["nim_key"])),
    (ItemName.Nugget, ItemData(9658022, 4, ItemType.Progression, ItemGroup.Quest, ["nugget"])),
    (ItemName.PostalBadge, ItemData(9658023, 1, ItemType.Progression, ItemGroup.Keys, ["postal_badge"])),
    (ItemName.PowerupsSkvader1, ItemData(9658024, 2, ItemType.Progression, ItemGroup.Misc, ["powerups/skvader_1", "powerups/skvader_2"])),
    (ItemName.RewardFruitMedium, ItemData(9658026, 39, ItemType.Junk, ItemGroup.Fruit, ["reward_fruit_medium"])),
    (ItemName.RewardFruitBig, ItemData(9658027, 54, ItemType.Junk, ItemGroup.Fruit, ["reward_fruit_big"]))
  ]

  const ItemRows3: seq<ItemRow> := [
    (ItemName.SeedPod, ItemData(9658028, 1, ItemType.Progression, ItemGroup.Quest, ["seed_pod"])),
    (ItemName.SkinsSkin1, ItemData(9658029, 1, ItemType.Progression, ItemGroup.Collectible, ["skins/skin_1"])),
    (ItemName.SkinsSkin2, ItemData(9658030, 1, ItemType.Progression, ItemGroup.Collectible, ["skins/skin_2"])),
    (ItemName.SkinsSkin3, ItemData(9658031, 1, ItemType.Progression, ItemGroup.Collectible, ["skins/skin_3"])),
    (ItemName.SkinsSkin4, ItemData(9658032, 1, ItemType.Progression, ItemGroup.Collectible, ["skins/skin_4"])),
    (ItemName.SkinsSkin5, ItemData(9658033, 1, ItemType.Progression, ItemGroup.Collectible, ["skins/skin_5"])),
    (ItemName.SootlingLeash, ItemData(9658034, 1, ItemType.Progression, ItemGroup.Movement, ["sootling_leash"])),
    (ItemName.Spores1, ItemData(9658035, 1, ItemType.Progression, ItemGroup.Quest, ["spores_1"]))
  ]

  const ItemRows4: seq<ItemRow> := [
    (ItemName.Spores2, ItemData(9658036, 1, ItemType.Progression, ItemGroup.Quest, ["spores_2"])),
    (ItemName.Spores3, ItemData(9658037, 1, ItemType.Progression, ItemGroup.Quest, ["spores_3"])),
    (ItemName.Spores4, ItemData(9658038, 1, ItemType.Progression, ItemGroup.Quest, ["spores_4"])),
    (ItemName.Spores5, ItemData(9658039, 1, ItemType.Progression, ItemGroup.Quest, ["spores_5"])),
    (ItemName.SpringKey, ItemData(9658040, 1, ItemType.Progression, ItemGroup.Quest, ["spring_key"])),
    (ItemName.Tadpole, ItemData(9658041, 8, ItemType.Progression, ItemGroup.Misc, ["tadpole"])),
    (ItemName.Toolbox, ItemData(9658042, 1, ItemType.Progression, ItemGroup.Quest, ["toolbox"])),
    (ItemName.TrackerCaves, ItemData(9658043, 1, ItemType.Progression, ItemGroup.Tracker, ["tracker_caves"]))
  ]

  const ItemRows5: seq<ItemRow> := [
    (ItemName.TrackerJungle, ItemData(9658044, 1, ItemType.Progression, ItemGroup.Tracker, ["tracker_jungle"])),
    (ItemName.TrackerPeak, ItemData(9658045, 1, ItemType.Progression, ItemGroup.Tracker, ["tracker_peak"])),
    (ItemName.TrackerScarabs, ItemData(9658046, 1, ItemType.Progression, ItemGroup.Tracker, ["tracker_scarabs"])),
    (ItemName.TrackerSprings, ItemData(9658047, 1, ItemType.Progression, ItemGroup.Tracker, ["tracker_springs"])),
    (ItemName.TraitorSpirit, ItemData(9658048, 4, ItemType.Progression, ItemGroup.Tracker, ["traitor_spirit"])),
    (ItemName.TreasureMap, ItemData(9658049, 1, ItemType.Progression, ItemGroup.Tracker, ["treasure_map"])),
    (ItemName.Wallet, ItemData(9658050, 10, ItemType.Progression, ItemGroup.Misc, ["wallet"])),
    (ItemName.Collectible, ItemData(9658051, 80, ItemType.Junk, ItemGroup.Collectible, ["wickerling"]))
  ]

  /** item_table: the data of every item that is not an event, one row per member, in declaration order. */
  const ItemTable: seq<ItemRow> := ItemRows0 + ItemRows1 + ItemRows2 + ItemRows3 + ItemRows4 + ItemRows5

  /** item_table[k]: the data of the first row for `k`; None where Python raises KeyError. */
  function Lookup(table: seq<ItemRow>, k: ItemName): (r: Option<ItemData>)
    ensures r.Some? <==> exists i | 0 <= i < |table| :: table[i].0 == k
    ensures r.Some? ==> exists i | 0 <= i < |table| :: table[i] == (k, r.value)
  {
    if |table| == 0 then None
    else if table[0].0 == k then Some(table[0].1)
    else
      var r := Lookup(table[1..], k);
      assert forall i | 1 <= i < |table| :: table[i] == table[1..][i - 1];
      assert r.Some? ==> exists i | 1 <= i < |table| :: table[i] == (k, r.value);
      r
  }

  /** With one row per key, looking up a row's key finds that row's data. */
  lemma {:induction false} LookupRow(table: seq<ItemRow>, i: nat)
    requires Dicts.DistinctKeys(table)
    requires i < |table|
    ensures Lookup(table, table[i].0) == Some(table[i].1)
  {
    if i > 0 {
      assert table[1..][i - 1] == table[i];
      LookupRow(table[1..], i - 1);
    }
  }

  /** Looking up in a concatenation: the first part is searched first. */
  lemma {:induction false} LookupAppend(a: seq<ItemRow>, b: seq<ItemRow>, k: ItemName)
    ensures Lookup(a + b, k) == if Lookup(a, k).Some? then Lookup(a, k) else Lookup(b, k)
  {
    if |a| > 0 {
      assert (a + b)[1..] == a[1..] + b;
      LookupAppend(a[1..], b, k);
    } else {
      assert a + b == b;
    }
  }

  /** No member has two rows in item_table. */
  lemma ItemTableKeysDistinct()
    ensures Dicts.DistinctKeys(ItemTable)
  {
    ItemTableRowPositions();
  }

  /** In a table with one row per member, at the member's position, looking a member up finds that row. */
  lemma {:induction false} RowOfMember(table: seq<ItemRow>, k: ItemName)
    requires |table| == 48 && forall i | 0 <= i < 48 :: table[i].0.Position() == i
    ensures k.Position() < |table| && table[k.Position()].0 == k
    ensures Lookup(table, k) == Some(table[k.Position()].1)
  {
    var p := k.Position();
    MemberPositions(k);
    MemberPositions(table[p].0);
    assert Dicts.DistinctKeys(table);
    LookupRow(table, p);
  }

  /** Every member has a row in item_table, the one at its position. */
  lemma EveryItemHasData(k: ItemName)
    ensures k.Position() < |ItemTable| && ItemTable[k.Position()].0 == k
    ensures Lookup(ItemTable, k) == Some(ItemTable[k.Position()].1)
  {
    ItemTableRowPositions();
    RowOfMember(ItemTable, k);
  }

  /** No id of `a` is an id of `b`. */
  predicate Disjoint(a: seq<string>, b: seq<string>) {
    forall s | s in a :: s !in b
  }

  /** No game id is listed by two rows. */
  ghost predicate YokuIdsDisjoint(table: seq<ItemRow>) {
    forall i, j | 0 <= i < j < |table| :: Disjoint(table[i].1.yokuIds, table[j].1.yokuIds)
  }

  /** item_table as the blocks it is written in. */
  const RowBlocks: seq<seq<ItemRow>> := [ItemRows0, ItemRows1, ItemRows2, ItemRows3, ItemRows4, ItemRows5]

  /** Row `i` of item_table, found in its block. */
  lemma RowsAt(i: nat)
    requires i < 48
    ensures |ItemTable| == 48 && ItemTable[i] == RowBlocks[i / 8][i % 8]
  {
    JoinedAt(RowBlocks, i);
  }

  lemma RowBlock0a()
    ensures |ItemRows0| == 8
    ensures forall x | 0 <= x < 4 :: ItemRows0[x].0.Position() == 0 + x && ItemRows0[x].1.count > 0 && |ItemRows0[x].1.yokuIds| > 0
  {
  }

  lemma RowBlock0b()
    ensures |ItemRows0| == 8
    ensures forall x | 4 <= x < 8 :: ItemRows0[x].0.Position() == 0 + x && ItemRows0[x].1.count > 0 && |ItemRows0[x].1.yokuIds| > 0
  {
  }

  lemma RowBlock1a()
    ensures |ItemRows1| == 8
    ensures forall x | 0 <= x < 4 :: ItemRows1[x].0.Position() == 8 + x && ItemRows1[x].1.count > 0 && |ItemRows1[x].1.yokuIds| > 0
  {
  }

  lemma RowBlock1b()
    ensures |ItemRows1| == 8
    ensures forall x | 4 <= x < 8 :: ItemRows1[x].0.Position() == 8 + x && ItemRows1[x].1.count > 0 && |ItemRows1[x].1.yokuIds| > 0
  {
  }

  lemma RowBlock2a()
    ensures |ItemRows2| == 8
    ensures forall x | 0 <= x < 4 :: ItemRows2[x].0.Position() == 16 + x && ItemRows2[x].1.count > 0 && |ItemRows2[x].1.yokuIds| > 0
  {
  }

  lemma RowBlock2b()
    ensures |ItemRows2| == 8
    ensures forall x | 4 <= x < 8 :: ItemRows2[x].0.Position() == 16 + x && ItemRows2[x].1.count > 0 && |ItemRows2[x].1.yokuIds| > 0
  {
  }

  lemma RowBlock3a()
    ensures |ItemRows3| == 8
    ensures forall x | 0 <= x < 4 :: ItemRows3[x].0.Position() == 24 + x && ItemRows3[x].1.count > 0 && |ItemRows3[x].1.yokuIds| > 0
  {
  }

  lemma RowBlock3b()
    ensures |ItemRows3| == 8
    ensures forall x | 4 <= x < 8 :: ItemRows3[x].0.Position() == 24 + x && ItemRows3[x].1.count > 0 && |ItemRows3[x].1.yokuIds| > 0
  {
  }

  lemma RowBlock4a()
    ensures |ItemRows4| == 8
    ensures forall x | 0 <= x < 4 :: ItemRows4[x].0.Position() == 32 + x && ItemRows4[x].1.count > 0 && |ItemRows4[x].1.yokuIds| > 0
  {
  }

  lemma RowBlock4b()
    ensures |ItemRows4| == 8
    ensures forall x | 4 <= x < 8 :: ItemRows4[x].0.Position() == 32 + x && ItemRows4[x].1.count > 0 && |ItemRows4[x].1.yokuIds| > 0
  {
  }

  lemma RowBlock5a()
    ensures |ItemRows5| == 8
    ensures forall x | 0 <= x < 4 :: ItemRows5[x].0.Position() == 40 + x && ItemRows5[x].1.count > 0 && |ItemRows5[x].1.yokuIds| > 0
  {
  }

  lemma RowBlock5b()
    ensures |ItemRows5| == 8
    ensures forall x | 4 <= x < 8 :: ItemRows5[x].0.Position() == 40 + x && ItemRows5[x].1.count > 0 && |ItemRows5[x].1.yokuIds| > 0
  {
  }

  /** Row `i` of item_table holds the member at position `i`, with copies and game ids. */
  lemma RowAt(i: nat)
    requires i < 48
    ensures |ItemTable| == 48
    ensures ItemTable[i].0.Position() == i && ItemTable[i].1.count > 0 && |ItemTable[i].1.yokuIds| > 0
  {
    RowsAt(i);
    if i < 8 { RowBlock0a(); RowBlock0b(); } else if i < 16 { RowBlock1a(); RowBlock1b(); } else if i < 24 { RowBlock2a(); RowBlock2b(); } else if i < 32 { RowBlock3a(); RowBlock3b(); } else if i < 40 { RowBlock4a(); RowBlock4b(); } else { RowBlock5a(); RowBlock5b(); }
  }

  lemma RowIdsDisjoint00()
    ensures |ItemRows0| == 8
    ensures forall x, y | 0 <= x < y < 8 :: Disjoint(ItemRows0[x].1.yokuIds, ItemRows0[y].1.yokuIds)
  {
  }

  lemma RowIdsDisjoint01()
    ensures |ItemRows0| == |ItemRows1| == 8
    ensures forall x, y | 0 <= x < 8 && 0 <= y < 8 :: Disjoint(ItemRows0[x].1.yokuIds, ItemRows1[y].1.yokuIds)
  {
  }

  lemma RowIdsDisjoint02()
    ensures |ItemRows0| == |ItemRows2| == 8
    ensures forall x, y | 0 <= x < 8 && 0 <= y < 8 :: Disjoint(ItemRows0[x].1.yokuIds, ItemRows2[y].1.yokuIds)
  {
  }

  lemma RowIdsDisjoint03()
    ensures |ItemRows0| == |ItemRows3| == 8
    ensures forall x, y | 0 <= x < 8 && 0 <= y < 8 :: Disjoint(ItemRows0[x].1.yokuIds, ItemRows3[y].1.yokuIds)
  {
  }

  lemma RowIdsDisjoint04()
    ensures |ItemRows0| == |ItemRows4| == 8
    ensures forall x, y | 0 <= x < 8 && 0 <= y < 8 :: Disjoint(ItemRows0[x].1.yokuIds, ItemRows4[y].1.yokuIds)
  {
  }

  lemma RowIdsDisjoint05()
    ensures |ItemRows0| == |ItemRows5| == 8
    ensures forall x, y | 0 <= x < 8 && 0 <= y < 8 :: Disjoint(ItemRows0[x].1.yokuIds, ItemRows5[y].1.yokuIds)
  {
  }

  lemma RowIdsDisjoint11()
    ensures |ItemRows1| == 8
    ensures forall x, y | 0 <= x < y < 8 :: Disjoint(ItemRows1[x].1.yokuIds, ItemRows1[y].1.yokuIds)
  {
  }

  lemma RowIdsDisjoint12()
    ensures |ItemRows1| == |ItemRows2| == 8
    ensures forall x, y | 0 <= x < 8 && 0 <= y < 8 :: Disjoint(ItemRows1[x].1.yokuIds, ItemRows2[y].1.yokuIds)
  {
  }

  lemma RowIdsDisjoint13()
    ensures |ItemRows1| == |ItemRows3| == 8
    ensures forall x, y | 0 <= x < 8 && 0 <= y < 8 :: Disjoint(ItemRows1[x].1.yokuIds, ItemRows3[y].1.yokuIds)
  {
  }

  lemma RowIdsDisjoint14()
    ensures |ItemRows1| == |ItemRows4| == 8
    ensures forall x, y | 0 <= x < 8 && 0 <= y < 8 :: Disjoint(ItemRows1[x].1.yokuIds, ItemRows4[y].1.yokuIds)
  {
  }

  lemma RowIdsDisjoint15()
    ensures |ItemRows1| == |ItemRows5| == 8
    ensures forall x, y | 0 <= x < 8 && 0 <= y < 8 :: Disjoint(ItemRows1[x].1.yokuIds, ItemRows5[y].1.yokuIds)
  {
  }

  lemma RowIdsDisjoint22()
    ensures |ItemRows2| == 8
    ensures forall x, y | 0 <= x < y < 8 :: Disjoint(ItemRows2[x].1.yokuIds, ItemRows2[y].1.yokuIds)
  {
  }

  lemma RowIdsDisjoint23()
    ensures |ItemRows2| == |ItemRows3| == 8
    ensures forall x, y | 0 <= x < 8 && 0 <= y < 8 :: Disjoint(ItemRows2[x].1.yokuIds, ItemRows3[y].1.yokuIds)
  {
  }

  lemma RowIdsDisjoint24()
    ensures |ItemRows2| == |ItemRows4| == 8
    ensures forall x, y | 0 <= x < 8 && 0 <= y < 8 :: Disjoint(ItemRows2[x].1.yokuIds, ItemRows4[y].1.yokuIds)
  {
  }

  lemma RowIdsDisjoint25()
    ensures |ItemRows2| == |ItemRows5| == 8
    ensures forall x, y | 0 <= x < 8 && 0 <= y < 8 :: Disjoint(ItemRows2[x].1.yokuIds, ItemRows5[y].1.yokuIds)
  {
  }

  lemma RowIdsDisjoint33()
    ensures |ItemRows3| == 8
    ensures forall x, y | 0 <= x < y < 8 :: Disjoint(ItemRows3[x].1.yokuIds, ItemRows3[y].1.yokuIds)
  {
  }

  lemma RowIdsDisjoint34()
    ensures |ItemRows3| == |ItemRows4| == 8
    ensures forall x, y | 0 <= x < 8 && 0 <= y < 8 :: Disjoint(ItemRows3[x].1.yokuIds, ItemRows4[y].1.yokuIds)
  {
  }

  lemma RowIdsDisjoint35()
    ensures |ItemRows3| == |ItemRows5| == 8
    ensures forall x, y | 0 <= x < 8 && 0 <= y < 8 :: Disjoint(ItemRows3[x].1.yokuIds, ItemRows5[y].1.yokuIds)
  {
  }

  lemma RowIdsDisjoint44()
    ensures |ItemRows4| == 8
    ensures forall x, y | 0 <= x < y < 8 :: Disjoint(ItemRows4[x].1.yokuIds, ItemRows4[y].1.yokuIds)
  {
  }

  lemma RowIdsDisjoint45()
    ensures |ItemRows4| == |ItemRows5| == 8
    ensures forall x, y | 0 <= x < 8 && 0 <= y < 8 :: Disjoint(ItemRows4[x].1.yokuIds, ItemRows5[y].1.yokuIds)
  {
  }

  lemma RowIdsDisjoint55()
    ensures |ItemRows5| == 8
    ensures forall x, y | 0 <= x < y < 8 :: Disjoint(ItemRows5[x].1.yokuIds, ItemRows5[y].1.yokuIds)
  {
  }

  /** Rows `i` and `j` of item_table list no game id in common. */
  lemma RowsDisjointAt(i: nat, j: nat)
    requires i < j < 48
    ensures |ItemTable| == 48 && Disjoint(ItemTable[i].1.yokuIds, ItemTable[j].1.yokuIds)
  {
    RowsAt(i);
    RowsAt(j);
    var a, b := i / 8, j / 8;
    if a == 0 && b == 0 { RowIdsDisjoint00(); }
    else if a == 0 && b == 1 { RowIdsDisjoint01(); }
    else if a == 0 && b == 2 { RowIdsDisjoint02(); }
    else if a == 0 && b == 3 { RowIdsDisjoint03(); }
    else if a == 0 && b == 4 { RowIdsDisjoint04(); }
    else if a == 0 && b == 5 { RowIdsDisjoint05(); }
    else if a == 1 && b == 1 { RowIdsDisjoint11(); }
    else if a == 1 && b == 2 { RowIdsDisjoint12(); }
    else if a == 1 && b == 3 { RowIdsDisjoint13(); }
    else if a == 1 && b == 4 { RowIdsDisjoint14(); }
    else if a == 1 && b == 5 { RowIdsDisjoint15(); }
    else if a == 2 && b == 2 { RowIdsDisjoint22(); }
    else if a == 2 && b == 3 { RowIdsDisjoint23(); }
    else if a == 2 && b == 4 { RowIdsDisjoint24(); }
    else if a == 2 && b == 5 { RowIdsDisjoint25(); }
    else if a == 3 && b == 3 { RowIdsDisjoint33(); }
    else if a == 3 && b == 4 { RowIdsDisjoint34(); }
    else if a == 3 && b == 5 { RowIdsDisjoint35(); }
    else if a == 4 && b == 4 { RowIdsDisjoint44(); }
    else if a == 4 && b == 5 { RowIdsDisjoint45(); }
    else if a == 5 && b == 5 { RowIdsDisjoint55(); }
  }

  /** item_table has one row per member, in declaration order. */
  lemma ItemTableRowPositions()
    ensures |ItemTable| == 48
    ensures forall i | 0 <= i < |ItemTable| :: ItemTable[i].0.Position() == i
  {
    RowAt(0);
    forall i | 0 <= i < 48 ensures ItemTable[i].0.Position() == i {
      RowAt(i);
    }
  }

  /** Every row puts at least one copy in the pool and lists at least one game id. */
  lemma ItemTableRowShape()
    ensures forall i | 0 <= i < |ItemTable| :: ItemTable[i].1.count > 0 && |ItemTable[i].1.yokuIds| > 0
  {
    RowAt(0);
    forall i | 0 <= i < 48 ensures ItemTable[i].1.count > 0 && |ItemTable[i].1.yokuIds| > 0 {
      RowAt(i);
    }
  }

  /** The game ids listed in item_table are pairwise distinct across rows. */
  lemma ItemTableYokuIdsDisjoint()
    ensures YokuIdsDisjoint(ItemTable)
  {
    RowsAt(0);
    forall i, j | 0 <= i < j < 48 ensures Disjoint(ItemTable[i].1.yokuIds, ItemTable[j].1.yokuIds) {
      RowsDisjointAt(i, j);
    }
  }

  /**
   * The member of the first row, in table order, whose game ids contain `s`;
   * None when no row lists `s`.
   */
  function FirstOwner(table: seq<ItemRow>, s: string): (r: Option<ItemName>)
    ensures r.Some? <==> exists i | 0 <= i < |table| :: s in table[i].1.yokuIds
    ensures r.Some? ==> exists i | 0 <= i < |table| ::
      table[i].0 == r.value && s in table[i].1.yokuIds && forall j | 0 <= j < i :: s !in table[j].1.yokuIds
  {
    if |table| == 0 then None
    else if s in table[0].1.yokuIds then Some(table[0].0)
    else
      var r := FirstOwner(table[1..], s);
      assert forall i | 1 <= i < |table| :: table[i] == table[1..][i - 1];
      r
  }

  /** ItemName.from_yoku_id(s): search item_table in order for a row listing `s`. */
  method FromYokuId(s: string) returns (r: Option<ItemName>)
    ensures r == FirstOwner(ItemTable, s)
  {
    var i := 0;
    while i < |ItemTable|
      invariant 0 <= i <= |ItemTable|
      invariant FirstOwner(ItemTable[i..], s) == FirstOwner(ItemTable, s)
    {
      if s in ItemTable[i].1.yokuIds {
        return Some(ItemTable[i].0);
      }
      assert ItemTable[i..][1..] == ItemTable[i + 1..];
      i := i + 1;
    }
    return None;
  }

  /** When no game id is shared, the first row listing `s` is the only one. */
  lemma FirstOwnerOfRow(table: seq<ItemRow>, i: nat, s: string)
    requires YokuIdsDisjoint(table)
    requires i < |table| && s in table[i].1.yokuIds
    ensures FirstOwner(table, s) == Some(table[i].0)
  {
    var r := FirstOwner(table, s);
    var i' :| 0 <= i' < |table| && table[i'].0 == r.value && s in table[i'].1.yokuIds
      && forall j | 0 <= j < i' :: s !in table[j].1.yokuIds;
  }

  /** ItemName.yoku_ids: item_table[k].yoku_ids; None where Python raises KeyError. */
  function YokuIds(k: ItemName): (ids: Option<seq<string>>)
    ensures ids.Some? <==> Lookup(ItemTable, k).Some?
    ensures ids.Some? ==> exists i | 0 <= i < |ItemTable| :: ItemTable[i] == (k, ItemTable[i].1) && ids.value == ItemTable[i].1.yokuIds
  {
    match Lookup(ItemTable, k)
    case None => None
    case Some(data) => Some(data.yokuIds)
  }

  /** Every member has game ids, and the first is the one a save file records. */
  lemma EveryItemHasYokuIds(k: ItemName)
    ensures YokuIds(k).Some? && |YokuIds(k).value| > 0
  {
    EveryItemHasData(k);
    ItemTableRowShape();
  }

  /** Round trip: each of a member's game ids leads back to that member. */
  lemma YokuIdRoundTrip(k: ItemName, s: string)
    requires YokuIds(k).Some? && s in YokuIds(k).value
    ensures FirstOwner(ItemTable, s) == Some(k)
  {
    EveryItemHasData(k);
    ItemTableYokuIdsDisjoint();
    FirstOwnerOfRow(ItemTable, k.Position(), s);
  }
}
