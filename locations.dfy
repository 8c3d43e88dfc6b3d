/**
 * The locations of Yoku's Island Express (worlds/yoku/Locations.py): the
 * location table, the locations of each region, and the world's location class.
 */
module Locations {
  import opened Wrappers
  import opened Runtime
  import opened BaseClasses
  import Dicts

  /**
   * One entry of location_table, a dict with the keys "id", "tracker" and
   * "region", and with "tracker_string" and "revealed" only where they are given.
   */
  datatype LocationData = LocationData(id: int, tracker: int, region: string, trackerString: Option<string>, revealed: Option<bool>)
  {
    /** The keys of the entry's dict. */
    function Keys(): set<string> {
      {"id", "tracker", "region"}
      + (if trackerString.Some? then {"tracker_string"} else {})
      + (if revealed.Some? then {"revealed"} else {})
    }

    /** data[key]; None where Python raises KeyError. */
    function Get(key: string): (r: Option<Value>)
      ensures r.Some? <==> key in Keys()
      ensures key == "id" ==> r == Some(IntValue(id))
      ensures key == "tracker_string" ==> r == if trackerString.Some? then Some(StrValue(trackerString.value)) else None
      ensures key == "revealed" ==> r == if revealed.Some? then Some(BoolValue(revealed.value)) else None
    {
      if key == "id" then Some(IntValue(id))
      else if key == "tracker" then Some(IntValue(tracker))
      else if key == "region" then Some(StrValue(region))
      else if key == "tracker_string" && trackerString.Some? then Some(StrValue(trackerString.value))
      else if key == "revealed" && revealed.Some? then Some(BoolValue(revealed.value))
      else None
    }
  }

  /** No entry of any location table has a "save_id" key. */
  lemma NoSaveIdKey(data: LocationData)
    ensures "save_id" !in data.Keys()
    ensures data.Get("save_id") == None
  {
  }

  /**
   * YokuLocation(player, name, code): the new location holds no item yet and
   * is an event exactly when it has no code.
   */
  function NewYokuLocation(player: int, name: string, code: Option<int>): (loc: Location)
    ensures loc.YokuLocation? && loc.player == player && loc.name == name && loc.code == code
    ensures loc.event <==> code.None?
    ensures loc.item == None
  {
    YokuLocation(player, name, code, code.None?, None)
  }

  /** location_table, entry by entry, in the order written. */
  const LocationEntries: seq<(string, LocationData)> :=
    LocationEntries0 + LocationEntries1 + LocationEntries2 + LocationEntries3 + LocationEntries4 + LocationEntries5 + LocationEntries6 + LocationEntries7

  const LocationEntries0: seq<(string, LocationData)> := [
    ("Wl. 80: Behind Screech", LocationData(41288903, 4277665904, "cave_abyssal_access0", Some("112,-264"), None)),
    ("Wl. 79: Screech Door Hook", LocationData(41289047, 50334208, "cave_abyssal_access1", Some("2560,768"), None)),
    ("Fruit 90: Ocean Heart", LocationData(54329447, 4178580032, "cave_beach_bottom0", Some("4672,-1776"), None)),
    ("Fruit 82: Screech Door Bones", LocationData(25105162, 45614976, "cave_beaver_blockade0", Some("1920,696"), None)),
    ("Scarab 70: Door Friend I", LocationData(25105120, 47190344, "cave_beaver_blockade1", None, None)),
    ("Chest: Screech", LocationData(25104987, 92801584, "cave_beaver_blockade2", None, None)),
    ("Mailbox 11: Rolypoly", LocationData(44042632, 4129817168, "cave_clammy_cenote0", None, None)),
    ("Wl. 76: Underdark Water Puzzle", LocationData(44041093, 29885136, "cave_clammy_cenote1", Some("720,456"), Some(true))),
    ("Wl. 74: Above Rolypoly", LocationData(44042001, 4060610936, "cave_clammy_cenote2", Some("376,-3576"), None)),
    ("Wl. 75: Crystal Deep Beel. Ledge", LocationData(44040524, 4108323872, "cave_clammy_cenote2", Some("3104,-2848"), None)),
    ("NPC: Quinbe", LocationData(53281416, 3866626432, "cave_east_bay_shore0", None, None)),
    ("Mailbox 12: Beach", LocationData(53281476, 4052225152, "cave_east_bay_shore1", None, None)),
    ("Mailbox 13: Quinbe", LocationData(53281471, 3866628000, "cave_east_bay_shore1", None, None)),
    ("Chest: Beach", LocationData(53281548, 3995075392, "cave_east_bay_shore2", None, None)),
    ("Mulch Pit: Beach", LocationData(53281572, 3986163868, "cave_east_bay_shore3", Some("2204,-4712"), None)),
    ("Scarab 64: Trial I Right", LocationData(30216747, 6028411, "cave_temple_terror_lower0", None, None)),
    ("Scarab 65: Trial I Left", LocationData(30216750, 14285217, "cave_temple_terror_lower0", None, None)),
    ("Statue Piece: Underdark", LocationData(30216840, 27851856, "cave_temple_terror_lower1", None, None)),
    ("Key: Green", LocationData(30217074, 4256756216, "cave_temple_terror_lower2", Some("-3592,-584"), None)),
    ("Scarab 68: Trial III Right", LocationData(30216992, 48295512, "cave_temple_terror_lower3", None, None)),
    ("Scarab 69: Trial III Left", LocationData(30217006, 4269338416, "cave_temple_terror_lower3", None, None)),
    ("NPC: Liquorice", LocationData(30217093, 4256757304, "cave_temple_terror_lower4", Some("-2504,-584"), None)),
    ("Key: Blue", LocationData(30212240, 4276680744, "cave_temple_terror_lower5", Some("-2008,-280"), None)),
    ("Scarab 66: Trial II Right", LocationData(30216968, 17888168, "cave_temple_terror_lower6", None, None)),
    ("Scarab 67: Trial II Left", LocationData(30216951, 4279825456, "cave_temple_terror_lower6", None, None)),
    ("Wl. 77: Blue Chest", LocationData(47251672, 15731168, "cave_temple_terror_treasury0", Some("2528,240"), None)),
    ("Fruit 32: Green Chest", LocationData(47251676, 16779560, "cave_temple_terror_treasury1", None, None)),
    ("Fruit 89: Treasure Room", LocationData(47251961, 26740240, "cave_temple_terror_treasury2", Some("1552,408"), None)),
    ("Mailbox 10: Sal", LocationData(46928212, 68745024, "cave_temple_terror_upper0", None, None)),
    ("Wl. 78: Pitch", LocationData(25756550, 4282389168, "cave_winding_waterway0", Some("4784,-192"), None)),
    ("Wl. 37: End Boss Fight", LocationData(52563019, 4200596496, "hub_bowel_bumping_left0", Some("1040,-1440"), Some(true)))
  ]

  const LocationEntries1: seq<(string, LocationData)> := [
    ("Mailbox 05: Fleek", LocationData(45351379, 4279764360, "hub_cliffside_creek0", None, None)),
    ("NPC: Fleek", LocationData(45351467, 4241490784, "hub_cliffside_creek1", Some("864,-816"), None)),
    ("Chest: Fleek", LocationData(45351409, 4203742464, "hub_cliffside_creek2", None, None)),
    ("NPC: Nim", LocationData(24973035, 4294507088, "hub_festival0", Some("-1456,-8"), None)),
    ("Wl. 29: Instrument Cave", LocationData(45679446, 4280352336, "hub_festival_upper0", Some("-432,-224"), None)),
    ("Wl. 28: Above Rinri", LocationData(45679114, 4290251968, "hub_festival_upper1", Some("3264,-72"), None)),
    ("Mulch Pit: Village", LocationData(45679083, 4235723044, "hub_festival_upper2", Some("292,-904"), None)),
    ("Mailbox 26: Sin", LocationData(52953351, 4210035144, "hub_hermits_home0", None, None)),
    ("Wl. 24: Tower Top", LocationData(54857284, 4289784184, "hub_island_express0", Some("-5768,-80"), None)),
    ("Mailbox 30: Tower", LocationData(54857259, 2157592, "hub_island_express1", None, None)),
    ("Tower's Peak Crystal", LocationData(54857324, 1109224, "hub_island_express2", Some("-4920,432"), None)),
    ("Chest: Tower", LocationData(54857276, 4277726520, "hub_island_express3", None, None)),
    ("Mailbox 21: Sandro", LocationData(38666800, 4251977216, "hub_left_lemur_lane0", None, None)),
    ("NPC: Treek", LocationData(28705196, 1573800, "hub_left_lofty_logo0", None, None)),
    ("Wl. 30: Treek", LocationData(28705041, 2097736, "hub_left_lofty_logo1", Some("584,32"), None)),
    ("Chest: Treek", LocationData(28705266, 4247782280, "hub_left_lofty_logo2", None, None)),
    ("Statue Piece: Obt. Isles", LocationData(55771370, 4111991128, "hub_obtainium_outland0", None, None)),
    ("Wl. 36: Obt. Puzzle", LocationData(55771787, 4168679080, "hub_obtainium_outland1", Some("-344,-1928"), None)),
    ("Fruit 86: Sin", LocationData(50727459, 4133488264, "hub_soaring_stone0", Some("1672,-2464"), Some(true))),
    ("Wl. 35: Sin Totem", LocationData(50727469, 4207936944, "hub_soaring_stone0", Some("1456,-1328"), None)),
    ("Wl. 27: All Mailboxes", LocationData(55185823, 4247846584, "hub_village0", Some("-328,-720"), None)),
    ("NPC: Lemon, All Packages", LocationData(55185986, 4268818048, "hub_village1", None, None)),
    ("Chest: Willo", LocationData(55185814, 4224188720, "hub_village2", None, None)),
    ("Wl. 25: Lonka", LocationData(55185217, 49348200, "hub_village3", Some("-408,752"), Some(true))),
    ("Mailbox 19: Hub", LocationData(55185744, 4291299880, "hub_village4", None, None)),
    ("Mailbox 20: Post Office", LocationData(55185740, 4290773568, "hub_village4", None, None)),
    ("Post Office Attic", LocationData(55185973, 4248370868, "hub_village5", Some("-334,-803"), Some(true))),
    ("NPC: Rinri, Reward", LocationData(55185856, 4212655816, "hub_village6", Some("3405,120"), None)),
    ("Wl. 26: Post Office Junk", LocationData(55185735, 4267769816, "hub_village7", Some("-40,-416"), None)),
    ("Toolbox", LocationData(55185998, 4212917772, "hub_village8", Some("1548,-1252"), Some(true))),
    ("NPC: Lemon", LocationData(55185471, 4269801480, "hub_village8", Some("8,-384"), None))
  ]

  const LocationEntries2: seq<(string, LocationData)> := [
    ("NPC: Rinri, Quest", LocationData(55185140, 4213704344, "hub_village8", Some("1688,-1240"), None)),
    ("Mailbox 22: Dipperloaf", LocationData(52103026, 4092071080, "hub_white_cliff0", None, None)),
    ("Wl. 31: Dipperloaf", LocationData(52103039, 4032299056, "hub_white_cliff1", Some("48,-4008"), None)),
    ("NPC: Dipperloaf", LocationData(52103074, 4093118592, "hub_white_cliff2", Some("2176,-3080"), None)),
    ("NPC: Posterodactyl", LocationData(21108214, 84471568, "menu", Some("-4336,1288"), None)),
    ("Wl. 06: Fosfor Tunnel", LocationData(21108621, 64488200, "menu", Some("776,984"), None)),
    ("Fruit 31: Banana Chest", LocationData(21108771, 4286579384, "intro_landing1", None, None)),
    ("Mailbox 01: Hairy", LocationData(21108767, 77657912, "intro_landing2", None, None)),
    ("Wl. 03: Hairy", LocationData(21108710, 80278608, "intro_landing3", Some("-2992,1224"), None)),
    ("Wl. 07: Fosfor Cave", LocationData(36766403, 76546608, "intro_landing_creepy_cavern0", Some("560,1168"), None)),
    ("Wl. 08: Fosfor Door", LocationData(36766387, 3146336, "intro_landing_creepy_cavern1", Some("608,48"), None)),
    ("Wl. 01: Beach Dive 1", LocationData(44105819, 15794168, "intro_landing_left0", Some("-8,240"), None)),
    ("Mailbox 06: Screech", LocationData(21172926, 149429680, "intro_landing_right0", None, None)),
    ("Mailbox 04: Tweepers", LocationData(21172921, 48239984, "intro_landing_right1", None, None)),
    ("Chest: Tweepers", LocationData(21173193, 49288040, "intro_landing_right2", None, None)),
    ("NPC: Tweepers", LocationData(21172508, 50861680, "intro_landing_right2", Some("5744,776"), None)),
    ("Wl. 10: Gorila Woods Beeline", LocationData(21173121, 13635816, "intro_landing_right2", Some("4328,208"), None)),
    ("Scarab 37: Sootling House Upper", LocationData(21172735, 108009552, "intro_landing_right3", None, None)),
    ("Scarab 38: Sootling House Lower", LocationData(21173226, 116922472, "intro_landing_right3", None, None)),
    ("Chest: Noisemaker", LocationData(21042789, 4145605912, "intro_landing_upper0", None, None)),
    ("Wl. 04: Intro 1", LocationData(21042679, 4244172672, "intro_landing_upper0", Some("-4224,-776"), None)),
    ("Wl. 09: Above Fosfor", LocationData(21042801, 4251976360, "intro_landing_upper1", Some("680,-656"), None)),
    ("Juicy Cove Mushroom", LocationData(21042450, 4136111076, "intro_landing_upper2", Some("3044,-2424"), Some(true))),
    ("Poison Toadstool", LocationData(21042661, 4141878836, "intro_landing_upper2", Some("3648,-2356"), Some(true))),
    ("Wl. 05: Intro 2", LocationData(21040985, 4246796656, "intro_landing_upper2", Some("-1680,-736"), None)),
    ("Scarab 35: Mushrooms Left", LocationData(21042135, 4181199648, "intro_landing_upper3", None, None)),
    ("Scarab 36: Mushrooms Right", LocationData(21041407, 4113566464, "intro_landing_upper3", None, None)),
    ("Mailbox 03: Baldino", LocationData(21042729, 4191743216, "intro_landing_upper4", None, None)),
    ("Wl. 34: Fleek", LocationData(21042438, 4125625952, "intro_landing_upper5", Some("3680,-2584"), None)),
    ("Mailbox 02: Fosfor", LocationData(56098915, 4260367648, "intro_muddled_morass0", None, None)),
    ("Chest: Fosfor Cave Left", LocationData(56099584, 4240441800, "intro_muddled_morass1", None, None))
  ]

  const LocationEntries3: seq<(string, LocationData)> := [
    ("Wl. 02: Beach Dive 2", LocationData(22872105, 6355600, "intro_secret0", Some("-1392,96"), None)),
    ("Wl. 12: Ape Chest", LocationData(36898607, 70255784, "jungle_canyon_caper0", Some("1192,1072"), None)),
    ("NPC: Kickback", LocationData(36899447, 4255645816, "jungle_canyon_caper1", Some("120,-600"), None)),
    ("Wl. 19: Waterfall Bottom", LocationData(23396866, 4272951248, "jungle_crammed_canopy0", Some("4048,-336"), Some(true))),
    ("Fruit 80: Meadows Slug Rock", LocationData(23396960, 17828208, "jungle_crammed_canopy1", Some("2416,272"), None)),
    ("Wl. 18: Meadow Slug Jump", LocationData(23397003, 4271901792, "jungle_crammed_canopy1", Some("3168,-352"), None)),
    ("Wl. 20: Shed", LocationData(21825342, 4272949352, "jungle_misty_meadow0", Some("2152,-336"), None)),
    ("Mailbox 09: Shed", LocationData(21825455, 4277667776, "jungle_misty_meadow1", None, None)),
    ("Chest: Shed", LocationData(21825866, 4261416384, "jungle_misty_meadow2", None, None)),
    ("Mailbox 08: Slug Gardener", LocationData(21958374, 4148691816, "jungle_mollusc_madness0", None, None)),
    ("Wl. 16: Slug Gardener Spot 2", LocationData(21957403, 4167565528, "jungle_mollusc_madness1", Some("216,-1944"), Some(true))),
    ("Wl. 17: Slug Gardener Spot 1", LocationData(21957816, 4132503504, "jungle_mollusc_madness1", Some("-48,-2480"), Some(true))),
    ("Scarab 75: Meadow IV", LocationData(21958863, 50857256, "jungle_mollusc_madness2", None, None)),
    ("Scarab 76: Meadow V", LocationData(21957122, 36700816, "jungle_mollusc_madness2", None, None)),
    ("Scarab 71: Meadow I Left", LocationData(21958797, 4192731944, "jungle_mollusc_madness3", None, None)),
    ("Scarab 72: Meadow I Right", LocationData(21958795, 4192470124, "jungle_mollusc_madness3", None, None)),
    ("Scarab 73: Meadow II Upper", LocationData(21958813, 4216850488, "jungle_mollusc_madness3", None, None)),
    ("Scarab 74: Meadow II Lower", LocationData(21958834, 4262987576, "jungle_mollusc_madness3", None, None)),
    ("Scarab 42: Juicery Lower", LocationData(24840039, 63766623, "jungle_roots0", None, None)),
    ("Scarab 43: Juicery Upper", LocationData(24840041, 58916968, "jungle_roots0", None, None)),
    ("Wl. 32: Juicery Upper", LocationData(24838662, 37813824, "jungle_roots1", Some("-448,576"), None)),
    ("Wl. 33: Juicery Left", LocationData(24839105, 78707832, "jungle_roots1", Some("-904,1200"), Some(true))),
    ("Traitor Spirit 1", LocationData(21761425, 4271376216, "jungle_slug_struggle0", Some("1880,-360"), Some(true))),
    ("Traitor Spirit 2", LocationData(21761465, 4287367148, "jungle_slug_struggle0", Some("2028,-116"), Some(true))),
    ("Traitor Spirit 3", LocationData(21761423, 4292610368, "jungle_slug_struggle0", Some("2368,-36"), Some(true))),
    ("Traitor Spirit 4", LocationData(21761363, 4269804191, "jungle_slug_struggle0", Some("2719,-384"), Some(true))),
    ("Mailbox 07: Ape", LocationData(21761301, 4219470584, "jungle_slug_struggle1", None, None)),
    ("Wl. 13: Ape Hook", LocationData(21761097, 4261413072, "jungle_slug_struggle2", Some("208,-512"), None)),
    ("NPC: Skeeper", LocationData(21761516, 4212131424, "jungle_slug_struggle3", Some("1632,-1264"), None)),
    ("Wl. 14: Ape Entry", LocationData(21758395, 4238344672, "jungle_slug_struggle3", Some("480,-864"), None)),
    ("Wl. 15: Ape Right", LocationData(21760842, 4721960, "jungle_slug_struggle3", Some("3368,72"), Some(true)))
  ]

  const LocationEntries4: seq<(string, LocationData)> := [
    ("Mulch Pit: Ape", LocationData(21761617, 4293263672, "jungle_slug_struggle4", Some("144,-72"), None)),
    ("NPC: Dusk", LocationData(45220046, 4214227832, "jungle_spikey_stockade0", Some("888,-1232"), None)),
    ("Scarab 40: Tower Left", LocationData(23988666, 4266983160, "jungle_tall_tall_tower0", None, None)),
    ("Scarab 41: Tower Upper", LocationData(23988671, 4237361040, "jungle_tall_tall_tower0", None, None)),
    ("Wl. 11: Tower Table", LocationData(23987316, 4276158136, "jungle_tall_tall_tower1", Some("-328,-288"), None)),
    ("Wl. 23: Tower Mid", LocationData(23987363, 4081058584, "jungle_tall_tall_tower1", Some("792,-3264"), None)),
    ("Scarab 39: Tower Right", LocationData(23989298, 4281336640, "jungle_tall_tall_tower2", None, None)),
    ("Scarab 58: Willo Right", LocationData(48169307, 4261938264, "jungle_willy0", None, None)),
    ("Scarab 59: Willo Mid", LocationData(48170870, 4253549712, "jungle_willy0", None, None)),
    ("Scarab 60: Willo Left", LocationData(48170941, 4266656820, "jungle_willy0", None, None)),
    ("Statue Piece: Waterfall", LocationData(48170179, 4274061152, "jungle_willy1", Some("-160,-320"), None)),
    ("Wl. 56: Above Willo at Waterfall", LocationData(48170957, 4210097784, "jungle_willy2", Some("-392,-1296"), None)),
    ("Mailbox 23: Treek", LocationData(25628632, 4286584032, "peak_aerial_ascent0", None, None)),
    ("Mailbox 24: Orestation", LocationData(25628637, 4195312, "peak_aerial_ascent0", None, None)),
    ("Statue Piece: Ivory", LocationData(25628609, 4069001504, "peak_aerial_ascent1", None, None)),
    ("Wl. 42: Orestation Hook", LocationData(25628823, 4141940344, "peak_aerial_ascent2", Some("-392,-2336"), Some(true))),
    ("Wl. 40: Leap of Faith", LocationData(25628685, 4154986888, "peak_aerial_ascent3", Some("4488,-2136"), None)),
    ("Wl. 38: Orestation Bottom", LocationData(25627242, 29886208, "peak_aerial_ascent4", Some("1792,456"), None)),
    ("Wl. 39: God Misfire", LocationData(25626797, 4215804432, "peak_aerial_ascent5", Some("4624,-1208"), Some(true))),
    ("Wl. 41: Squirrowl", LocationData(25627136, 4133489384, "peak_aerial_ascent6", Some("2792,-2464"), None)),
    ("Scarab 44: Orestation Right", LocationData(25628848, 4191686032, "peak_aerial_ascent7", None, None)),
    ("Scarab 45: Orestation Left", LocationData(25628865, 4196928536, "peak_aerial_ascent7", None, None)),
    ("Wl. 53: Jamja Ledge", LocationData(57085342, 3984066824, "peak_beanstalk_base0", Some("2312,-4744"), None)),
    ("Seed Pod", LocationData(57084164, 4057990928, "peak_beanstalk_base1", Some("1808,-3616"), None)),
    ("Wl. 50: Ivory Hook Lower", LocationData(57084663, 4094230104, "peak_beanstalk_base2", Some("-424,-3064"), None)),
    ("Wl. 52: Ivory Hook Upper", LocationData(57084973, 4000381992, "peak_beanstalk_base2", Some("-984,-4496"), Some(true))),
    ("NPC: Jamja", LocationData(57085027, 4016572576, "peak_beanstalk_base3", Some("2208,-4248"), None)),
    ("Chest: Town Skip", LocationData(57085255, 4204265672, "peak_beanstalk_base4", None, None)),
    ("Chest: Lava", LocationData(57085246, 4087351776, "peak_beanstalk_base5", None, None)),
    ("Mailbox 29: Space Monks", LocationData(39454067, 4169666808, "peak_crooked_cliff0", None, None)),
    ("Nugget 1", LocationData(48892285, 4199811636, "peak_crystal_crater0", Some("2612,-1452"), None))
  ]

  const LocationEntries5: seq<(string, LocationData)> := [
    ("Nugget 2", LocationData(48892094, 4166519832, "peak_crystal_crater0", Some("3096,-1960"), None)),
    ("Nugget 3", LocationData(48892283, 4168355476, "peak_crystal_crater0", Some("3732,-1932"), None)),
    ("Nugget 4", LocationData(48892281, 4165734492, "peak_crystal_crater0", Some("4188,-1972"), None)),
    ("Fruit 87: Crystal Lake", LocationData(48892757, 4134013448, "peak_crystal_crater1", Some("2568,-2456"), Some(true))),
    ("Wl. 51: Sumoe", LocationData(48891952, 4199548264, "peak_crystal_crater2", Some("1384,-1456"), None)),
    ("NPC: Sumoe", LocationData(48892764, 4150264984, "peak_crystal_crater3", Some("1176,-2208"), None)),
    ("Mailbox 25: Lighthouse", LocationData(38472470, 4272950488, "peak_filthy_flat0", None, None)),
    ("Sootling 6", LocationData(38469896, 4028630608, "peak_filthy_flat1", Some("1616,-4064"), None)),
    ("Sootling 1", LocationData(38469887, 4194305584, "peak_filthy_flat2", Some("1584,-1536"), None)),
    ("Sootling 2", LocationData(38469941, 4140303400, "peak_filthy_flat2", Some("1064,-2360"), None)),
    ("Sootling 3", LocationData(38470259, 4093117904, "peak_filthy_flat2", Some("1488,-3080"), None)),
    ("Sootling 4", LocationData(38470383, 4092593784, "peak_filthy_flat3", Some("1656,-3088"), None)),
    ("Sootling 5", LocationData(38470932, 4098360920, "peak_filthy_flat3", Some("1624,-3000"), None)),
    ("Wl. 43: Lighthouse Ledge", LocationData(38472500, 4149215848, "peak_filthy_flat3", Some("616,-2224"), None)),
    ("Wl. 44: Lighthouse Slug Rock", LocationData(38471745, 4131914688, "peak_filthy_flat3", Some("960,-2488"), None)),
    ("Wl. 45: Lighthouse Leap", LocationData(38470609, 4057467200, "peak_filthy_flat3", Some("2368,-3624"), Some(true))),
    ("Scarab 46: Lighthouse I Right", LocationData(38472003, 4194829752, "peak_filthy_flat4", None, None)),
    ("Scarab 47: Lighthouse I Left", LocationData(38472598, 4163896448, "peak_filthy_flat4", None, None)),
    ("Scarab 48: Lighthouse II", LocationData(38472624, 4103079440, "peak_filthy_flat4", None, None)),
    ("Chest: Leash", LocationData(38472445, 4270850376, "peak_filthy_flat5", None, None)),
    ("Fruit 83: Sootling Cave Water", LocationData(28446220, 27791184, "peak_frostpine_forest0", Some("3920,424"), Some(true))),
    ("Mailbox 27: Ithaqua", LocationData(28445582, 4268229600, "peak_frostpine_forest1", None, None)),
    ("Fruit 84: Sootling Cave Right", LocationData(28445943, 4232581944, "peak_frostpine_forest2", Some("4920,-952"), Some(true))),
    ("Fruit 85: Sootling Cave Left", LocationData(28445932, 4227337984, "peak_frostpine_forest2", Some("3840,-1032"), Some(true))),
    ("Wl. 46: Sootling Cave", LocationData(28445810, 4257224384, "peak_frostpine_forest2", Some("5824,-576"), None)),
    ("Mulch Pit: Ivory", LocationData(56691154, 3955491464, "peak_guano_grief0", Some("648,-5180"), None)),
    ("Guano", LocationData(56689309, 4037281604, "peak_guano_grief1", Some("1860,-3932"), None)),
    ("Wl. 49: Telescope Skip Upper", LocationData(56691064, 4140826648, "peak_guano_grief2", Some("24,-2352"), None)),
    ("Wl. 48: Telescope Skip Lower", LocationData(56688830, 4211081552, "peak_guano_grief3", Some("336,-1280"), None)),
    ("Scarab 49: Town Skip", LocationData(56690172, 4261938544, "peak_guano_grief4", None, None)),
    ("Scarab 50: Bat", LocationData(56691137, 4029153584, "peak_guano_grief5", None, None))
  ]

  const LocationEntries6: seq<(string, LocationData)> := [
    ("Wl. 47: Kickback Hiding Cave", LocationData(56689807, 4292870664, "peak_guano_grief6", Some("520,-32"), None)),
    ("Wl. 54: Spider Cave Entry", LocationData(54528431, 3783850472, "peak_ice_cold_idol0", Some("-1560,-7800"), Some(true))),
    ("Fruit 88: Spider Cave", LocationData(54528363, 3811113640, "peak_ice_cold_idol1", Some("-1368,-7384"), Some(true))),
    ("Mailbox 28: Ojva", LocationData(56885316, 4218423200, "peak_obtainium_oracle0", None, None)),
    ("Wl. 55: Spider Cave Slug Rock", LocationData(48431629, 198245132, "peak_spider_fight0", Some("-1268,3024"), None)),
    ("Scarab 51: Spider Cave I", LocationData(48433763, 203488136, "peak_spider_fight1", None, None)),
    ("Scarab 52: Spider Cave II", LocationData(48433802, 128515136, "peak_spider_fight1", None, None)),
    ("Wl. 60: Dive Cave Chest", LocationData(43910175, 4288675928, "spring_bubbly_basin0", Some("88,-96"), None)),
    ("Tadpole 1", LocationData(43910361, 4291364328, "spring_bubbly_basin1", Some("1512,-55"), Some(true))),
    ("Tadpole 3", LocationData(43910364, 9505096, "spring_bubbly_basin1", Some("2376,145"), Some(true))),
    ("Tadpole 4", LocationData(43910355, 4268296856, "spring_bubbly_basin1", Some("2712,-407"), Some(true))),
    ("Tadpole 5", LocationData(43910349, 4260957888, "spring_bubbly_basin1", Some("3776,-519"), Some(true))),
    ("Tadpole 6", LocationData(43910346, 4276162816, "spring_bubbly_basin1", Some("4352,-287"), Some(true))),
    ("Tadpole 7", LocationData(43910161, 4251849008, "spring_bubbly_basin1", Some("4400,-658"), Some(true))),
    ("Tadpole 8", LocationData(43910352, 4282979928, "spring_bubbly_basin1", Some("5720,-183"), Some(true))),
    ("Tadpole 2", LocationData(43910358, 4244178552, "spring_bubbly_basin2", Some("1656,-775"), Some(true))),
    ("NPC: Dive Fish", LocationData(43910274, 4220521232, "spring_bubbly_basin3", Some("2832,-1136"), None)),
    ("NPC: Myrtle", LocationData(43910016, 4226290800, "spring_bubbly_basin4", Some("5232,-1048"), None)),
    ("NPC: Cleepers", LocationData(26284950, 3993503480, "spring_cloudburst_cliffs0", Some("1784,-4600"), None)),
    ("Fruit 77: Waterfall Left", LocationData(26284092, 4223664200, "spring_cloudburst_cliffs1", Some("72,-1088"), Some(true))),
    ("Fruit 79: Waterfall Right", LocationData(26284095, 4232054056, "spring_cloudburst_cliffs2", Some("1320,-960"), Some(true))),
    ("Wl. 21: Waterfall Ledge", LocationData(26284713, 4188538192, "spring_cloudburst_cliffs3", Some("1360,-1624"), None)),
    ("Mailbox 18: Waterfall", LocationData(26284437, 4204855176, "spring_cloudburst_cliffs4", None, None)),
    ("Chest: Waterfall", LocationData(26284861, 4029742568, "spring_cloudburst_cliffs5", None, None)),
    ("Mailbox 14: Hideout", LocationData(30544446, 4181196864, "spring_gangway_grotto0", None, None)),
    ("Wl. 67: Sush", LocationData(30544191, 4271374928, "spring_gangway_grotto1", Some("592,-360"), None)),
    ("Wl. 69: Hideout Slug Rock", LocationData(30544255, 4132965728, "spring_gangway_grotto1", Some("3424,-2472"), None)),
    ("Fruit 34: Underwater Chest", LocationData(30544450, 4188538672, "spring_gangway_grotto2", None, None)),
    ("NPC: Jojo", LocationData(30544307, 4115139088, "spring_gangway_grotto3", Some("2576,-2744"), None)),
    ("Wl. 68: Hideout Ledge", LocationData(30544153, 4138731872, "spring_gangway_grotto4", Some("2400,-2384"), None)),
    ("NPC: Splank", LocationData(30544501, 4115664624, "spring_gangway_grotto5", Some("3824,-2736"), None))
  ]

  const LocationEntries7: seq<(string, LocationData)> := [
    ("Wl. 70: Hideout Drop 1", LocationData(30544389, 4226814048, "spring_gangway_grotto6", Some("4192,-1040"), Some(true))),
    ("Wl. 73: Crystal Skull Chest", LocationData(27592231, 33555616, "spring_hidden_hotspring0", Some("1184,512"), None)),
    ("Chest: Crystal Skull", LocationData(27592999, 56100280, "spring_hidden_hotspring1", None, None)),
    ("Scarab 62: Crystal Skull Left", LocationData(27592971, 4293984032, "spring_hidden_hotspring2", None, None)),
    ("Scarab 63: Crystal Skull Right", LocationData(27592983, 31457744, "spring_hidden_hotspring2", None, None)),
    ("Wl. 72: Crystal Skull Slug Rock", LocationData(27592682, 4258856512, "spring_hidden_hotspring3", Some("-448,-552"), None)),
    ("Scarab 61: Crystal Skull Upper", LocationData(27592975, 4255645976, "spring_hidden_hotspring4", None, None)),
    ("Wl. 22: Waterfall Dive Through", LocationData(27657424, 75497552, "spring_jailhouse_japes0", Some("80,1152"), Some(true))),
    ("Mailbox 16: Church", LocationData(54007074, 4213765056, "spring_shoddy_shanty0", None, None)),
    ("Wl. 59: Dive Cave Entry", LocationData(54005874, 4261476320, "spring_shoddy_shanty1", Some("-2080,-512"), None)),
    ("Underwater Puzzle", LocationData(54007097, 37813616, "spring_shoddy_shanty2", Some("-656,576"), None)),
    ("Wl. 58: Church Ceiling", LocationData(54006765, 4194367360, "spring_shoddy_shanty3", Some("-2176,-1536"), None)),
    ("Mailbox 17: Kambi", LocationData(26481036, 4279239408, "spring_sleek_slabs0", None, None)),
    ("Wl. 61: Underwater at Hook Chest", LocationData(26480930, 31988528, "spring_sleek_slabs1", Some("6960,488"), Some(true))),
    ("Fruit 81: Marrow Jump", LocationData(26480910, 4281341648, "spring_sleek_slabs2", Some("5840,-208"), Some(true))),
    ("Fruit 33: Hook Chest", LocationData(26481041, 4282392888, "spring_sleek_slabs3", None, None)),
    ("Wl. 57: Church Chest", LocationData(26481085, 23069552, "spring_sleek_slabs4", Some("880,352"), None)),
    ("Chest: Church", LocationData(26481086, 11010136, "spring_sleek_slabs5", None, None)),
    ("Mailbox 15: Underbelly", LocationData(31987048, 4239458120, "spring_tiny_broad0", None, None)),
    ("Scarab 55: Underbelly I Right", LocationData(31983859, 4276094200, "spring_tiny_broad1", None, None)),
    ("Wl. 64: Underbelly I Right", LocationData(31982433, 4281336280, "spring_tiny_broad2", Some("472,-208"), Some(true))),
    ("Scarab 56: Underbelly I Left", LocationData(31987188, 4294508008, "spring_tiny_broad3", None, None)),
    ("Scarab 57: Underbelly I Mid", LocationData(31987185, 11534600, "spring_tiny_broad3", None, None)),
    ("Wl. 62: Underbelly I Left", LocationData(31983991, 36765112, "spring_tiny_broad4", Some("-584,560"), Some(true))),
    ("Wl. 63: Underbelly I Upper", LocationData(31985568, 13631616, "spring_tiny_broad4", Some("128,208"), None)),
    ("Fruit 78: Underbelly", LocationData(31987079, 4287106288, "spring_tiny_broad5", Some("3312,-120"), Some(true))),
    ("Wl. 65: Underbelly II Hidden", LocationData(31986809, 17828304, "spring_tiny_broad6", Some("2512,272"), None)),
    ("Wl. 71: Crystal Skull Upper", LocationData(27790467, 106431648, "spring_tortoise_tunnel0", Some("1184,1624"), None)),
    ("Scarab 53: Underbelly II Right", LocationData(37424285, 4175102945, "spring_yokos_yam0", None, None)),
    ("Wl. 66: Hideout Drop 2", LocationData(37424461, 4292345912, "spring_yokos_yam1", Some("56,-40"), None)),
    ("Scarab 54: Underbelly II Left", LocationData(37424029, 4208984856, "spring_yokos_yam2", None, None))
  ]

  /** The regions class YokuLocations defines a `locations_<region>` attribute for, in the order written. */
  const YokuLocationsRegions: seq<string> := [
    "cave_abyssal_access0",
    "cave_abyssal_access1",
    "cave_beach_bottom0",
    "cave_beaver_blockade0",
    "cave_beaver_blockade1",
    "cave_beaver_blockade2",
    "cave_clammy_cenote0",
    "cave_clammy_cenote1",
    "cave_clammy_cenote2",
    "cave_east_bay_shore0",
    "cave_east_bay_shore1",
    "cave_east_bay_shore2",
    "cave_east_bay_shore3",
    "cave_temple_terror_lower0",
    "cave_temple_terror_lower1",
    "cave_temple_terror_lower2",
    "cave_temple_terror_lower3",
    "cave_temple_terror_lower4",
    "cave_temple_terror_lower5",
    "cave_temple_terror_lower6",
    "cave_temple_terror_treasury0",
    "cave_temple_terror_treasury1",
    "cave_temple_terror_treasury2",
    "cave_temple_terror_upper0",
    "cave_winding_waterway0",
    "hub_bowel_bumping_left0",
    "hub_cliffside_creek0",
    "hub_cliffside_creek1",
    "hub_cliffside_creek2",
    "hub_festival0",
    "hub_festival_upper0",
    "hub_festival_upper1",
    "hub_festival_upper2",
    "hub_hermits_home0",
    "hub_island_express0",
    "hub_island_express1",
    "hub_island_express2",
    "hub_island_express3",
    "hub_left_lemur_lane0",
    "hub_left_lofty_logo0",
    "hub_left_lofty_logo1",
    "hub_left_lofty_logo2",
    "hub_obtainium_outland0",
    "hub_obtainium_outland1",
    "hub_soaring_stone0",
    "hub_village0",
    "hub_village1",
    "hub_village2",
    "hub_village3",
    "hub_village4",
    "hub_village5",
    "hub_village6",
    "hub_village7",
    "hub_village8",
    "hub_white_cliff0",
    "hub_white_cliff1",
    "hub_white_cliff2",
    "menu",
    "intro_landing1",
    "intro_landing2",
    "intro_landing3",
    "intro_landing_creepy_cavern0",
    "intro_landing_creepy_cavern1",
    "intro_landing_left0",
    "intro_landing_right0",
    "intro_landing_right1",
    "intro_landing_right2",
    "intro_landing_right3",
    "intro_landing_upper0",
    "intro_landing_upper1",
    "intro_landing_upper2",
    "intro_landing_upper3",
    "intro_landing_upper4",
    "intro_landing_upper5",
    "intro_muddled_morass0",
    "intro_muddled_morass1",
    "intro_secret0",
    "jungle_canyon_caper0",
    "jungle_canyon_caper1",
    "jungle_crammed_canopy0",
    "jungle_crammed_canopy1",
    "jungle_misty_meadow0",
    "jungle_misty_meadow1",
    "jungle_misty_meadow2",
    "jungle_mollusc_madness0",
    "jungle_mollusc_madness1",
    "jungle_mollusc_madness2",
    "jungle_mollusc_madness3",
    "jungle_roots0",
    "jungle_roots1",
    "jungle_slug_struggle0",
    "jungle_slug_struggle1",
    "jungle_slug_struggle2",
    "jungle_slug_struggle3",
    "jungle_slug_struggle4",
    "jungle_spikey_stockade0",
    "jungle_tall_tall_tower0",
    "jungle_tall_tall_tower1",
    "jungle_tall_tall_tower2",
    "jungle_willy0",
    "jungle_willy1",
    "jungle_willy2",
    "peak_aerial_ascent0",
    "peak_aerial_ascent1",
    "peak_aerial_ascent2",
    "peak_aerial_ascent3",
    "peak_aerial_ascent4",
    "peak_aerial_ascent5",
    "peak_aerial_ascent6",
    "peak_aerial_ascent7",
    "peak_beanstalk_base0",
    "peak_beanstalk_base1",
    "peak_beanstalk_base2",
    "peak_beanstalk_base3",
    "peak_beanstalk_base4",
    "peak_beanstalk_base5",
    "peak_crooked_cliff0",
    "peak_crystal_crater0",
    "peak_crystal_crater1",
    "peak_crystal_crater2",
    "peak_crystal_crater3",
    "peak_filthy_flat0",
    "peak_filthy_flat1",
    "peak_filthy_flat2",
    "peak_filthy_flat3",
    "peak_filthy_flat4",
    "peak_filthy_flat5",
    "peak_frostpine_forest0",
    "peak_frostpine_forest1",
    "peak_frostpine_forest2",
    "peak_guano_grief0",
    "peak_guano_grief1",
    "peak_guano_grief2",
    "peak_guano_grief3",
    "peak_guano_grief4",
    "peak_guano_grief5",
    "peak_guano_grief6",
    "peak_ice_cold_idol0",
    "peak_ice_cold_idol1",
    "peak_obtainium_oracle0",
    "peak_spider_fight0",
    "peak_spider_fight1",
    "spring_bubbly_basin0",
    "spring_bubbly_basin1",
    "spring_bubbly_basin2",
    "spring_bubbly_basin3",
    "spring_bubbly_basin4",
    "spring_cloudburst_cliffs0",
    "spring_cloudburst_cliffs1",
    "spring_cloudburst_cliffs2",
    "spring_cloudburst_cliffs3",
    "spring_cloudburst_cliffs4",
    "spring_cloudburst_cliffs5",
    "spring_gangway_grotto0",
    "spring_gangway_grotto1",
    "spring_gangway_grotto2",
    "spring_gangway_grotto3",
    "spring_gangway_grotto4",
    "spring_gangway_grotto5",
    "spring_gangway_grotto6",
    "spring_hidden_hotspring0",
    "spring_hidden_hotspring1",
    "spring_hidden_hotspring2",
    "spring_hidden_hotspring3",
    "spring_hidden_hotspring4",
    "spring_jailhouse_japes0",
    "spring_shoddy_shanty0",
    "spring_shoddy_shanty1",
    "spring_shoddy_shanty2",
    "spring_shoddy_shanty3",
    "spring_sleek_slabs0",
    "spring_sleek_slabs1",
    "spring_sleek_slabs2",
    "spring_sleek_slabs3",
    "spring_sleek_slabs4",
    "spring_sleek_slabs5",
    "spring_tiny_broad0",
    "spring_tiny_broad1",
    "spring_tiny_broad2",
    "spring_tiny_broad3",
    "spring_tiny_broad4",
    "spring_tiny_broad5",
    "spring_tiny_broad6",
    "spring_tortoise_tunnel0",
    "spring_yokos_yam0",
    "spring_yokos_yam1",
    "spring_yokos_yam2"
  ]

  /** location_table lists 248 entries. */
  lemma LocationEntriesCount()
    ensures |LocationEntries| == 248
  {
  }

  /**
   * location_table: location name to entry. Its names are those written, at
   * most 248, and each name maps to an entry written under that name (a later
   * entry would replace an earlier one of the same name).
   */
  function LocationTable(): (m: map<string, LocationData>)
    ensures m.Keys == Dicts.Keys(LocationEntries)
    ensures |m| <= 248
    ensures forall loc | loc in m :: exists i | 0 <= i < |LocationEntries| :: LocationEntries[i] == (loc, m[loc])
  {
    LocationEntriesCount();
    Dicts.FromPairs(LocationEntries)
  }

  /** Class YokuLocations defines 187 region attributes. */
  lemma YokuLocationsRegionsCount()
    ensures |YokuLocationsRegions| == 187
  {
  }

  /** region_locations(region): location name to id, for the locations of `region`. */
  function RegionLocations(table: map<string, LocationData>, region: string): (r: map<string, int>)
    ensures forall loc :: loc in r <==> loc in table && table[loc].region == region
    ensures forall loc | loc in r :: r[loc] == table[loc].id
  {
    map loc | loc in table && table[loc].region == region :: table[loc].id
  }

  /** The locations of two different regions are disjoint. */
  lemma RegionLocationsDisjoint(table: map<string, LocationData>, r1: string, r2: string)
    requires r1 != r2
    ensures RegionLocations(table, r1).Keys !! RegionLocations(table, r2).Keys
  {
  }

  /** Every location of the table is among the locations of its own region, with its id. */
  lemma RegionLocationsCover(table: map<string, LocationData>, loc: string)
    requires loc in table
    ensures loc in RegionLocations(table, table[loc].region)
    ensures RegionLocations(table, table[loc].region)[loc] == table[loc].id
  {
  }

  /** A region that no entry names has no locations. */
  lemma RegionLocationsUnused(table: map<string, LocationData>, region: string)
    requires forall loc | loc in table :: table[loc].region != region
    ensures RegionLocations(table, region) == map[]
  {
  }

  /**
   * YokuLocations.locations_<region>, for a class defining one attribute per
   * region of `regions` over the location table `table`; None for a name the
   * class does not define. The class itself is `regions` = YokuLocationsRegions
   * over `table` = LocationTable.
   */
  function YokuLocationsAttribute(regions: seq<string>, table: map<string, LocationData>, attribute: string): (r: Option<map<string, int>>)
    ensures r.Some? <==> |attribute| >= 10 && attribute[..10] == "locations_" && attribute[10..] in regions
    ensures r.Some? ==> r.value == RegionLocations(table, attribute[10..])
  {
    if |attribute| >= 10 && attribute[..10] == "locations_" && attribute[10..] in regions
    then Some(RegionLocations(table, attribute[10..]))
    else None
  }

  /** Each attribute locations_<region> holds the locations of exactly that region. */
  lemma YokuLocationsAttributeOfRegion(regions: seq<string>, table: map<string, LocationData>, region: string)
    requires region in regions
    ensures YokuLocationsAttribute(regions, table, "locations_" + region) == Some(RegionLocations(table, region))
  {
    var attribute := "locations_" + region;
    assert attribute[..10] == "locations_" && attribute[10..] == region;
  }

  /** Names that do not start with "locations_" are not region attributes. */
  lemma YokuLocationsOtherAttribute(regions: seq<string>, table: map<string, LocationData>, attribute: string)
    requires |attribute| < 10 || attribute[..10] != "locations_"
    ensures YokuLocationsAttribute(regions, table, attribute) == None
  {
  }
}
