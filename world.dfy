/**
 * The Yoku's Island Express world (worlds/yoku/__init__.py): the item and
 * location name-to-id maps, the creation of items and of the item pool, the
 * completion condition, and the save records gathered by generate_output.
 */
module World {
  import opened Wrappers
  import opened Runtime
  import opened BaseClasses
  import Items
  import Locations
  import SaveFile
  import Dicts

  // ---------------------------------------------------------------- names and ids

  /** The (value, id) pairs of the rows of an item table, in order. */
  function NameIdPairs(table: seq<Items.ItemRow>): (pairs: seq<(string, int)>)
    ensures |pairs| == |table|
    ensures forall i | 0 <= i < |table| :: pairs[i] == (table[i].0.Value(), table[i].1.id)
  {
    seq(|table|, i requires 0 <= i < |table| => (table[i].0.Value(), table[i].1.id))
  }

  /** item_name_to_id: each item's name (its member's value) mapped to its id. */
  function ItemNameToId(table: seq<Items.ItemRow>): (m: map<string, int>)
    ensures m.Keys == set i | 0 <= i < |table| :: table[i].0.Value()
  {
    var pairs := NameIdPairs(table);
    assert (set i | 0 <= i < |pairs| :: pairs[i].0) == set i | 0 <= i < |table| :: table[i].0.Value();
    Dicts.FromPairs(pairs)
  }

  /** With one row per member, every row's name maps to that row's id, and no name is lost. */
  lemma ItemNameToIdRows(table: seq<Items.ItemRow>)
    requires Dicts.DistinctKeys(table)
    ensures |ItemNameToId(table)| == |table|
    ensures forall i | 0 <= i < |table| :: ItemNameToId(table)[table[i].0.Value()] == table[i].1.id
  {
    var pairs := NameIdPairs(table);
    forall i, j | 0 <= i < j < |pairs| ensures pairs[i].0 != pairs[j].0 {
      Items.ValueInjective(table[i].0, table[j].0);
    }
    Dicts.FromPairsDistinct(pairs);
  }

  /** The world's item_name_to_id has one entry per member, its name to its table id. */
  lemma ItemNameToIdOfItemTable(table: seq<Items.ItemRow>, k: Items.ItemName)
    requires table == Items.ItemTable
    ensures |ItemNameToId(table)| == 48
    ensures Items.Lookup(table, k).Some? && k.Value() in ItemNameToId(table)
    ensures ItemNameToId(table)[k.Value()] == Items.Lookup(table, k).value.id
  {
    Items.ItemTableKeysDistinct();
    Items.ItemTableRowPositions();
    Items.EveryItemHasData(k);
    ItemNameToIdRows(table);
  }

  /** location_name_to_id: each location's name mapped to the "id" of its entry. */
  function LocationNameToId(table: map<string, Locations.LocationData>): (m: map<string, int>)
    ensures m.Keys == table.Keys
    ensures forall loc | loc in m :: table[loc].Get("id") == Some(IntValue(m[loc]))
  {
    map loc | loc in table :: table[loc].id
  }

  /**
   * The per-region maps agree with location_name_to_id: each is part of it,
   * and each location is found in the map of its own region.
   */
  lemma RegionLocationsPartitionNameToId(table: map<string, Locations.LocationData>, region: string, loc: string)
    ensures forall l | l in Locations.RegionLocations(table, region) ::
      l in LocationNameToId(table) && LocationNameToId(table)[l] == Locations.RegionLocations(table, region)[l]
    ensures loc in LocationNameToId(table) ==>
      Locations.RegionLocations(table, table[loc].region)[loc] == LocationNameToId(table)[loc]
  {
  }

  /** item_name_groups as written: the group "Movement" lists "Slug Vacuum". */
  const ItemNameGroupsAsWritten: map<string, set<string>> := map[
    "Movement" := {"Progressive Dive Fish", "Mail bag", "Noisemaker", "Slug Vacuum", "Grand Postmaster Badge", "Sootling Leash"}
  ]

  /** "Slug Vacuum" in the group as written is not the name of any item. */
  lemma GroupAsWrittenNamesNoItem()
    ensures "Slug Vacuum" in ItemNameGroupsAsWritten["Movement"]
    ensures Items.ByValue("Slug Vacuum") == None
  {
    Items.NotAValue("Slug Vacuum");
  }

  /** item_name_groups naming the slug vacuum item by its name, "Progressive Slug Vacuum". */
  const ItemNameGroups: map<string, set<string>> := map[
    "Movement" := {"Progressive Dive Fish", "Mail bag", "Noisemaker", "Progressive Slug Vacuum", "Grand Postmaster Badge", "Sootling Leash"}
  ]

  /** Every name in every group is the value of a member. */
  lemma GroupNamesAreValues()
    ensures forall group, name | group in ItemNameGroups && name in ItemNameGroups[group] :: name in Items.MemberValues
  {
  }

  /** The value of any member is a key of item_name_to_id. */
  lemma MemberValueIsName(table: seq<Items.ItemRow>, v: string)
    requires table == Items.ItemTable
    requires v in Items.MemberValues
    ensures v in ItemNameToId(table)
  {
    Items.MembersAt(0);
    var i :| 0 <= i < |Items.MemberValues| && Items.MemberValues[i] == v;
    Items.MemberAt(i);
    ItemNameToIdOfItemTable(table, Items.Members[i]);
  }

  /** Every name in every group is the name of an item of the world. */
  lemma GroupsNameItems(table: seq<Items.ItemRow>)
    requires table == Items.ItemTable
    ensures forall group, name | group in ItemNameGroups && name in ItemNameGroups[group] :: name in ItemNameToId(table)
  {
    GroupNamesAreValues();
    forall group, name | group in ItemNameGroups && name in ItemNameGroups[group] ensures name in ItemNameToId(table) {
      MemberValueIsName(table, name);
    }
  }

  // ---------------------------------------------------------------- items

  /** The classification create_item gives to an item of type `t`. */
  function Classification(t: Items.ItemType): (c: ItemClassification)
    ensures c == ItemClassification.Filler <==> t == Items.ItemType.Junk
    ensures c == ItemClassification.Progression <==> t == Items.ItemType.Progression
    ensures c == ItemClassification.Useful <==> t == Items.ItemType.Normal
  {
    match t
    case Junk => ItemClassification.Filler
    case Progression => ItemClassification.Progression
    case Normal => ItemClassification.Useful
  }

  /**
   * create_item(name): the item `name` of `player`, built from its row of
   * `table`; the exception "The item <name> is not valid." when it has none.
   */
  function CreateItem(table: seq<Items.ItemRow>, name: Items.ItemName, player: int): (r: Result<Item, Error>)
    ensures r.Ok? <==> Items.Lookup(table, name).Some?
    ensures r.Ok? ==> r.value.YokuItem? && r.value.name == name.Value() && r.value.player == player
    ensures r.Ok? ==> r.value.code == Some(Items.Lookup(table, name).value.id)
    ensures r.Ok? ==> r.value.classification == Classification(Items.Lookup(table, name).value.itemType)
    ensures r.Err? ==> r.error == Exception("The item " + name.Value() + " is not valid.")
  {
    match Items.Lookup(table, name)
    case None => Err(Exception("The item " + name.Value() + " is not valid."))
    case Some(data) => Ok(YokuItem(name.Value(), Classification(data.itemType), Some(data.id), player))
  }

  /** An item the world creates carries the id item_name_to_id gives its name. */
  lemma CreatedItemCodeMatchesNameToId(table: seq<Items.ItemRow>, name: Items.ItemName, player: int)
    requires table == Items.ItemTable
    ensures CreateItem(table, name, player).Ok? && name.Value() in ItemNameToId(table)
    ensures CreateItem(table, name, player).value.code == Some(ItemNameToId(table)[name.Value()])
  {
    ItemNameToIdOfItemTable(table, name);
  }

  /** The item create_item makes from a row of a table with one row per member. */
  function RowItem(row: Items.ItemRow, player: int): Item {
    YokuItem(row.0.Value(), Classification(row.1.itemType), Some(row.1.id), player)
  }

  /** The number of passes of `for _ in range(count)`. */
  function Copies(count: int): nat {
    if count < 0 then 0 else count
  }

  /** `n` copies of `x`. */
  function Repeat(x: Item, n: nat): (s: seq<Item>)
    ensures |s| == n && forall i | 0 <= i < n :: s[i] == x
  {
    seq(n, _ => x)
  }

  /** The items create_items appends for `rows`: the copies of each row's item, row after row. */
  function PoolOf(rows: seq<Items.ItemRow>, player: int): (pool: seq<Item>)
    ensures forall x | x in pool :: exists i | 0 <= i < |rows| :: x == RowItem(rows[i], player)
  {
    if |rows| == 0 then []
    else
      var last := rows[|rows| - 1];
      PoolOf(rows[..|rows| - 1], player) + Repeat(RowItem(last, player), Copies(last.1.count))
  }

  /** The number of copies create_items makes for `rows`. */
  function TotalCopies(rows: seq<Items.ItemRow>): nat {
    if |rows| == 0 then 0 else Copies(rows[0].1.count) + TotalCopies(rows[1..])
  }

  /** The pool of `rows` holds as many items as the rows ask for copies. */
  lemma {:induction false} PoolSize(rows: seq<Items.ItemRow>, player: int)
    ensures |PoolOf(rows, player)| == TotalCopies(rows)
  {
    if |rows| > 0 {
      PoolSize(rows[..|rows| - 1], player);
      assert rows == rows[..|rows| - 1] + [rows[|rows| - 1]];
      TotalCopiesAppend(rows[..|rows| - 1], [rows[|rows| - 1]]);
    }
  }

  /** The pool of two tables one after the other is the pool of the first, then that of the second. */
  lemma {:induction false} PoolOfAppend(a: seq<Items.ItemRow>, b: seq<Items.ItemRow>, player: int)
    ensures PoolOf(a + b, player) == PoolOf(a, player) + PoolOf(b, player)
  {
    if |b| == 0 {
      assert a + b == a;
    } else {
      assert (a + b)[..|a + b| - 1] == a + b[..|b| - 1];
      PoolOfAppend(a, b[..|b| - 1], player);
    }
  }

  lemma {:induction false} TotalCopiesAppend(a: seq<Items.ItemRow>, b: seq<Items.ItemRow>)
    ensures TotalCopies(a + b) == TotalCopies(a) + TotalCopies(b)
  {
    if |a| == 0 {
      assert a + b == b;
    } else {
      assert (a + b)[1..] == a[1..] + b;
      TotalCopiesAppend(a[1..], b);
    }
  }

  /**
   * The copies of row `i` sit together in the pool, right after those of the
   * rows before it.
   */
  lemma PoolBlock(rows: seq<Items.ItemRow>, i: nat, player: int)
    requires i < |rows|
    ensures TotalCopies(rows[..i]) + Copies(rows[i].1.count) <= |PoolOf(rows, player)|
    ensures PoolOf(rows, player)[TotalCopies(rows[..i])..TotalCopies(rows[..i]) + Copies(rows[i].1.count)]
         == Repeat(RowItem(rows[i], player), Copies(rows[i].1.count))
  {
    assert rows == rows[..i + 1] + rows[i + 1..];
    PoolOfAppend(rows[..i + 1], rows[i + 1..], player);
    assert rows[..i + 1][..i] == rows[..i];
    PoolSize(rows[..i], player);
  }

  /** The number of items of `items` named `name`. */
  function CountNamed(items: seq<Item>, name: string): nat {
    if |items| == 0 then 0
    else CountNamed(items[..|items| - 1], name) + (if items[|items| - 1].name == name then 1 else 0)
  }

  lemma {:induction false} CountNamedAppend(a: seq<Item>, b: seq<Item>, name: string)
    ensures CountNamed(a + b, name) == CountNamed(a, name) + CountNamed(b, name)
  {
    if |b| == 0 {
      assert a + b == a;
    } else {
      assert (a + b)[..|a + b| - 1] == a + b[..|b| - 1];
      CountNamedAppend(a, b[..|b| - 1], name);
    }
  }

  lemma {:induction false} CountNamedRepeat(x: Item, n: nat, name: string)
    ensures CountNamed(Repeat(x, n), name) == if x.name == name then n else 0
  {
    if n > 0 {
      assert Repeat(x, n)[..n - 1] == Repeat(x, n - 1);
      CountNamedRepeat(x, n - 1, name);
    }
  }

  lemma {:induction false} LookupSnoc(rows: seq<Items.ItemRow>, k: Items.ItemName)
    requires |rows| > 0
    ensures Items.Lookup(rows, k) ==
      if Items.Lookup(rows[..|rows| - 1], k).Some? then Items.Lookup(rows[..|rows| - 1], k)
      else if rows[|rows| - 1].0 == k then Some(rows[|rows| - 1].1) else None
  {
    assert rows == rows[..|rows| - 1] + [rows[|rows| - 1]];
    Items.LookupAppend(rows[..|rows| - 1], [rows[|rows| - 1]], k);
  }

  /** With one row per member, each member's name occurs in the pool exactly as often as its row asks. */
  lemma {:induction false} PoolCount(rows: seq<Items.ItemRow>, player: int, k: Items.ItemName)
    requires Dicts.DistinctKeys(rows)
    ensures CountNamed(PoolOf(rows, player), k.Value()) ==
      match Items.Lookup(rows, k) case None => 0 case Some(data) => Copies(data.count)
  {
    if |rows| > 0 {
      var init, last := rows[..|rows| - 1], rows[|rows| - 1];
      assert Dicts.DistinctKeys(init);
      PoolCount(init, player, k);
      CountNamedAppend(PoolOf(init, player), Repeat(RowItem(last, player), Copies(last.1.count)), k.Value());
      CountNamedRepeat(RowItem(last, player), Copies(last.1.count), k.Value());
      Items.ValueInjective(last.0, k);
      LookupSnoc(rows, k);
      if last.0 == k {
        assert Items.Lookup(init, k).None?;
      }
    }
  }

  lemma TotalCopiesBlock0()
    ensures TotalCopies(Items.ItemRows0) == 10
  {
  }

  lemma TotalCopiesBlock1()
    ensures TotalCopies(Items.ItemRows1) == 13
  {
  }

  lemma TotalCopiesBlock2()
    ensures TotalCopies(Items.ItemRows2) == 103
  {
  }

  lemma TotalCopiesBlock3()
    ensures TotalCopies(Items.ItemRows3) == 8
  {
  }

  lemma TotalCopiesBlock4()
    ensures TotalCopies(Items.ItemRows4) == 15
  {
  }

  lemma TotalCopiesBlock5()
    ensures TotalCopies(Items.ItemRows5) == 99
  {
  }

  /** item_table asks for 248 copies in all. */
  lemma TotalCopiesOfItemTable(table: seq<Items.ItemRow>)
    requires table == Items.ItemTable
    ensures TotalCopies(table) == 248
  {
    var r0, r1, r2, r3, r4, r5 := Items.ItemRows0, Items.ItemRows1, Items.ItemRows2, Items.ItemRows3, Items.ItemRows4, Items.ItemRows5;
    TotalCopiesBlock0();
    TotalCopiesBlock1();
    TotalCopiesBlock2();
    TotalCopiesBlock3();
    TotalCopiesBlock4();
    TotalCopiesBlock5();
    TotalCopiesAppend(r0, r1);
    TotalCopiesAppend(r0 + r1, r2);
    TotalCopiesAppend(r0 + r1 + r2, r3);
    TotalCopiesAppend(r0 + r1 + r2 + r3, r4);
    TotalCopiesAppend(r0 + r1 + r2 + r3 + r4, r5);
  }

  /**
   * The pool of the world holds 248 items, and each item's name occurs as
   * many times as its row's count, which is at least one.
   */
  lemma ItemPool(table: seq<Items.ItemRow>, player: int, k: Items.ItemName)
    requires table == Items.ItemTable
    ensures |PoolOf(table, player)| == 248
    ensures Items.Lookup(table, k).Some? && Items.Lookup(table, k).value.count > 0
    ensures CountNamed(PoolOf(table, player), k.Value()) == Items.Lookup(table, k).value.count
  {
    TotalCopiesOfItemTable(table);
    PoolSize(table, player);
    Items.ItemTableKeysDistinct();
    Items.EveryItemHasData(k);
    Items.ItemTableRowShape();
    PoolCount(table, player, k);
  }

  // ---------------------------------------------------------------- rules

  /**
   * The completion condition set_rules installs for `player`: the game is
   * complete for `player` exactly when the state holds their "Victory" item.
   */
  function CompletionCondition(player: int): (cond: CollectionState -> bool)
    ensures forall state :: cond(state) <==> ("Victory", player) in state.collected && state.collected[("Victory", player)] >= 1
  {
    (state: CollectionState) => state.Has("Victory", player)
  }

  // ---------------------------------------------------------------- output

  /** multiworld.get_regions(player): the regions of `player`, in order. */
  function RegionsOf(regions: seq<Region>, player: int): (r: seq<Region>)
    ensures forall x | x in r :: x in regions && x.player == player
    ensures forall x | x in regions && x.player == player :: x in r
  {
    if |regions| == 0 then []
    else
      var last := regions[|regions| - 1];
      RegionsOf(regions[..|regions| - 1], player) + (if last.player == player then [last] else [])
  }

  /** A location generate_output writes a record for: one of this game's, named in `table`. */
  predicate Recorded(loc: Location, table: map<string, Locations.LocationData>) {
    loc.YokuLocation? && loc.name in table
  }

  /** The recorded locations of `locs`, in order. */
  function RecordedIn(locs: seq<Location>, table: map<string, Locations.LocationData>): seq<Location> {
    if |locs| == 0 then []
    else
      var last := locs[|locs| - 1];
      RecordedIn(locs[..|locs| - 1], table) + (if Recorded(last, table) then [last] else [])
  }

  /** RecordedIn keeps exactly the recorded locations. */
  lemma {:induction false} RecordedInMembers(locs: seq<Location>, table: map<string, Locations.LocationData>)
    ensures forall x | x in RecordedIn(locs, table) :: x in locs && Recorded(x, table)
    ensures forall x | x in locs && Recorded(x, table) :: x in RecordedIn(locs, table)
  {
    if |locs| > 0 {
      RecordedInMembers(locs[..|locs| - 1], table);
      assert locs == locs[..|locs| - 1] + [locs[|locs| - 1]];
    }
  }

  /** The recorded locations of `regions`, region by region. */
  function RecordedLocations(regions: seq<Region>, table: map<string, Locations.LocationData>): seq<Location> {
    if |regions| == 0 then []
    else RecordedLocations(regions[..|regions| - 1], table) + RecordedIn(regions[|regions| - 1].locations, table)
  }

  /** Every location of RecordedLocations is recorded, and every recorded location of every region is in it. */
  lemma {:induction false} RecordedLocationsMembers(regions: seq<Region>, table: map<string, Locations.LocationData>)
    ensures forall x | x in RecordedLocations(regions, table) :: Recorded(x, table)
    ensures forall reg, x | reg in regions && x in reg.locations && Recorded(x, table) :: x in RecordedLocations(regions, table)
  {
    if |regions| > 0 {
      RecordedLocationsMembers(regions[..|regions| - 1], table);
      RecordedInMembers(regions[|regions| - 1].locations, table);
      assert regions == regions[..|regions| - 1] + [regions[|regions| - 1]];
    }
  }

  lemma {:induction false} RecordedInAppend(a: seq<Location>, b: seq<Location>, table: map<string, Locations.LocationData>)
    ensures RecordedIn(a + b, table) == RecordedIn(a, table) + RecordedIn(b, table)
  {
    if |b| == 0 {
      assert a + b == a;
    } else {
      assert (a + b)[..|a + b| - 1] == a + b[..|b| - 1];
      RecordedInAppend(a, b[..|b| - 1], table);
    }
  }

  /** The recorded locations of one more region follow those of the regions before it. */
  lemma RecordedLocationsSnoc(regions: seq<Region>, r: Region, table: map<string, Locations.LocationData>)
    ensures RecordedLocations(regions + [r], table) == RecordedLocations(regions, table) + RecordedIn(r.locations, table)
  {
    assert (regions + [r])[..|regions|] == regions;
  }

  lemma {:induction false} RecordedLocationsAppend(a: seq<Region>, b: seq<Region>, table: map<string, Locations.LocationData>)
    ensures RecordedLocations(a + b, table) == RecordedLocations(a, table) + RecordedLocations(b, table)
  {
    if |b| == 0 {
      assert a + b == a;
    } else {
      var init, last := b[..|b| - 1], b[|b| - 1];
      var x, y, z := RecordedLocations(a, table), RecordedLocations(init, table), RecordedIn(last.locations, table);
      calc {
        RecordedLocations(a + b, table);
        { assert a + b == (a + init) + [last]; }
        RecordedLocations((a + init) + [last], table);
        { RecordedLocationsSnoc(a + init, last, table); }
        RecordedLocations(a + init, table) + z;
        { RecordedLocationsAppend(a, init, table); }
        x + y + z;
        { Associative(x, y, z); }
        x + (y + z);
        { assert b == init + [last]; RecordedLocationsSnoc(init, last, table); }
        x + RecordedLocations(b, table);
      }
    }
  }

  /** Concatenation is associative. */
  lemma Associative<T>(x: seq<T>, y: seq<T>, z: seq<T>)
    ensures x + y + z == x + (y + z)
  {
  }

  /**
   * One pass of the loop of generate_output over a recorded location: an
   * AssertionError when it holds no item, and SaveItem(loc.name, loc.item)
   * otherwise, reading the id from the key `idKey`.
   */
  function RecordOf(idKey: string, loc: Location, table: map<string, Locations.LocationData>, itemTable: seq<Items.ItemRow>, players: SaveFile.Players): Result<SaveFile.SaveItem, Error> {
    match loc.item
    case None => Err(AssertionError)
    case Some(item) => SaveFile.BuildSaveItem(idKey, table, itemTable, loc.name, item, players)
  }

  /** RecordOf as a function of the location alone. */
  function RecordStep(idKey: string, table: map<string, Locations.LocationData>, itemTable: seq<Items.ItemRow>, players: SaveFile.Players): Location -> Result<SaveFile.SaveItem, Error> {
    loc => RecordOf(idKey, loc, table, itemTable, players)
  }

  /** The record of a location holding an item is SaveItem(loc.name, loc.item); without one, the AssertionError. */
  lemma RecordStepOf(table: map<string, Locations.LocationData>, itemTable: seq<Items.ItemRow>, players: SaveFile.Players, loc: Location)
    ensures loc.item.None? ==> RecordStep("id", table, itemTable, players)(loc) == Err(AssertionError)
    ensures loc.item.Some? ==> RecordStep("id", table, itemTable, players)(loc) == SaveFile.NewSaveItem(table, itemTable, loc.name, loc.item.value, players)
  {
  }

  /** A record made for a location carries the id of its entry and the item string of its item. */
  lemma RecordMade(table: map<string, Locations.LocationData>, itemTable: seq<Items.ItemRow>, players: SaveFile.Players, loc: Location, record: SaveFile.SaveItem)
    requires RecordStep("id", table, itemTable, players)(loc) == Ok(record)
    ensures loc.name in table && loc.item.Some?
    ensures record.id == table[loc.name].id && SaveFile.ItemString(itemTable, loc.item.value, players) == Ok(record.item)
    ensures record.tracker == table[loc.name].trackerString && record.revealed == table[loc.name].revealed
  {
    RecordStepOf(table, itemTable, players, loc);
  }

  /**
   * The records the loop of generate_output gathers for `locs`, making each
   * with `step`: one per location, in order, or the failure of the first
   * location whose record cannot be made.
   */
  function Collect(step: Location -> Result<SaveFile.SaveItem, Error>, locs: seq<Location>): (r: Result<seq<SaveFile.SaveItem>, Error>)
    ensures r.Ok? ==> |r.value| == |locs|
  {
    if |locs| == 0 then Ok([])
    else
      match Collect(step, locs[..|locs| - 1])
      case Err(e) => Err(e)
      case Ok(items) =>
        match step(locs[|locs| - 1])
        case Err(e) => Err(e)
        case Ok(record) => Ok(items + [record])
  }

  /**
   * The records are gathered exactly when every location's record can be
   * made; they are then those records, one per location, in order.
   */
  lemma {:induction false} CollectOk(step: Location -> Result<SaveFile.SaveItem, Error>, locs: seq<Location>)
    ensures Collect(step, locs).Ok? <==> forall i | 0 <= i < |locs| :: step(locs[i]).Ok?
    ensures Collect(step, locs).Ok? ==>
      |Collect(step, locs).value| == |locs| &&
      forall i | 0 <= i < |locs| :: step(locs[i]) == Ok(Collect(step, locs).value[i])
  {
    if |locs| > 0 {
      var init := locs[..|locs| - 1];
      CollectOk(step, init);
      assert forall i | 0 <= i < |init| :: init[i] == locs[i];
    }
  }

  /** When gathering fails, it fails as the first location whose record cannot be made. */
  lemma {:induction false} CollectErr(step: Location -> Result<SaveFile.SaveItem, Error>, locs: seq<Location>)
    requires Collect(step, locs).Err?
    ensures exists i | 0 <= i < |locs| ::
      step(locs[i]) == Err(Collect(step, locs).error) &&
      forall j | 0 <= j < i :: step(locs[j]).Ok?
  {
    var init := locs[..|locs| - 1];
    assert forall i | 0 <= i < |init| :: init[i] == locs[i];
    if Collect(step, init).Err? {
      CollectErr(step, init);
    } else {
      CollectOk(step, init);
    }
  }

  /** Once a location of `a` fails, the locations after it are not looked at. */
  lemma {:induction false} CollectStopsAtFailure(step: Location -> Result<SaveFile.SaveItem, Error>, a: seq<Location>, b: seq<Location>)
    requires Collect(step, a).Err?
    ensures Collect(step, a + b) == Collect(step, a)
  {
    if |b| > 0 {
      assert (a + b)[..|a + b| - 1] == a + b[..|b| - 1];
      CollectStopsAtFailure(step, a, b[..|b| - 1]);
    } else {
      assert a + b == a;
    }
  }

  /** Gathering one more location: its record is appended, or its failure ends the gathering. */
  lemma CollectSnoc(step: Location -> Result<SaveFile.SaveItem, Error>, a: seq<Location>, x: Location)
    ensures Collect(step, a + [x]) ==
      match Collect(step, a)
      case Err(e) => Err(e)
      case Ok(items) => (match step(x) case Err(e) => Err(e) case Ok(record) => Ok(items + [record]))
  {
    assert (a + [x])[..|a|] == a;
  }

  /** The recorded locations of `locs` up to `j`, then location `j` if it is recorded. */
  lemma RecordedInSnoc(done: seq<Location>, locs: seq<Location>, j: nat, table: map<string, Locations.LocationData>)
    requires j < |locs|
    ensures done + RecordedIn(locs[..j + 1], table) ==
      done + RecordedIn(locs[..j], table) + (if Recorded(locs[j], table) then [locs[j]] else [])
  {
    assert locs[..j + 1][..j] == locs[..j];
  }

  /** The recorded locations of `locs` are those up to `j` followed by those after it. */
  lemma RecordedInSplit(done: seq<Location>, locs: seq<Location>, j: nat, table: map<string, Locations.LocationData>)
    requires j <= |locs|
    ensures done + RecordedIn(locs, table) == done + RecordedIn(locs[..j], table) + RecordedIn(locs[j..], table)
  {
    assert locs == locs[..j] + locs[j..];
    RecordedInAppend(locs[..j], locs[j..], table);
  }

  /**
   * generate_output as written, reading "save_id": with at least one recorded
   * location it always fails, at the first one, with an AssertionError when
   * that location holds no item and a KeyError for "save_id" when it does.
   */
  lemma GenerateOutputAsWrittenFails(regions: seq<Region>, table: map<string, Locations.LocationData>, itemTable: seq<Items.ItemRow>, players: SaveFile.Players)
    requires RecordedLocations(regions, table) != []
    ensures var locs := RecordedLocations(regions, table);
      Collect(RecordStep("save_id", table, itemTable, players), locs) == Err(if locs[0].item.None? then AssertionError else KeyError("save_id"))
  {
    var locs := RecordedLocations(regions, table);
    var step := RecordStep("save_id", table, itemTable, players);
    RecordedLocationsMembers(regions, table);
    assert locs[0] in locs;
    assert step(locs[0]) == RecordOf("save_id", locs[0], table, itemTable, players);
    if locs[0].item.Some? {
      assert SaveFile.BuildSaveItem("save_id", table, itemTable, locs[0].name, locs[0].item.value, players)
          == SaveFile.SaveItemAsWritten(table, itemTable, locs[0].name, locs[0].item.value, players);
    }
    CollectOk(step, locs);
    CollectErr(step, locs);
  }

  /**
   * The records generate_output gathers are one per recorded location, and
   * the i-th carries the id of the i-th location's entry, the item string of
   * its item, and the entry's tracker string and revealed flag.
   */
  lemma CollectedRecord(locs: seq<Location>, table: map<string, Locations.LocationData>, itemTable: seq<Items.ItemRow>, players: SaveFile.Players,
                        records: seq<SaveFile.SaveItem>, i: nat)
    requires Collect(RecordStep("id", table, itemTable, players), locs) == Ok(records)
    requires i < |locs|
    ensures |records| == |locs|
    ensures locs[i].name in table && locs[i].item.Some?
    ensures records[i].id == table[locs[i].name].id
    ensures SaveFile.ItemString(itemTable, locs[i].item.value, players) == Ok(records[i].item)
    ensures records[i].tracker == table[locs[i].name].trackerString && records[i].revealed == table[locs[i].name].revealed
  {
    CollectOk(RecordStep("id", table, itemTable, players), locs);
    RecordMade(table, itemTable, players, locs[i], records[i]);
  }

  /**
   * The document generate_output writes from the outcome of its loop: the
   * failure of the loop, or the records indexed by id and written in `order`.
   */
  function Output(base: string, collected: Result<seq<SaveFile.SaveItem>, Error>, order: seq<int>): (r: Result<SaveFile.SaveDocument, Error>)
    ensures collected.Err? ==> r == Err(collected.error)
    ensures r.Ok? ==> collected.Ok? && |r.value.randomizer| == |order|
  {
    match collected
    case Err(e) => Err(e)
    case Ok(records) => SaveFile.SavedDocument(SaveFile.NewSaveFiles(base, records), order)
  }

  /**
   * Once the records are gathered, the save is written exactly when every id
   * of `order` is the id of some record.
   */
  lemma OutputWrittenIff(base: string, records: seq<SaveFile.SaveItem>, order: seq<int>)
    ensures Output(base, Ok(records), order).Ok? <==>
      forall k | 0 <= k < |order| :: exists i | 0 <= i < |records| :: records[i].id == order[k]
  {
    var files := SaveFile.NewSaveFiles(base, records);
    assert Output(base, Ok(records), order) == SaveFile.SavedDocument(files, order);
  }

  /**
   * The k-th record of a written save is that of the last record with the
   * k-th id of `order`.
   */
  lemma OutputRecordAt(base: string, records: seq<SaveFile.SaveItem>, order: seq<int>, k: nat)
    requires Output(base, Ok(records), order).Ok? && k < |order|
    ensures exists i | 0 <= i < |records| :: records[i].id == order[k]
    ensures |Output(base, Ok(records), order).value.randomizer| == |order|
    ensures Output(base, Ok(records), order).value.randomizer[k] == SaveFile.Record(records[LastWithId(records, order[k])])
  {
    var files := SaveFile.NewSaveFiles(base, records);
    var emitted := SaveFile.Emitted(files.saveItems, order);
    assert Output(base, Ok(records), order) == SaveFile.SavedDocument(files, order);
    assert emitted.Ok? && Output(base, Ok(records), order).value.randomizer == SaveFile.VhSave.randomizer + emitted.value;
    assert order[k] in files.saveItems;
    var i := LastWithId(records, order[k]);
    SaveFile.SaveFilesLaterRecordWins(base, records, i);
    assert emitted.value[k] == SaveFile.Record(records[i]);
  }

  /** The position of the last record with id `id`, which the map of SaveFiles keeps. */
  function LastWithId(records: seq<SaveFile.SaveItem>, id: int): (i: nat)
    requires exists i | 0 <= i < |records| :: records[i].id == id
    ensures i < |records| && records[i].id == id
    ensures forall j | i < j < |records| :: records[j].id != id
  {
    if records[|records| - 1].id == id then |records| - 1
    else LastWithId(records[..|records| - 1], id)
  }

  // ---------------------------------------------------------------- the world

  /** The part of the multiworld this world reads and writes. */
  class MultiWorld {
    var itempool: seq<Item>
    var completionCondition: map<int, CollectionState -> bool>
    var playerName: map<int, string>
    var game: map<int, string>
    var regions: seq<Region>

    /** A multiworld of the given players and regions, with an empty pool and no completion conditions. */
    constructor (playerName: map<int, string>, game: map<int, string>, regions: seq<Region>)
      ensures this.itempool == [] && this.completionCondition == map[]
      ensures this.playerName == playerName && this.game == game && this.regions == regions
    {
      this.itempool := [];
      this.completionCondition := map[];
      this.playerName := playerName;
      this.game := game;
      this.regions := regions;
    }
  }

  /** The world of one Yoku player inside a multiworld. */
  class YokuWorld {
    const multiworld: MultiWorld
    const player: int

    constructor (multiworld: MultiWorld, player: int)
      ensures this.multiworld == multiworld && this.player == player
    {
      this.multiworld := multiworld;
      this.player := player;
    }

    /**
     * create_items: append to the pool, row by row of item_table, `count`
     * copies of each row's item; nothing else of the multiworld changes.
     */
    method CreateItems()
      modifies multiworld
      ensures multiworld.itempool == old(multiworld.itempool) + PoolOf(Items.ItemTable, player)
      ensures multiworld.completionCondition == old(multiworld.completionCondition)
      ensures multiworld.playerName == old(multiworld.playerName) && multiworld.game == old(multiworld.game)
      ensures multiworld.regions == old(multiworld.regions)
    {
      Items.ItemTableKeysDistinct();
      AddRows(Items.ItemTable);
    }

    /** The loops of create_items over the rows `rows` of an item table with one row per member. */
    method AddRows(rows: seq<Items.ItemRow>)
      requires Dicts.DistinctKeys(rows)
      modifies multiworld
      ensures multiworld.itempool == old(multiworld.itempool) + PoolOf(rows, player)
      ensures multiworld.completionCondition == old(multiworld.completionCondition)
      ensures multiworld.playerName == old(multiworld.playerName) && multiworld.game == old(multiworld.game)
      ensures multiworld.regions == old(multiworld.regions)
    {
      for i := 0 to |rows|
        invariant multiworld.itempool == old(multiworld.itempool) + PoolOf(rows[..i], player)
        invariant multiworld.completionCondition == old(multiworld.completionCondition)
        invariant multiworld.playerName == old(multiworld.playerName) && multiworld.game == old(multiworld.game)
        invariant multiworld.regions == old(multiworld.regions)
      {
        AddCopies(rows, i);
        assert rows[..i + 1][..i] == rows[..i];
      }
      assert rows[..|rows|] == rows;
    }

    /** The inner loop of create_items: `count` copies of the item of row `i`, made by create_item. */
    method AddCopies(rows: seq<Items.ItemRow>, i: nat)
      requires Dicts.DistinctKeys(rows) && i < |rows|
      modifies multiworld
      ensures multiworld.itempool == old(multiworld.itempool) + Repeat(RowItem(rows[i], player), Copies(rows[i].1.count))
      ensures multiworld.completionCondition == old(multiworld.completionCondition)
      ensures multiworld.playerName == old(multiworld.playerName) && multiworld.game == old(multiworld.game)
      ensures multiworld.regions == old(multiworld.regions)
    {
      var (name, data) := rows[i];
      Items.LookupRow(rows, i);
      var c := 0;
      while c < data.count
        invariant 0 <= c <= Copies(data.count)
        invariant multiworld.itempool == old(multiworld.itempool) + Repeat(RowItem(rows[i], player), c)
        invariant multiworld.completionCondition == old(multiworld.completionCondition)
        invariant multiworld.playerName == old(multiworld.playerName) && multiworld.game == old(multiworld.game)
        invariant multiworld.regions == old(multiworld.regions)
      {
        var item := CreateItem(rows, name, player);
        assert Repeat(RowItem(rows[i], player), c + 1) == Repeat(RowItem(rows[i], player), c) + [item.value];
        multiworld.itempool := multiworld.itempool + [item.value];
        c := c + 1;
      }
    }

    /** set_rules: the game is complete for this player once they hold "Victory". */
    method SetRules()
      modifies multiworld
      ensures multiworld.completionCondition == old(multiworld.completionCondition)[player := CompletionCondition(player)]
      ensures multiworld.itempool == old(multiworld.itempool)
      ensures multiworld.playerName == old(multiworld.playerName) && multiworld.game == old(multiworld.game)
      ensures multiworld.regions == old(multiworld.regions)
    {
      multiworld.completionCondition := multiworld.completionCondition[player := CompletionCondition(player)];
    }

    /**
     * The body of the loop of generate_output for a recorded location:
     * assert that it holds an item, then make its record.
     */
    method RecordLocation(table: map<string, Locations.LocationData>, itemTable: seq<Items.ItemRow>, players: SaveFile.Players, loc: Location)
      returns (r: Result<SaveFile.SaveItem, Error>)
      ensures r == RecordStep("id", table, itemTable, players)(loc)
    {
      RecordStepOf(table, itemTable, players, loc);
      if loc.item.None? {
        return Err(AssertionError);
      }
      r := SaveFile.NewSaveItem(table, itemTable, loc.name, loc.item.value, players);
    }

    /**
     * The inner loop of generate_output over the locations `locs` of one
     * region, after the records `items` gathered for the locations `done`.
     */
    method CollectRegion(table: map<string, Locations.LocationData>, itemTable: seq<Items.ItemRow>, players: SaveFile.Players, ghost done: seq<Location>,
                         items: seq<SaveFile.SaveItem>, locs: seq<Location>)
      returns (r: Result<seq<SaveFile.SaveItem>, Error>)
      requires Collect(RecordStep("id", table, itemTable, players), done) == Ok(items)
      ensures r == Collect(RecordStep("id", table, itemTable, players), done + RecordedIn(locs, table))
    {
      ghost var step := RecordStep("id", table, itemTable, players);
      var gathered := items;
      assert done + RecordedIn(locs[..0], table) == done;
      for j := 0 to |locs|
        invariant Collect(step, done + RecordedIn(locs[..j], table)) == Ok(gathered)
      {
        var loc := locs[j];
        ghost var prefix := done + RecordedIn(locs[..j], table);
        RecordedInSnoc(done, locs, j, table);
        if loc.YokuLocation? && loc.name in table {
          CollectSnoc(step, prefix, loc);
          var record := RecordLocation(table, itemTable, players, loc);
          if record.Err? {
            RecordedInSplit(done, locs, j + 1, table);
            CollectStopsAtFailure(step, prefix + [loc], RecordedIn(locs[j + 1..], table));
            return Err(record.error);
          }
          gathered := gathered + [record.value];
        } else {
          assert prefix + [] == prefix;
        }
      }
      assert locs[..|locs|] == locs;
      r := Ok(gathered);
    }

    /**
     * The loop of generate_output: a record for each recorded location of the
     * player's regions, in order, with its id read from "id".
     */
    method CollectSaveItems(table: map<string, Locations.LocationData>, itemTable: seq<Items.ItemRow>)
      returns (r: Result<seq<SaveFile.SaveItem>, Error>)
      ensures r == Collect(RecordStep("id", table, itemTable, SaveFile.Players(multiworld.playerName, multiworld.game)),
                           RecordedLocations(RegionsOf(multiworld.regions, player), table))
    {
      var players := SaveFile.Players(multiworld.playerName, multiworld.game);
      ghost var step := RecordStep("id", table, itemTable, players);
      var regions := RegionsOf(multiworld.regions, player);
      var items: seq<SaveFile.SaveItem> := [];
      for i := 0 to |regions|
        invariant Collect(step, RecordedLocations(regions[..i], table)) == Ok(items)
      {
        ghost var done := RecordedLocations(regions[..i], table);
        assert regions[..i + 1][..i] == regions[..i];
        assert RecordedLocations(regions[..i + 1], table) == done + RecordedIn(regions[i].locations, table);
        var collected := CollectRegion(table, itemTable, players, done, items, regions[i].locations);
        if collected.Err? {
          assert regions == regions[..i + 1] + regions[i + 1..];
          RecordedLocationsAppend(regions[..i + 1], regions[i + 1..], table);
          CollectStopsAtFailure(step, RecordedLocations(regions[..i + 1], table), RecordedLocations(regions[i + 1..], table));
          return collected;
        }
        items := collected.value;
      }
      assert regions[..|regions|] == regions;
      r := Ok(items);
    }

    /**
     * generate_output, with location_table as `table` and item_table as
     * `itemTable`: gather the records, index them by id under the file base
     * `base`, and write the save in the game's order.
     */
    method GenerateOutput(base: string, table: map<string, Locations.LocationData>, itemTable: seq<Items.ItemRow>)
      returns (r: Result<SaveFile.SaveDocument, Error>)
      ensures r == Output(base, Collect(RecordStep("id", table, itemTable, SaveFile.Players(multiworld.playerName, multiworld.game)),
                                        RecordedLocations(RegionsOf(multiworld.regions, player), table)), SaveFile.Order)
    {
      var items := CollectSaveItems(table, itemTable);
      if items.Err? {
        return Err(items.error);
      }
      var files := SaveFile.NewSaveFiles(base, items.value);
      r := SaveFile.Save(files);
    }
  }
}
