/**
 * The save file of Yoku's Island Express (worlds/yoku/SaveFile.py): one record
 * per location telling the game which item the location holds. The records
 * are indexed by the location's id and written out in the game's fixed order
 * of locations.
 */
module SaveFile {
  import opened Wrappers
  import opened Runtime
  import opened BaseClasses
  import Items
  import Locations
  import Dicts

  /** The players of the multiworld: each player's name, and the game of each player's world. */
  datatype Players = Players(names: map<int, string>, games: map<int, string>)

  /** The character separating the fields of a foreign item's string (U+001E). */
  const Separator: char := '\U{1E}'

  /** The prefix of a foreign item's string. */
  const ForeignPrefix: string := "amwr/"

  /**
   * The item string of a record, with `itemTable` as item_table. An item of
   * the Yoku world's own class is written as the first game id of its row;
   * any other item as the prefix, its name, its owner's name and its owner's
   * game, the last three separated by U+001E.
   */
  function ItemString(itemTable: seq<Items.ItemRow>, item: Item, players: Players): (r: Result<string, Error>)
    ensures item.YokuItem? && Items.ByValue(item.name).None? ==> r == Err(ValueError(item.name))
    ensures item.YokuItem? && r.Ok? ==> exists i | 0 <= i < |itemTable| ::
      Items.ByValue(item.name) == Some(itemTable[i].0) && r.value in itemTable[i].1.yokuIds
    ensures item.YokuItem? && r.Ok? ==>
      Items.ByValue(item.name).Some? && Items.Lookup(itemTable, Items.ByValue(item.name).value).Some? &&
      var ids := Items.Lookup(itemTable, Items.ByValue(item.name).value).value.yokuIds;
      |ids| > 0 && r.value == ids[0]
    ensures item.OtherItem? ==> (r.Ok? <==> item.player in players.names && item.player in players.games)
    ensures item.OtherItem? && r.Ok? ==> |r.value| >= |ForeignPrefix| && r.value[..|ForeignPrefix|] == ForeignPrefix
    ensures item.OtherItem? && r.Ok? && Separator !in item.name
      && Separator !in players.names[item.player] && Separator !in players.games[item.player]
      ==> Fields(r.value[|ForeignPrefix|..]) == [item.name, players.names[item.player], players.games[item.player]]
  {
    match item
    case YokuItem(name, _, _, _) =>
      (match Items.ByValue(name)
       case None => Err(ValueError(name))
       case Some(k) =>
         match Items.Lookup(itemTable, k)
         case None => Err(KeyError(k.Value()))
         case Some(data) =>
           if |data.yokuIds| == 0 then Err(IndexError) else Ok(data.yokuIds[0]))
    case OtherItem(name, _, _, player) =>
      if player !in players.names || player !in players.games then Err(PlayerKeyError(player))
      else
        var s := ForeignPrefix + name + [Separator] + players.names[player] + [Separator] + players.games[player];
        assert s[|ForeignPrefix|..] == name + [Separator] + (players.names[player] + [Separator] + players.games[player]);
        if Separator !in name && Separator !in players.names[player] && Separator !in players.games[player] then
          FieldsJoin(name, players.names[player] + [Separator] + players.games[player]);
          FieldsJoin(players.names[player], players.games[player]);
          FieldsAll(players.games[player]);
          Ok(s)
        else Ok(s)
  }

  /**
   * With item_table, an item of the Yoku world has a string exactly when its
   * name is the value of a member, and the string leads back to that member.
   */
  lemma OwnItemString(itemTable: seq<Items.ItemRow>, item: Item, players: Players)
    requires itemTable == Items.ItemTable && item.YokuItem?
    ensures ItemString(itemTable, item, players).Ok? <==> Items.ByValue(item.name).Some?
    ensures ItemString(itemTable, item, players).Ok? ==>
      Items.FirstOwner(itemTable, ItemString(itemTable, item, players).value) == Items.ByValue(item.name)
  {
    if Items.ByValue(item.name).Some? {
      var k := Items.ByValue(item.name).value;
      Items.EveryItemHasYokuIds(k);
      Items.YokuIdRoundTrip(k, Items.YokuIds(k).value[0]);
    }
  }

  /** The fields of `s` between occurrences of the separator, as the game reads a foreign item's string. */
  function Fields(s: string): (fields: seq<string>)
    ensures |fields| >= 1
  {
    if |s| == 0 then [""]
    else
      var rest := Fields(s[1..]);
      if s[0] == Separator then [""] + rest else [[s[0]] + rest[0]] + rest[1..]
  }

  /** A string without the separator is one field. */
  lemma {:induction false} FieldsAll(a: string)
    requires Separator !in a
    ensures Fields(a) == [a]
  {
    if |a| > 0 {
      FieldsAll(a[1..]);
      assert a == [a[0]] + a[1..];
    }
  }

  /** A field followed by the separator is split off first. */
  lemma {:induction false} FieldsJoin(a: string, b: string)
    requires Separator !in a
    ensures Fields(a + [Separator] + b) == [a] + Fields(b)
  {
    if |a| == 0 {
      assert a + [Separator] + b == [Separator] + b;
      assert ([Separator] + b)[1..] == b;
    } else {
      assert (a + [Separator] + b)[1..] == a[1..] + [Separator] + b;
      FieldsJoin(a[1..], b);
      assert [a[0]] + a[1..] == a;
    }
  }

  /**
   * A save record (class SaveItem): the location's id, the item string, and the
   * location's tracker string and revealed flag where its entry has them.
   */
  datatype SaveItem = SaveItem(id: int, item: string, tracker: Option<string>, revealed: Option<bool>)
  {
    /**
     * vars(record): the instance attributes in the order they are set. The
     * tracker and revealed attributes exist only where they were set.
     */
    function Vars(): (attrs: seq<(string, Value)>)
      ensures |attrs| >= 2 && attrs[0] == ("id", IntValue(id)) && attrs[1] == ("item", StrValue(item))
      ensures tracker.Some? ==> ("tracker", StrValue(tracker.value)) in attrs
      ensures revealed.Some? ==> ("revealed", BoolValue(revealed.value)) in attrs
      ensures forall p | p in attrs && p.0 == "tracker" :: tracker.Some? && p.1 == StrValue(tracker.value)
      ensures forall p | p in attrs && p.0 == "revealed" :: revealed.Some? && p.1 == BoolValue(revealed.value)
      ensures forall p | p in attrs :: p.0 in {"id", "item", "tracker", "revealed"}
    ensures |attrs| == 2 + (if tracker.Some? then 1 else 0) + (if revealed.Some? then 1 else 0)
    ensures tracker.Some? ==> attrs[2] == ("tracker", StrValue(tracker.value))
    ensures revealed.Some? ==> attrs[|attrs| - 1] == ("revealed", BoolValue(revealed.value))
    ensures forall i, j | 0 <= i < j < |attrs| :: attrs[i].0 != attrs[j].0
    {
      [("id", IntValue(id)), ("item", StrValue(item))]
      + (if tracker.Some? then [("tracker", StrValue(tracker.value))] else [])
      + (if revealed.Some? then [("revealed", BoolValue(revealed.value))] else [])
    }
  }

  /**
   * SaveItem(loc, item, worlds), reading the location's id from the key
   * `idKey` of its entry. A key that is missing, or that holds anything other
   * than an integer, is reported as a KeyError for `idKey`.
   */
  function BuildSaveItem(idKey: string, table: map<string, Locations.LocationData>, itemTable: seq<Items.ItemRow>, loc: string, item: Item, players: Players): (r: Result<SaveItem, Error>)
    ensures r.Ok? ==> (loc in table && table[loc].Get(idKey) == Some(IntValue(r.value.id))
                       && ItemString(itemTable, item, players) == Ok(r.value.item)
                       && r.value.tracker == table[loc].trackerString && r.value.revealed == table[loc].revealed)
    ensures r.Err? ==> (if loc !in table then r.error == KeyError(loc)
                        else if table[loc].Get(idKey).Some? && table[loc].Get(idKey).value.IntValue?
                        then ItemString(itemTable, item, players) == Err(r.error)
                        else r.error == KeyError(idKey))
  {
    if loc !in table then Err(KeyError(loc))
    else match table[loc].Get(idKey)
      case Some(IntValue(id)) =>
        (match ItemString(itemTable, item, players)
         case Err(e) => Err(e)
         case Ok(s) => Ok(SaveItem(id, s, table[loc].trackerString, table[loc].revealed)))
      case _ => Err(KeyError(idKey))
  }

  /**
   * SaveItem(loc, item, worlds) as written, reading loc_data["save_id"]: it
   * fails for every location, with the KeyError for the location's name when
   * it is not in the table and the KeyError for "save_id" when it is.
   */
  function SaveItemAsWritten(table: map<string, Locations.LocationData>, itemTable: seq<Items.ItemRow>, loc: string, item: Item, players: Players): (r: Result<SaveItem, Error>)
    ensures r == Err(KeyError(if loc in table then "save_id" else loc))
  {
    if loc in table then Locations.NoSaveIdKey(table[loc]); BuildSaveItem("save_id", table, itemTable, loc, item, players)
    else BuildSaveItem("save_id", table, itemTable, loc, item, players)
  }

  /**
   * SaveItem(loc, item, worlds) reading the location's id from loc_data["id"]:
   * the record carries the location's id, the item string and the entry's
   * optional tracker string and revealed flag.
   */
  function NewSaveItem(table: map<string, Locations.LocationData>, itemTable: seq<Items.ItemRow>, loc: string, item: Item, players: Players): (r: Result<SaveItem, Error>)
    ensures r.Ok? <==> loc in table && ItemString(itemTable, item, players).Ok?
    ensures r.Ok? ==> r.value.id == table[loc].id && r.value.item == ItemString(itemTable, item, players).value
    ensures r.Ok? ==> r.value.tracker == table[loc].trackerString && r.value.revealed == table[loc].revealed
    ensures r.Err? ==> r.error == if loc !in table then KeyError(loc) else ItemString(itemTable, item, players).error
  {
    BuildSaveItem("id", table, itemTable, loc, item, players)
  }

  /** The attributes written to the save: those whose name does not start with "_", in order. */
  function PublicAttributes(attrs: seq<(string, Value)>): (kept: seq<(string, Value)>)
    requires forall p | p in attrs :: |p.0| > 0
    ensures forall p | p in kept :: p in attrs && p.0[0] != '_'
    ensures forall p | p in attrs && p.0[0] != '_' :: p in kept
    ensures |kept| <= |attrs|
  {
    if |attrs| == 0 then []
    else
      var rest := PublicAttributes(attrs[1..]);
      if attrs[0].0[0] == '_' then rest else [attrs[0]] + rest
  }

  /** Without attributes starting with "_", every attribute is kept, in order. */
  lemma {:induction false} PublicAttributesKeepAll(attrs: seq<(string, Value)>)
    requires forall p | p in attrs :: |p.0| > 0 && p.0[0] != '_'
    ensures PublicAttributes(attrs) == attrs
  {
    if |attrs| > 0 {
      PublicAttributesKeepAll(attrs[1..]);
    }
  }

  /**
   * The record save writes for a SaveItem: its public attributes, which are
   * all its attributes, since none of their names starts with "_".
   */
  function Record(it: SaveItem): (rec: seq<(string, Value)>)
    ensures rec == it.Vars()
  {
    PublicAttributesKeepAll(it.Vars());
    PublicAttributes(it.Vars())
  }

  /** The save files of one player: the base of the file path and the records indexed by id. */
  datatype SaveFiles = SaveFiles(base: string, saveItems: map<int, SaveItem>)

  /** The records paired with their ids. */
  function IdPairs(items: seq<SaveItem>): (pairs: seq<(int, SaveItem)>)
    ensures |pairs| == |items|
    ensures forall i | 0 <= i < |items| :: pairs[i] == (items[i].id, items[i])
  {
    seq(|items|, i requires 0 <= i < |items| => (items[i].id, items[i]))
  }

  /** SaveFiles(base, save_items): the records indexed by their ids. */
  function NewSaveFiles(base: string, items: seq<SaveItem>): (files: SaveFiles)
    ensures files.base == base
    ensures files.saveItems.Keys == set i | 0 <= i < |items| :: items[i].id
  {
    var pairs := IdPairs(items);
    assert (set i | 0 <= i < |pairs| :: pairs[i].0) == set i | 0 <= i < |items| :: items[i].id;
    SaveFiles(base, Dicts.FromPairs(pairs))
  }

  /** A record is indexed under its id unless a later record has the same id. */
  lemma SaveFilesLaterRecordWins(base: string, items: seq<SaveItem>, i: nat)
    requires i < |items|
    requires forall j | i < j < |items| :: items[j].id != items[i].id
    ensures NewSaveFiles(base, items).saveItems[items[i].id] == items[i]
  {
    Dicts.FromPairsLastWins(IdPairs(items), i);
  }

  /**
   * The records save writes for `ids`, in order; the KeyError of the first id
   * that has no record.
   */
  function Emitted(saveItems: map<int, SaveItem>, ids: seq<int>): (r: Result<seq<seq<(string, Value)>>, Error>)
    ensures r.Ok? <==> forall k | 0 <= k < |ids| :: ids[k] in saveItems
    ensures r.Ok? ==> |r.value| == |ids| && forall k | 0 <= k < |ids| :: r.value[k] == Record(saveItems[ids[k]])
    ensures r.Err? ==> exists k | 0 <= k < |ids| ::
      ids[k] !in saveItems && r.error == IdKeyError(ids[k]) && forall j | 0 <= j < k :: ids[j] in saveItems
  {
    if |ids| == 0 then Ok([])
    else if ids[0] !in saveItems then Err(IdKeyError(ids[0]))
    else
      var rest := Emitted(saveItems, ids[1..]);
      assert forall k | 1 <= k < |ids| :: ids[k] == ids[1..][k - 1];
      match rest
      case Err(e) => Err(e)
      case Ok(records) => Ok([Record(saveItems[ids[0]])] + records)
  }

  /** The save document, reduced to its list of randomizer records (vh_save["_global"]["randomizer"]). */
  datatype SaveDocument = SaveDocument(randomizer: seq<seq<(string, Value)>>)

  /** The template vh_save, whose randomizer list is empty. */
  const VhSave: SaveDocument := SaveDocument([])

  /** The document save writes: the template with one record appended per id of `order`. */
  function SavedDocument(files: SaveFiles, order: seq<int>): (r: Result<SaveDocument, Error>)
    ensures r.Ok? <==> forall k | 0 <= k < |order| :: order[k] in files.saveItems
    ensures r.Ok? ==> |r.value.randomizer| == |order|
    ensures r.Ok? ==> forall k | 0 <= k < |order| :: r.value.randomizer[k] == Record(files.saveItems[order[k]])
    ensures r.Err? ==> exists k | 0 <= k < |order| ::
        order[k] !in files.saveItems && r.error == IdKeyError(order[k]) && forall j | 0 <= j < k :: order[j] in files.saveItems
  {
    match Emitted(files.saveItems, order)
    case Err(e) => Err(e)
    case Ok(records) =>
      assert VhSave.randomizer + records == records;
      Ok(SaveDocument(VhSave.randomizer + records))
  }

  /**
   * SaveFiles.save: copy the template, then append the record of each id of
   * `order` in turn. The template itself is left as it was.
   */
  method Save(files: SaveFiles) returns (r: Result<SaveDocument, Error>)
    ensures r == SavedDocument(files, Order)
  {
    r := SaveInOrder(files, Order);
  }

  /** The loop of SaveFiles.save over the location ids `order`. */
  method SaveInOrder(files: SaveFiles, order: seq<int>) returns (r: Result<SaveDocument, Error>)
    ensures r == SavedDocument(files, order)
  {
    var randomizer := VhSave.randomizer;
    for k := 0 to |order|
      invariant |randomizer| == k
      invariant forall j | 0 <= j < k :: order[j] in files.saveItems && randomizer[j] == Record(files.saveItems[order[j]])
    {
      var id := order[k];
      if id !in files.saveItems {
        ghost var e := Emitted(files.saveItems, order);
        assert e.Err? by {
          assert order[k] !in files.saveItems;
        }
        ghost var k' :| 0 <= k' < |order| && order[k'] !in files.saveItems && e.error == IdKeyError(order[k'])
          && forall j | 0 <= j < k' :: order[j] in files.saveItems;
        assert k' == k;
        return Err(IdKeyError(id));
      }
      randomizer := randomizer + [Record(files.saveItems[id])];
    }
    ghost var e := Emitted(files.saveItems, order);
    assert e.Ok? && e.value == randomizer;
    assert VhSave.randomizer + randomizer == randomizer;
    return Ok(SaveDocument(randomizer));
  }

  /** The ids of the game's locations, in the order the save lists their records. */
  const Order: seq<int> := [
    21042450, 21042661, 55185998, 56689309, 57084164, 54007097, 54857324, 55185973, 30212240, 30217074,
    38469887, 38469941, 38470259, 38470383, 38470932, 38469896, 43910361, 43910358, 43910364, 43910355,
    43910349, 43910346, 43910161, 43910352, 45679083, 21761617, 53281572, 56691154, 48170179, 30216840,
    25628609, 55771370, 48892285, 48892094, 48892283, 48892281, 21042789, 21173193, 54857276, 21825866,
    27592999, 53281548, 26481086, 38472445, 28705266, 57085255, 57085246, 26284861, 56099584, 45351409,
    25104987, 55185814, 21108767, 56098915, 21042729, 21172921, 45351379, 21172926, 21761301, 21958374,
    21825455, 46928212, 44042632, 53281476, 53281471, 30544446, 31987048, 54007074, 26481036, 26284437,
    55185744, 55185740, 38666800, 52103026, 25628632, 25628637, 38472470, 52953351, 28445582, 56885316,
    39454067, 54857259, 21108771, 47251676, 26481041, 30544450, 21042135, 21041407, 21172735, 21173226,
    23989298, 23988666, 23988671, 24840039, 24840041, 25628848, 25628865, 38472003, 38472598, 38472624,
    56690172, 56691137, 48433763, 48433802, 37424285, 37424029, 31983859, 31987188, 31987185, 48169307,
    48170870, 48170941, 27592975, 27592971, 27592983, 30216747, 30216750, 30216968, 30216951, 30216992,
    30217006, 25105120, 21958797, 21958795, 21958813, 21958834, 21958863, 21957122, 26284092, 31987079,
    26284095, 23396960, 26480910, 25105162, 28446220, 28445943, 28445932, 50727459, 48892757, 54528363,
    47251961, 54329447, 55185471, 55185986, 55185140, 55185856, 21172508, 21761516, 26284950, 43910274,
    43910016, 28705196, 53281416, 48892764, 30544501, 30217093, 21108214, 36899447, 24973035, 52103074,
    57085027, 30544307, 45351467, 45220046, 44105819, 22872105, 21108710, 21042679, 21040985, 21108621,
    36766403, 36766387, 21042801, 21173121, 23987316, 36898607, 21761097, 21758395, 21760842, 21957403,
    21957816, 23397003, 23396866, 21825342, 26284713, 27657424, 23987363, 54857284, 55185217, 55185735,
    55185823, 45679114, 45679446, 28705041, 52103039, 24838662, 24839105, 21042438, 50727469, 55771787,
    52563019, 25627242, 25626797, 25628685, 25627136, 25628823, 38472500, 38471745, 38470609, 28445810,
    56689807, 56688830, 56691064, 57084663, 48891952, 57084973, 57085342, 54528431, 48431629, 48170957,
    26481085, 54006765, 54005874, 43910175, 26480930, 31983991, 31985568, 31982433, 31986809, 37424461,
    30544191, 30544153, 30544255, 30544389, 27790467, 27592682, 27592231, 44042001, 44040524, 44041093,
    47251672, 25756550, 41289047, 41288903, 21761425, 21761465, 21761423, 21761363
  ]

  /** The order lists 248 ids. */
  lemma OrderCount()
    ensures |Order| == 248
  {
  }
}
