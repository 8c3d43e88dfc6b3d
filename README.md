# Yoku's Island Express world, modelled in Dafny

This project models the table-driven bookkeeping of the Yoku's Island Express
world of the Archipelago multiworld randomizer (`worlds/yoku`) and proves
properties of it:

- **Locations** (`locations.dfy`, `worlds/yoku/Locations.py`). It covers:
  - `location_table`, entry by entry: id, tracker, region, and the optional tracker string and revealed flag;
  - `region_locations`;
  - the per-region attributes of class `YokuLocations`;
  - the event flag of `YokuLocation`.
- **Items** (`items.dfy`, `worlds/yoku/Items.py`). It covers:
  - the `ItemName` string enum, including its two aliases. An attribute that repeats an earlier value names the earlier member.
  - `ItemData`;
  - `item_table`, as 48 rows in declaration order;
  - `item_table[k]`;
  - `ItemName(value)`;
  - the first-match search `from_yoku_id`;
  - `yoku_ids`.
- **World** (`world.dfy`, `worlds/yoku/__init__.py`). It covers:
  - `item_name_to_id`, `location_name_to_id` and `item_name_groups`;
  - `create_item` and its classification;
  - `create_items`, as a method of class `YokuWorld` that appends to the pool of a `MultiWorld` object;
  - the completion condition installed by `set_rules`;
  - `generate_output`, as nested loops that gather one save record per recorded location and then write the save.
- **Save file** (`savefile.dfy`, `worlds/yoku/SaveFile.py`). It covers:
  - the record built by `SaveItem`, with the item string of an own item and of a foreign item;
  - `vars(record)`;
  - `SaveFiles`, which indexes records by id;
  - the loop of `SaveFiles.save`, which appends the public attributes of each record in the game's fixed `order`.

Supporting modules:

- `wrappers.dfy` holds `Option` and `Result`.
- `runtime.dfy` holds the Python exceptions the code raises and the scalar values of its dicts.
- `dicts.dfy` holds the semantics of a dict display or comprehension, in which a later key replaces an earlier one.
- `baseclasses.dfy` holds the framework's item, location, region and collection-state types, reduced to their data.

A Python exception is an `Err` of the modelled `Result`:

- a missing key is a `KeyError`;
- `ItemName(v)` of an unknown value is a `ValueError`;
- a failed `assert` is an `AssertionError`.

The tables are literal data and are written out in full: 48 item rows, 248 location entries, 187 region attributes and the 248 ids of `order`. Class `ItemData` is the datatype `Items.ItemData`, whose five fields are the five arguments of its constructor.

## Model

| member | source | states |
|---|---|---|
| Locations.NewYokuLocation | worlds/yoku/Locations.py:16-25 | a new location holds no item and is an event exactly when its code is None |
| Locations.LocationData.Get | worlds/yoku/Locations.py:28-275 | an entry has the keys "id", "tracker" and "region", and "tracker_string" / "revealed" only where given; a lookup succeeds exactly for those keys |
| Locations.LocationEntriesCount | worlds/yoku/Locations.py:27-276 | location_table lists 248 entries |
| Locations.LocationTable | worlds/yoku/Locations.py:27-276 | the table's names are the names written, at most 248, and each maps to an entry written under it |
| Locations.NoSaveIdKey | worlds/yoku/Locations.py:28-275 | no entry of the location table has a "save_id" key |
| Locations.RegionLocations | worlds/yoku/Locations.py:278-279 | region_locations(r) holds a location exactly when its entry's region is r, mapped to the entry's id |
| Locations.RegionLocationsDisjoint | worlds/yoku/Locations.py:278-279 | two different regions have disjoint location sets |
| Locations.RegionLocationsCover | worlds/yoku/Locations.py:278-279 | every location of the table is in the map of its own region, with its id |
| Locations.RegionLocationsUnused | worlds/yoku/Locations.py:278-279 | a region no entry names has the empty map |
| Locations.YokuLocationsRegionsCount | worlds/yoku/Locations.py:281-468 | class YokuLocations defines 187 region attributes |
| Locations.YokuLocationsAttribute | worlds/yoku/Locations.py:281-468 | an attribute exists exactly for "locations_" followed by a listed region, and holds that region's locations |
| Locations.YokuLocationsAttributeOfRegion | worlds/yoku/Locations.py:281-468 | locations_X is region_locations("X") for every listed region X |
| Locations.YokuLocationsOtherAttribute | worlds/yoku/Locations.py:281-468 | a name not starting with "locations_" is no region attribute |
| Items.FirstWith | worlds/yoku/Items.py:76-129 | the search for a value finds an element with that value, and fails exactly when no element has it |
| Items.FirstWithAt | worlds/yoku/Items.py:76-129 | the search stops at the first element with the value |
| Items.ByValue | worlds/yoku/Items.py:76-129 | ItemName(v), the first member in declaration order with value v, is a member whose value is v |
| Items.ByValueNoneIff | worlds/yoku/Items.py:76-129 | ItemName(v) raises ValueError exactly when no member has value v |
| Items.NotAValue | worlds/yoku/Items.py:76-129 | a string outside the member values names no member |
| Items.Member | worlds/yoku/Items.py:76-129 | ItemName.attr exists for every declared attribute, and is the member whose value is the attribute's declared value |
| Items.MemberPositions | worlds/yoku/Items.py:76-129 | the 48 members are listed once each, in declaration order |
| Items.ValuesDistinct | worlds/yoku/Items.py:76-129 | no two members share a value |
| Items.ValueRoundTrip | worlds/yoku/Items.py:76-129 | ItemName(k.value) is k for every member k |
| Items.ValueInjective | worlds/yoku/Items.py:76-129 | two members have the same value exactly when they are the same member |
| Items.SlugUpgradeIsAlias | worlds/yoku/Items.py:85-86 | AbilitiesSlugUpgrade and AbilitiesSlugVacuum are the same member |
| Items.Skvader2IsAlias | worlds/yoku/Items.py:102-103 | PowerupsSkvader2 and PowerupsSkvader1 are the same member |
| Items.Lookup | worlds/yoku/Items.py:142-192 | item_table[k] succeeds exactly when some row is for k, and gives that row's data |
| Items.LookupRow | worlds/yoku/Items.py:142-192 | with one row per key, looking up a row's key gives that row's data |
| Items.LookupAppend | worlds/yoku/Items.py:142-192 | looking up in two tables joined searches the first one first |
| Items.ItemTableRowPositions | worlds/yoku/Items.py:142-192 | item_table has 48 rows, one per member, in declaration order |
| Items.ItemTableKeysDistinct | worlds/yoku/Items.py:142-192 | no member has two rows |
| Items.RowOfMember | worlds/yoku/Items.py:142-192 | in a table with one row per member at the member's position, the lookup finds that row |
| Items.EveryItemHasData | worlds/yoku/Items.py:142-192 | every member has data in item_table, in the row at its position |
| Items.ItemTableRowShape | worlds/yoku/Items.py:144-191 | every row has a positive count and at least one game id |
| Items.ItemTableYokuIdsDisjoint | worlds/yoku/Items.py:144-191 | no game id is listed by two rows |
| Items.FirstOwner | worlds/yoku/Items.py:131-135 | the first row in table order listing s, and None exactly when no row lists s |
| Items.FromYokuId | worlds/yoku/Items.py:131-135 | from_yoku_id's loop returns the first row's member that lists s, or None |
| Items.FirstOwnerOfRow | worlds/yoku/Items.py:131-135 | when no game id is shared, the row listing s is the one found |
| Items.YokuIds | worlds/yoku/Items.py:137-138 | yoku_ids(k) is item_table[k].yoku_ids, and fails exactly when k has no row |
| Items.EveryItemHasYokuIds | worlds/yoku/Items.py:137-138 | every member has a non-empty list of game ids |
| Items.YokuIdRoundTrip | worlds/yoku/Items.py:131-138 | each game id of member k leads back to k through from_yoku_id |
| Dicts.FromPairsLastWins | worlds/yoku/SaveFile.py:31 | a dict built from pairs maps a key to its last pair's value |
| Dicts.FromPairsDistinct | worlds/yoku/__init__.py:56-57 | with distinct keys, the dict maps every key to its own value and has one entry per pair |
| SaveFile.ItemString | worlds/yoku/SaveFile.py:16-19 | an own item becomes the first game id of its row (item_table[k].yoku_ids[0]), or ValueError for an unknown name; a foreign item becomes "amwr/" followed by name, owner and game separated by U+001E, which split back into those three fields; a player missing from the tables fails |
| SaveFile.OwnItemString | worlds/yoku/SaveFile.py:16-17 | with item_table, an own item has a string exactly when its name is a member value, and from_yoku_id of that string gives the member back |
| SaveFile.SaveItem.Vars | worlds/yoku/SaveFile.py:13-23 | one pair per assigned attribute, no name twice, in assignment order: id and item, then tracker and then revealed exactly when they were set, with their values |
| SaveFile.SaveItemAsWritten | worlds/yoku/SaveFile.py:13-15 | as written, the record fails for every location: KeyError for the name when it is missing, and KeyError "save_id" otherwise |
| SaveFile.NewSaveItem | worlds/yoku/SaveFile.py:13-23 | reading "id", the record succeeds exactly when the location is in the table and the item has a string; it carries the entry's id, the item string, and the tracker string and revealed flag where present; otherwise it fails with the first error |
| SaveFile.PublicAttributes | worlds/yoku/SaveFile.py:38 | keeps exactly the attributes whose name does not start with "_" |
| SaveFile.PublicAttributesKeepAll | worlds/yoku/SaveFile.py:38 | without such attributes, every attribute is kept, in order |
| SaveFile.BuildSaveItem | worlds/yoku/SaveFile.py:13-23 | a record carries the integer id under the given key of the location's entry, the item's string, and the entry's tracker string and revealed flag; it fails with KeyError for a missing location, then with the item string's error, and with KeyError for the key when the entry has no integer under it |
| SaveFile.Record | worlds/yoku/SaveFile.py:38 | the record written for a SaveItem is all of vars(record), in order |
| SaveFile.NewSaveFiles | worlds/yoku/SaveFile.py:29-31 | the records are indexed by exactly the ids they carry |
| SaveFile.SaveFilesLaterRecordWins | worlds/yoku/SaveFile.py:31 | a record is kept under its id unless a later record has the same id |
| SaveFile.SavedDocument | worlds/yoku/SaveFile.py:36-38 | the save is written exactly when every id of the order has a record; its randomizer list then holds one record per id, in order; otherwise it fails with the KeyError of the first id without a record |
| SaveFile.Emitted | worlds/yoku/SaveFile.py:37-38 | one record per id of the order, in order, exactly when every id has a record; otherwise a KeyError for the first missing id |
| SaveFile.SaveInOrder | worlds/yoku/SaveFile.py:36-38 | the loop over the order builds the template's empty randomizer list plus the emitted records, or stops at the first missing id |
| SaveFile.Save | worlds/yoku/SaveFile.py:33-38 | save writes the records in the game's fixed order |
| SaveFile.OrderCount | worlds/yoku/SaveFile.py:76-99 | the order lists 248 ids |
| World.NameIdPairs | worlds/yoku/__init__.py:56-57 | the (value, id) pair of each row, in order |
| World.ItemNameToId | worlds/yoku/__init__.py:56-57 | item_name_to_id's keys are the values of the table's members |
| World.ItemNameToIdRows | worlds/yoku/__init__.py:56-57 | with one row per member, every name maps to its row's id and no entry is lost |
| World.ItemNameToIdOfItemTable | worlds/yoku/__init__.py:56-57 | item_name_to_id has 48 entries and maps each member's value to its id in item_table |
| World.LocationNameToId | worlds/yoku/__init__.py:66 | location_name_to_id has one key per table location, mapped to its entry's "id" |
| World.RegionLocationsPartitionNameToId | worlds/yoku/__init__.py:66 | each region's map is part of location_name_to_id, and each location is found with its id in its own region's map |
| World.GroupAsWrittenNamesNoItem | worlds/yoku/__init__.py:60-63 | the group "Movement" as written lists "Slug Vacuum", which names no item |
| World.GroupNamesAreValues | worlds/yoku/__init__.py:60-63 | with the intended name, every grouped name is a member value |
| World.MemberValueIsName | worlds/yoku/__init__.py:56-57 | every member value is a key of item_name_to_id |
| World.GroupsNameItems | worlds/yoku/__init__.py:60-63 | with the intended name, every grouped name is an item name of the world |
| World.Classification | worlds/yoku/__init__.py:102-106 | JUNK gives filler, PROGRESSION gives progression, NORMAL gives useful, each in both directions |
| World.CreateItem | worlds/yoku/__init__.py:95-111 | succeeds exactly when the name has a row, and gives an item of this world with the name's value, the row's id, the player and the classification of its type; otherwise the exception "The item <name> is not valid." |
| World.CreatedItemCodeMatchesNameToId | worlds/yoku/__init__.py:95-111 | a created item carries the id item_name_to_id gives its name |
| World.PoolOf | worlds/yoku/__init__.py:115-118 | every item of the pool is the item create_item makes for one of the rows |
| World.PoolSize | worlds/yoku/__init__.py:113-118 | the pool of a table holds the sum of its counts |
| World.PoolOfAppend | worlds/yoku/__init__.py:115-118 | the pool of two tables joined is the first pool followed by the second |
| World.PoolBlock | worlds/yoku/__init__.py:115-118 | the copies of row i are contiguous, right after those of the rows before it |
| World.PoolCount | worlds/yoku/__init__.py:113-118 | with one row per member, each name occurs exactly its row's count times |
| World.TotalCopiesOfItemTable | worlds/yoku/Items.py:144-191 | the counts of item_table add up to 248 |
| World.ItemPool | worlds/yoku/__init__.py:113-118 | the world's pool holds 248 items, and each name occurs exactly as often as its row's count, which is positive |
| World.CompletionCondition | worlds/yoku/__init__.py:125-126 | the game is complete for the player exactly when the state holds their "Victory" item |
| World.RegionsOf | worlds/yoku/__init__.py:140 | the player's regions are exactly the regions of that player |
| World.RecordedInMembers | worlds/yoku/__init__.py:141-142 | the locations recorded from a region are exactly its YokuLocations named in the table |
| World.RecordedLocationsMembers | worlds/yoku/__init__.py:140-142 | every recorded location is a YokuLocation in the table, and every such location of every region is recorded |
| World.RecordStepOf | worlds/yoku/__init__.py:142-144 | a recorded location without an item fails the assert; with one, its record is SaveItem(loc.name, loc.item) |
| World.RecordMade | worlds/yoku/__init__.py:142-144 | a record made for a location carries its entry's id, tracker string and revealed flag and its item's string |
| World.Collect | worlds/yoku/__init__.py:139-144 | a successful gathering holds one record per location (World.CollectOk states which record) |
| World.CollectOk | worlds/yoku/__init__.py:139-144 | the records are gathered exactly when every location's record can be made, one per location, in order |
| World.CollectErr | worlds/yoku/__init__.py:139-144 | a failed gathering fails as the first location whose record cannot be made |
| World.CollectStopsAtFailure | worlds/yoku/__init__.py:139-144 | locations after a failure are not looked at |
| World.GenerateOutputAsWrittenFails | worlds/yoku/__init__.py:139-144 | as written, with any recorded location, generate_output fails at the first one: AssertionError without an item, KeyError "save_id" with one |
| World.CollectedRecord | worlds/yoku/__init__.py:139-144 | the i-th gathered record carries the id, tracker string and revealed flag of the i-th recorded location's entry, and its item's string |
| World.Output | worlds/yoku/__init__.py:146-148 | a failed gathering is the failure of the output; a written save holds one record per id of the order |
| World.OutputWrittenIff | worlds/yoku/__init__.py:146-148 | once gathered, the save is written exactly when every id of the order is the id of some record |
| World.OutputRecordAt | worlds/yoku/__init__.py:146-148 | the k-th written record is that of the last record carrying the k-th id of the order |
| World.LastWithId | worlds/yoku/SaveFile.py:31 | the position of the last record with a given id |
| World.YokuWorld.CreateItems | worlds/yoku/__init__.py:113-118 | the pool grows by the copies of every row's item, in table order; the rest of the multiworld is unchanged |
| World.YokuWorld.AddRows | worlds/yoku/__init__.py:115-118 | the outer loop appends the pool of the rows to the earlier pool |
| World.YokuWorld.AddCopies | worlds/yoku/__init__.py:116-118 | the inner loop appends count copies of the item create_item makes for the row |
| World.YokuWorld.SetRules | worlds/yoku/__init__.py:120-126 | the player's completion condition becomes "holds Victory"; nothing else changes |
| World.YokuWorld.RecordLocation | worlds/yoku/__init__.py:142-144 | the loop body: the assert on the item, then SaveItem with the id read from "id" |
| World.YokuWorld.CollectRegion | worlds/yoku/__init__.py:141-144 | the inner loop gathers the records of one region's recorded locations after the earlier ones, or stops at the first failure |
| World.YokuWorld.CollectSaveItems | worlds/yoku/__init__.py:139-144 | the outer loop gathers the records of all recorded locations of the player's regions, in order |
| World.YokuWorld.GenerateOutput | worlds/yoku/__init__.py:137-148 | generate_output indexes the gathered records by id and writes them in the game's order, or fails with the loop's error |

## Left out

- Writing the zip archive and the JSON document is left out. So are the `vh_trail` and `vh_map` byte blobs, the scalar fields of the `vh_save` template and the numeric "tracker" fields' meaning (worlds/yoku/SaveFile.py:34-46, 48-74, 101-115). These are file I/O and opaque data. The saved document is modelled only as its `randomizer` list.
- `SaveFiles.save` works on a deep copy, so the template's list stays empty. The model keeps the template as an immutable value, so sharing between calls cannot arise.
- The Archipelago framework classes (`World`, `MultiWorld`, `Item`, `Location`, `Region`, `CollectionState`, `ItemClassification`) are not part of this model. They are reduced to the data the world reads and writes. `ItemClassification` is reduced to the three flags used here.
- The completion condition is modelled as a function value. The framework's evaluation of it is not modelled.
- Web pages, the tutorial and options are left out because they hold no logic: `YokusWeb` (worlds/yoku/__init__.py:18-35), worlds/yoku/Options.py and the empty test base.
- `create_regions`, `YokuRegions` and the region graph, rules and reachability are not part of this model: their source (`worlds/yoku/Regions.py`) is not available. The regions of the multiworld are therefore an input of `World.MultiWorld`.
- `generate_basic` and `fill_slot_data` are left out: they do nothing.
- `get_out_file_name_base` and `os.path.join` are left out. The file base is the parameter `base` of `World.YokuWorld.GenerateOutput`.
- World.YokuWorld.GenerateOutput takes `location_table` and `item_table` as the parameters `table` and `itemTable`. Its lemmas state facts for any table, and facts about item_table where they need its contents.
- Locations.LocationTable: the table lists 248 entries, but that their 248 names are distinct, and so that the map has 248 keys, is not proved. It would take about 30,000 pairwise comparisons of literal strings, beyond the verifier's resource limit. The generic lemmas hold for any table.
- SaveFile.OrderCount: that the 248 ids of `order` are exactly the ids of `location_table` is not proved.
- Locations.YokuLocationsRegionsCount: that the 187 regions listed by class `YokuLocations` are exactly the regions used by the table is not proved. Each attribute is stated in terms of whatever table is given.
- Locations.RegionLocations: Python dicts keep insertion order; the per-region and name-to-id maps are modelled as unordered maps.
- SaveFile.BuildSaveItem: an id key holding anything other than an integer is reported as the KeyError for that key. In the table every "id" is an integer.
- World.CreateItem: the argument is modelled as an `ItemName` member, as the signature at worlds/yoku/__init__.py:95 declares. A plain string, which a caller typed against the framework's `create_item(name: str)` could pass, is not modelled: for it `name.value` raises AttributeError (worlds/yoku/__init__.py:107 and 109) and the "not valid" message is never built. Over item_table every member has a row (Items.EveryItemHasData), so the "not valid" exception cannot occur there; the model's Err branch is reached only for a table that lacks the member's row.
- Items.Lookup: an item table is a sequence of rows, and a lookup reads the first row for a member; a Python dict keeps the last value written for a key. The two agree when a table has one row per member, as item_table has (Items.ItemTableKeysDistinct). SaveFile.ItemString, World.CreateItem and World.YokuWorld.GenerateOutput accept any table, and for a table with a repeated member they read the first row where Python would read the last.
- SaveFile.ItemString: the foreign item string is proved to split back into its three fields only when none of them contains U+001E.
- `item_name_groups` is modelled only as data, together with its one name that is not an item (see Findings).

## Findings

| source | as written | input that shows it | evidently intended | confidence | as-written member | corrected member |
|---|---|---|---|---|---|---|
| worlds/yoku/SaveFile.py:15 | `SaveItem.__init__` reads `loc_data["save_id"]`, but no entry of `location_table` (worlds/yoku/Locations.py:28-275) has that key | any recorded location, e.g. "Wl. 80: Behind Screech" holding an item: KeyError "save_id", so `generate_output` never writes a save | read `loc_data["id"]`, the id that `location_name_to_id` and `order` use | high; not executed | SaveFile.SaveItemAsWritten, World.GenerateOutputAsWrittenFails | SaveFile.NewSaveItem, World.YokuWorld.GenerateOutput |
| worlds/yoku/__init__.py:60-63 | the group "Movement" lists "Slug Vacuum" | "Slug Vacuum" is the value of no `ItemName` member, so it is not in `item_name_to_id` | "Progressive Slug Vacuum", the value of `AbilitiesSlugVacuum` | medium; not executed | World.GroupAsWrittenNamesNoItem | World.GroupsNameItems |
