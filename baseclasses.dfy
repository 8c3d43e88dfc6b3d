/**
 * The parts of the multiworld framework that the Yoku world reads and writes,
 * reduced to their data. The framework's own logic is not part of this model.
 */
module BaseClasses {
  import opened Wrappers

  /** How the multiworld treats an item when placing it. */
  datatype ItemClassification = Filler | Progression | Useful

  /**
   * An item of the multiworld. `YokuItem` is the Yoku world's own item class
   * (worlds/yoku/Items.py:33-49); `OtherItem` stands for an item of any other
   * class. An item without a code is an event.
   */
  datatype Item =
    | YokuItem(name: string, classification: ItemClassification, code: Option<int>, player: int)
    | OtherItem(name: string, classification: ItemClassification, code: Option<int>, player: int)

  /**
   * A location of the multiworld and the item placed there, if any.
   * `YokuLocation` is the Yoku world's own location class
   * (worlds/yoku/Locations.py:9-25); `OtherLocation` stands for any other class.
   */
  datatype Location =
    | YokuLocation(player: int, name: string, code: Option<int>, event: bool, item: Option<Item>)
    | OtherLocation(player: int, name: string, code: Option<int>, item: Option<Item>)

  /** A region of one player's world and the locations it holds, in order. */
  datatype Region = Region(name: string, player: int, locations: seq<Location>)

  /** The items collected so far, as the number of copies of each (item name, player). */
  datatype CollectionState = CollectionState(collected: map<(string, int), nat>)
  {
    /** state.has(item, player): at least one copy has been collected. */
    predicate Has(item: string, player: int) {
      (item, player) in collected && collected[(item, player)] >= 1
    }
  }
}
