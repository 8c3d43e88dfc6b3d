/**
 * The few notions of the Python runtime that the modelled code relies on:
 * the exceptions it raises and the scalar values held by its dictionaries.
 */
module Runtime {

  /** An exception raised by the modelled code. */
  datatype Error =
    | KeyError(key: string)        // a missing string key of a dict
    | IdKeyError(id: int)          // a missing integer key of a dict
    | PlayerKeyError(player: int)  // a player number missing from a per-player table
    | ValueError(value: string)    // a string that is not the value of any enum member
    | IndexError                   // an index past the end of a list
    | AssertionError               // a failed `assert`
    | Exception(message: string)   // an `Exception` raised with a message

  /** A scalar value of a dict entry or of a saved record. */
  datatype Value = IntValue(i: int) | StrValue(s: string) | BoolValue(b: bool)
}
