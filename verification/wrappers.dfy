/** The optional value used for an absent session slot, an empty `fetchone()`
    and an unrecognised conversion type. */
module Wrappers {

  datatype Option<+T> = None | Some(value: T)
}
