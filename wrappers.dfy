/** The optional value used throughout: `None` plays the part of a missing
    value (a pandas NaN in a column, an absent key in a lookup). */
module Wrappers {

  datatype Option<+T> = None | Some(value: T)
}
