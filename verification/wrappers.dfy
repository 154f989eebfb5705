/** Python's `None`-or-value, used wherever the source returns or stores an optional value. */
module Wrappers {

  datatype Option<+T> = None | Some(value: T)
}
