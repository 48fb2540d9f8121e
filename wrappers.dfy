/** Python's `None`-or-value, as used for sensor readings and optional locals. */
module Wrappers {

  datatype Option<+T> = None | Some(value: T)
}
