/** Python's `None`-or-value results, as an option type. */
module Wrappers {
  datatype Option<+T> = None | Some(value: T)
}
