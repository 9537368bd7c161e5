/** The optional value used for JavaScript's `null` and for series entries that may be null. */
module Wrappers {
  datatype Option<+T> = None | Some(value: T)
}
