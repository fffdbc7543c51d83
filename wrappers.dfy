/** The optional value used for a pattern that may or may not match. */
module Wrappers {
  datatype Option<+T> = None | Some(value: T)
}
