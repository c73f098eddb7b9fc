/** A value that may be absent: a null pointer, or an enum's missing entry. */
module Wrappers {
  datatype Option<+T> = None | Some(value: T)
}
