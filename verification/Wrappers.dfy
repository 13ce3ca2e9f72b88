/** A value that may be absent: Go's nil pointers and failed lookups. */
module Wrappers {
  datatype Option<+T> = None | Some(value: T)
}
