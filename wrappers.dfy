/** The optional value used for Go's nil pointers and for results that may be absent. */
module Wrappers {
  datatype Option<+T> = None | Some(value: T)
}
