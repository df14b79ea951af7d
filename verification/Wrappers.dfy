/** The optional value used for Go's nil pointers and (value, ok) results. */
module Wrappers {
  datatype Option<+T> = None | Some(value: T)
}
