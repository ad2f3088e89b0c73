/** Option stands in for Go's nil-able pointers and for a nil or non-nil `error`. */
module Wrappers {

  datatype Option<+T> = None | Some(value: T)
}
