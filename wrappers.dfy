/** The Option type that stands for Go's nil-able pointers and error values. */
module Wrappers {

  datatype Option<+T> = None | Some(value: T)
}
