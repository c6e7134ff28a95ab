// The usual optional value; it stands for Go's nil pointers and `v, ok` results.
module Wrappers {
  datatype Option<+T> = None | Some(value: T)
}
