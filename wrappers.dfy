// Optional values, used wherever the engine returns a possibly-null pointer
// or an invalid id.
module Wrappers {
  datatype Option<T> = None | Some(value: T)
}
