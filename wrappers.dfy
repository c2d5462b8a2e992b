/// An optional value, for computations that are undefined on some inputs.
module Wrappers {
  datatype Option<T> = None | Some(value: T)
}
