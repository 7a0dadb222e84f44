// A value that may be absent.

module Optionals {

  datatype Option<T> = None | Some(value: T)
}
