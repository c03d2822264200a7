/** The optional value shared by the other modules (JavaScript's `null`/`undefined` results). */
module Wrappers {
  datatype Option<T> = None | Some(value: T)
}
