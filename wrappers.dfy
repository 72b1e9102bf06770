/** The optional value shared by the other modules: JavaScript's `null` or a value. */
module Wrappers {
  datatype Option<T> = None | Some(value: T)
}
