/** Small helper datatypes shared by the other modules. */
module Wrappers {

  /** A value that may be absent (a null pointer, a not-found result). */
  datatype Option<T> = None | Some(value: T)
}
