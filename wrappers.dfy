/** A value that may be missing, for nullable references of the original program. */
module Wrappers {
  datatype Option<T> = None | Some(value: T)
}
