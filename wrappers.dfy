// Small shared helpers used by every component of the model.
module Wrappers {
  /** A value that may be absent: C's NULL pointer, Python's None. */
  datatype Option<T> = None | Some(value: T)
}
