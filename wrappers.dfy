/** Small helper datatypes shared by the other modules. */
module Wrappers {

  /** A value that may be missing, like Python's `None` for an unset attribute. */
  datatype Option<+T> = None | Some(value: T)
}
