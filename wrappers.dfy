/** Helper datatypes shared by the other modules. */
module Wrappers {

  /** A value that may be absent, as Python's `None` does for the model and for unreadable files. */
  datatype Option<+T> = None | Some(value: T)
}
