/** A value that may be missing, shared by every module. */
module Wrappers {
  datatype Option<+T> = None | Some(value: T)
}
