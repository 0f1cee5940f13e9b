/** The optional value used for the loaded descriptor, raised errors and the last hit result. */
module Wrappers {
  datatype Option<+T> = None | Some(value: T)
}
