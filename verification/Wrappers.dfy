/** The result of a call that may find nothing. */
module Wrappers {
  datatype Option<+T> = None | Some(value: T)
}
