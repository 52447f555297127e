/** A value that may be absent: an Option of the code, or a lock that does not permit a step. */
module Wrappers {
  datatype Option<+T> = None | Some(value: T)
}
