/** A value that may be absent: a NULL pointer, a failed lookup. */
module Wrappers {

  datatype Option<+T> = None | Some(value: T)
}
