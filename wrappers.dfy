/** The optional value used where the tracker's helpers may produce nothing. */
module Wrappers {

  datatype Option<+T> = None | Some(value: T)
}
