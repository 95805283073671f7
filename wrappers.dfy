/** Small failure-compatible wrapper shared by the other modules. */
module Wrappers {

  /** A value that may be absent: JavaScript's `null` reference. */
  datatype Option<+T> = None | Some(value: T)
}
