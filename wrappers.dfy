/** The optional-value datatype shared by the other modules. */
module Wrappers {

  /** A value that may be absent: JavaScript's `null` where the source uses it for "nothing". */
  datatype Option<+T> = None | Some(value: T)
}
