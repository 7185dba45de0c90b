/** A JavaScript value that may be `undefined` (or, for the file list, `null`). */
module Wrappers {

  datatype Option<+T> = None | Some(value: T)
}
