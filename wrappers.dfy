/** Small helper datatypes shared by the other modules. */
module Wrappers {

  /** A value that may be absent: a JavaScript `null` lookup result, for instance. */
  datatype Option<+T> = None | Some(value: T)
}
