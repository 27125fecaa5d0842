/** The usual optional-value datatype, used for Kotlin's nullable values. */
module Wrappers {
  datatype Option<+T> = None | Some(value: T)
}
