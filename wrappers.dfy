/** Absence of a value: Ruby's `nil` for an optional association or setting. */
module Wrappers {

  datatype Option<+T> = None | Some(value: T)
}
