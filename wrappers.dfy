/** Small shared failure-compatible wrapper. */
module Wrappers {
  datatype Option<+T> = None | Some(value: T)
}
