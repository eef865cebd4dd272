/** An optional value, used for parses and for handle-state transitions that may be illegal. */
module Wrappers {
  datatype Option<+T> = None | Some(value: T)
}
