module Wrappers {
  /** A value that may be absent, as in the contract's optional fields and results. */
  datatype Option<+T> = None | Some(value: T)
}
