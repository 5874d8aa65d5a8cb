/** The optional-value datatype used for outcomes that may be missing. */
module Wrappers {
  datatype Option<+T> = None | Some(value: T)
}
