/** The optional-value datatype used for absent end dates and failed parses. */
module Wrappers {
  datatype Option<+T> = None | Some(value: T)
}
