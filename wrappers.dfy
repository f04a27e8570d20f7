/** The optional value used for the parser's `Optional` results and for token links. */
module Wrappers {
  datatype Option<+T> = None | Some(value: T)
}
