/** The optional-value datatype the parsers and code tables return. */
module Wrappers {

  datatype Option<+T> = None | Some(value: T)
}
