/** The optional-value datatype used by the search and chaining functions. */
module Wrappers {

  datatype Option<+T> = None | Some(value: T)
}
