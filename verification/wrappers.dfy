/** The optional-value datatype used for lookups that may fail. */
module Wrappers {

  datatype Option<+T> = None | Some(value: T)
}
