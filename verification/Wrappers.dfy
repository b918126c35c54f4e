/** The optional value used throughout the model: a nullable column, a missing row, no error. */
module Wrappers {
  datatype Option<+T> = None | Some(value: T)
}
