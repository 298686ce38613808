/** The optional value used throughout the model for JavaScript's "absent". */
module Wrappers {

  datatype Option<+T> = None | Some(value: T)
}
