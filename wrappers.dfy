/** The optional value shared by the Go and the Python parts of the model. */
module Wrappers {

  datatype Option<+T> = None | Some(value: T)
}
