/** The optional value used wherever the app has a nullable reference. */
module Wrappers {

  datatype Option<+T> = None | Some(value: T)
}
