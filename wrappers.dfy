/** The optional value used wherever the source has a nullable field or result. */
module Wrappers {

  datatype Option<+T> = None | Some(value: T)
}
