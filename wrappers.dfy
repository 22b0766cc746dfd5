/** The optional value used wherever the source has a nullable reference or a
    component lookup that may find nothing. */
module Wrappers {
  datatype Option<+T> = None | Some(value: T)
}
