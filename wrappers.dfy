/** The optional value used wherever a platform call may come back empty. */
module Wrappers {
  datatype Option<+T> = None | Some(value: T)
}
