/** The optional value used for `Option<T>` results and for the caller's origin. */
module Wrappers {

  datatype Option<+T> = None | Some(value: T)
}
