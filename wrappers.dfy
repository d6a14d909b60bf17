/** The optional value used wherever the source returns `T | undefined`. */
module Wrappers {

  datatype Option<T> = None | Some(value: T)
}
