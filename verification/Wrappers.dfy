/** Small wrappers used throughout. */
module Wrappers {
  datatype Option<+T> = None | Some(value: T)
}
