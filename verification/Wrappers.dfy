/** What a lookup yields. */
module Wrappers {
  datatype Option<T> = None | Some(value: T)
}
