/** An optional value: the instance found, the first missing variable, or the error a request got, if any. */
module Wrappers {
  datatype Option<+T> = None | Some(value: T)
}
