/** An optional value: a received token, or nothing when no token arrives. */
module Wrappers {

  datatype Option<+T> = None | Some(value: T)
}
