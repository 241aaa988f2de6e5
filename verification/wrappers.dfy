/** Failure-compatible option type shared by every matcher in the model. */
module Wrappers {

  datatype Option<+T> = None | Some(value: T)
}
