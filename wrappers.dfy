/** Failure-compatible helper types shared by the other modules. */
module Wrappers {

  /** An optional value: the model's stand-in for Go's `error` return (None means nil). */
  datatype Option<+T> = None | Some(value: T)
}
