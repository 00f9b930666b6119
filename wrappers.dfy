/** Small failure-carrying datatype shared by both halves of the model. */
module Wrappers {

  /** A value that may be missing: a parse that yields NaN, a frame that does not decode. */
  datatype Option<+T> = None | Some(value: T)
}
