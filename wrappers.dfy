/** Small value wrappers used throughout the model. */
module Wrappers {

  /** A value that may be missing. `None` plays the part of JavaScript's `undefined`. */
  datatype Option<+T> = None | Some(value: T)

  /** The outcome of an action that returns nothing when it succeeds and
      raises `error` when it fails (a JavaScript `throw`). */
  datatype Outcome<+E> = Pass | Fail(error: E)
}

/** Octets, as produced by Node's `Buffer`. */
module Bytes {
  type byte = b: int | 0 <= b < 256
}
