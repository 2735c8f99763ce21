/** Option and Result, the two wrapper types the model uses for JavaScript's
    `null` / falsy values and for the tokenizer builder's `(err, tokenizer)`
    callback. */
module Wrappers {

  /** A value that may be absent (JavaScript `null` or `undefined`). */
  datatype Option<+T> = None | Some(value: T)

  /** The outcome of an operation that either succeeds with a value or fails
      with an error. */
  datatype Result<+R, +E> = Success(value: R) | Failure(error: E)
}
