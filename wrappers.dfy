/** Optional values and success/failure outcomes, used for the session's
    optional OCR text and for the replies of the external model server. */
module Wrappers {

  /** A value that may be absent (Python's `None`). */
  datatype Option<+T> = None | Some(value: T)

  /** The outcome of a call into the model server: the reply's text, or the
      text of the exception it raised. */
  datatype Result<+R, +E> = Success(value: R) | Failure(error: E)
}
