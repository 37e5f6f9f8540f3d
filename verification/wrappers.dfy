/** Option and Result datatypes shared by the tokenizer and the parser. */
module Wrappers {

  /** A value that may be absent: a missing table entry, a search that found nothing. */
  datatype Option<+T> = None | Some(value: T)

  /** The outcome of an operation that can fail with an error value. */
  datatype Result<+T, +E> = Success(value: T) | Failure(error: E)
}
