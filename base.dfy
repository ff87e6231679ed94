/** Failure-compatible wrappers shared by every module of the model. */
module Base {

  /** Kotlin's nullable values (`T?`). */
  datatype Option<+T> = None | Some(value: T)

  /** A value, or the exception that the Kotlin code would throw instead. */
  datatype Result<+T, +E> = Success(value: T) | Failure(error: E)

  function Min(a: int, b: int): int { if a <= b then a else b }
}
