/** Option and Result values used for missing cells, absent insight keys and raised errors. */
module Wrappers {

  datatype Option<+T> = None | Some(value: T)

  /** A computation that either yields a value or stops the way the source raises an exception. */
  datatype Result<+T, +E> = Ok(value: T) | Err(error: E)

  /** A computation that produces no value and may stop with an error. */
  datatype Outcome<+E> = Pass | Fail(error: E)

  function Min(a: int, b: int): int { if a <= b then a else b }
  function Max(a: int, b: int): int { if a <= b then b else a }
}
