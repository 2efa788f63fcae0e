/** Failure-carrying datatypes shared by the whole model: Swift optionals and
    thrown errors become Option and Result values. */
module Wrappers {

  datatype Option<+T> = None | Some(value: T)

  datatype Result<+T, +E> = Ok(value: T) | Err(error: E)

  /** The result of a throwing call that returns nothing. */
  datatype Outcome<+E> = Pass | Fail(error: E)
}
