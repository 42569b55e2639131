/** Error kinds and failure-carrying results shared by every part of the invoicing model. */
module Outcomes {

  /** The kinds of failure the invoicing actions can end in. */
  datatype Error =
    | ValidationError(message: string)   // finalising without a customer name
    | ProductNotFound(name: string)      // a product name missing from the catalog
    | IndexError(index: int)             // a position outside a list
    | DateValueError(text: string)       // a stored date that does not parse as YYYY-MM-DD
    | DateOverflow                       // a due date past the last representable year

  datatype Option<T> = None | Some(value: T)

  datatype Result<T> = Success(value: T) | Failure(error: Error)

  /** The outcome of an action that changes state and returns nothing else. */
  datatype Outcome = Pass | Fail(error: Error)

  function Min(a: int, b: int): int
  {
    if a <= b then a else b
  }
}
