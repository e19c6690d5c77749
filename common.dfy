/** Shared vocabulary of the sales engine: identifiers, optional values and
    the errors the engine reports to its callers instead of raising. */
module Common {

  type UserId = nat
  type CustomerId = nat
  type ProductId = nat
  type BatchId = nat
  type OrderId = nat
  type RecordId = nat

  datatype Option<+T> = None | Some(value: T)

  /** Every refusal the request layer turns into an HTTP 400 (or, for a
      missing row, a 404). */
  datatype Error =
    | NotFound
      // update_status / batch_update_status
    | MissingStatus
    | InvalidStatus
    | MissingOrderIdsOrStatus
    | InsufficientStock(current: int)
      // model-field validators on order fields
    | QuantityBelowOne
    | NegativeUnitPrice
    | NegativeOtherCosts
      // stock record validation
    | MissingAfterStock
    | NegativeAfterStock
    | OutExceedsStock
    | NonPositiveQuantity
      // bulk order entries
    | WrongEntryCount
    | MissingField(field: string)
    | UnknownCustomerOrProduct
      // stock-in form
    | UnknownProduct
      // users
    | PasswordTooShort
    | PasswordMismatch
    | PasswordKeyMissing

  /** The outcome of a check that produces no value. */
  datatype Check = Pass | Fail(error: Error)

  /** The outcome of an operation that produces a value. */
  datatype Result<+T> = Ok(value: T) | Err(error: Error)
}
