/** Shared vocabulary of the sales core: identifiers, timestamps, the failure-carrying
    result type, the exceptions the handlers raise and the validation error shape. */
module SalesCommon {

  /** A Guid, as a number; `Empty` is `Guid.Empty`. */
  type Guid = nat

  const Empty: Guid := 0

  /** A DateTime, as a tick count; `DefaultDateTime` is `default(DateTime)`. */
  type DateTime = nat

  const DefaultDateTime: DateTime := 0

  datatype Option<+T> = None | Some(value: T) {
    function GetOr(default: T): T {
      match this
      case Some(v) => v
      case None => default
    }
  }

  datatype Result<+T, +E> = Ok(value: T) | Err(error: E)

  /** Outcome of a domain operation that may throw an InvalidOperationException. */
  datatype Outcome = Pass | Fail(message: string)

  /** Where a validation failure points: a property, the validated object itself
      (`RuleFor(x => x)`), or an element of a collection validated with `RuleForEach`. */
  datatype Property =
    | Named(name: string)
    | Self
    | Element(collection: string, index: nat, inner: Property)

  datatype ValidationError = ValidationError(property: Property, message: string)

  /** What `Sale.Validate()` and `SaleItem.Validate()` return. */
  datatype ValidationResultDetail = ValidationResultDetail(isValid: bool, errors: seq<ValidationError>)

  /** The exception classes the handlers throw. */
  datatype ExceptionKind = ValidationException | KeyNotFoundException | InvalidOperationException

  /** Every failure a handler can surface to its caller. */
  datatype Fault =
      /** ValidationException carrying the failures of a validator */
    | ValidationFailed(errors: seq<ValidationError>)
      /** ValidationException "Item '<product>': Cannot sell more than 20 identical items" */
    | QuantityLimitExceeded(product: string)
      /** KeyNotFoundException "Sale with ID <id> not found" */
    | SaleNotFound(saleId: Guid)
      /** KeyNotFoundException "Item with ID <id> not found in sale" */
    | ItemNotFound(itemId: Guid)
      /** InvalidOperationException "Sale with number <number> already exists" */
    | DuplicateSaleNumber(saleNumber: string)
      /** InvalidOperationException "Cannot update a cancelled sale" */
    | CancelledSaleNotUpdatable
      /** InvalidOperationException "Sale is already cancelled" */
    | SaleAlreadyCancelled
      /** InvalidOperationException "Cannot cancel item from a cancelled sale" */
    | CancelledSaleItemNotCancellable
      /** InvalidOperationException "Item is already cancelled" */
    | ItemAlreadyCancelled
  {
    function Kind(): ExceptionKind {
      match this
      case ValidationFailed(_) => ValidationException
      case QuantityLimitExceeded(_) => ValidationException
      case SaleNotFound(_) => KeyNotFoundException
      case ItemNotFound(_) => KeyNotFoundException
      case _ => InvalidOperationException
    }
  }
}
