/** Result, Outcome and Option types of the order-management model, and the
    errors its operations report.

    Every constructor of `Error` stands for one error message of the source;
    the constructors that carry a `cause` stand for the application services'
    wrappers of the form "failed to ...: <cause>". */
module Outcomes {

  datatype Option<+T> = None | Some(value: T)

  /** A value, or the error that prevented computing it (Go's `(T, error)`). */
  datatype Result<+T> = Ok(value: T) | Err(error: Error) {
    /** Forgets the value: the `error` of a Go function whose value is dropped. */
    function ToOutcome(): Outcome {
      match this
      case Ok(_) => Pass
      case Err(e) => Fail(e)
    }
  }

  /** Success, or an error (Go's lone `error` return, `nil` being `Pass`). */
  datatype Outcome = Pass | Fail(error: Error)

  datatype Error =
    // value objects
    | NegativeQuantity | EmptyUnit | UnitMismatch
    | NegativeAmount | EmptyCurrency | CurrencyMismatch | NegativeFactor
    | EmptyStreet | EmptyCity | EmptyState | EmptyPostalCode | EmptyCountry
    // entities
    | EmptyProductName | EmptyProductDescription | InactiveStockReduction | InsufficientStock
    | InactiveProductItem | NonPositiveQuantity
    | EmptyCustomerId | AddToNonPending | RemoveFromNonPending | ItemNotInOrder
    | ConfirmNonPending | ConfirmEmpty | ShipNonConfirmed | DeliverNonShipped | CancelDelivered
    | EmptyCustomerName | EmptyCustomerEmail
    // domain services
    | EmptyOrder | InactiveProductInOrder(productName: string)
    | InsufficientStockInOrder(productName: string)
    | TotalCalculation(cause: Error) | BelowMinimumTotal
    | InactiveProductAddition(productName: string) | NonPositiveAddition
    | InsufficientStockAddition(productName: string, available: int, requested: int)
    | StatusNotPending(status: string)
    | InvalidCurrentStatus(status: string) | InvalidTransition(current: string, target: string)
    | PendingLimitReached(customerId: string, limit: int)
    | DiscountOutOfRange | NegativeTaxRate
    // repositories ("<entity> with ID <id> not found")
    | OrderNotFound(id: string) | ProductNotFound(id: string) | CustomerNotFound(id: string)
    // application services
    | InvalidAddress(cause: Error) | EmailTaken(email: string) | CustomerCreationFailed(cause: Error)
    | InvalidPrice(cause: Error) | InvalidStock(cause: Error) | ProductCreationFailed(cause: Error)
    | InvalidQuantity(cause: Error) | AddItemFailed(cause: Error) | OrderCreationFailed(cause: Error)
    | OrderValidationFailed(cause: Error) | ConfirmFailed(cause: Error) | ShipFailed(cause: Error)
    | DeliverFailed(cause: Error) | CancelFailed(cause: Error) | InvalidOrderStatus(status: string)
    // the Python sales and billing services
    | DifferentCurrencies | OnlyPendingPayable | SalesOrderNotFound | OrderNeedsItems
    | PaymentNotFound(paymentId: string)
}
