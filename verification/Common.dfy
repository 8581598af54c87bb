/** Result and error types shared by every module. */
module Common {

  datatype Option<+T> = None | Some(value: T)

  /** Why a service call raised instead of returning. */
  datatype Error =
    | ProductNotFound       // Product.DoesNotExist: unknown or inactive product
    | StockNotFound         // StockItem.DoesNotExist
    | InsufficientStock     // InsufficientStockError
    | IntegrityViolation    // a database constraint refused the write
    | OrderNotFound         // 404 from the view's get_object
    | NotPending            // DomainError raised by cancel_order
    | ValidationFailed      // the request's serializer refused the payload

  datatype Result<+T> = Ok(value: T) | Err(error: Error)

  function Max(a: int, b: int): int {
    if a >= b then a else b
  }

  function Min(a: int, b: int): int {
    if a <= b then a else b
  }

  ghost function Pick<T>(s: set<T>): (x: T)
    requires s != {}
    ensures x in s
  {
    var x :| x in s;
    x
  }
}
