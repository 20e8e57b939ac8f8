/** Shared vocabulary of the checkout model: identifiers, money, the Java
    `Integer` range, and the outcome of a service call. */
module Common {

  /** BigDecimal amounts. They are exact, and `compareTo` compares numeric
      value, so a Dafny `real` keeps both properties. */
  type Money = real

  type UserName = string
  type ProductId = int
  type CartId = int
  type OrderId = int

  /** A reading of the clock (`LocalDateTime.now()`), supplied by the caller. */
  type Timestamp = int

  const MinInt32: int := -0x8000_0000
  const MaxInt32: int := 0x7fff_ffff

  /** A Java `int` / `Integer` value. */
  type Int32 = x: int | MinInt32 <= x <= MaxInt32

  datatype Option<+T> = None | Some(value: T)

  /** The exceptions the services throw. Each aborts the enclosing
      transaction, so a call that returns one leaves the store unchanged. */
  datatype Error =
    | UserNotFound(user: UserName)
    | CartNotFound(owner: UserName)
    | ProductNotFound(product: ProductId)
    | ItemNotFound(missing: ProductId)
    | OrderNotFound(order: OrderId)
    | EmptyCart

  datatype Result<+T> = Ok(value: T) | Err(error: Error)
}
