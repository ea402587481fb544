/** Entities of the flash-sale shop: the rows of its four tables, their
    closed status enumerations, and the outcome types of its operations. */
module Domain {

  /** Row identities. Products are created outside the reservation engine;
      holds, orders and payment events are numbered by their position in
      their table, which is append-only. */
  type ProductId = nat
  type HoldId = nat
  type OrderId = nat

  /** A hold lives for two minutes; time is counted in seconds. */
  const HoldTtl: int := 120

  datatype HoldStatus = Active | Used | Expired | Canceled | Completed

  datatype OrderStatus = Pending | Paid | Canceled

  /** The payment outcome a webhook reports; it is also what a payment event
      records as its own status. */
  datatype Outcome = Success | Failure

  /** Inventory of one product; `price` is in minor currency units. */
  datatype Product = Product(stockTotal: nat, stockSold: nat, price: nat)

  datatype Hold = Hold(productId: ProductId, qty: nat, status: HoldStatus, expiresAt: int, createdAt: int)

  datatype Order = Order(productId: ProductId, holdId: HoldId, qty: nat, totalPrice: nat, status: OrderStatus)

  /** One processed webhook call. `rawPayload` is the serialised request body,
      kept opaque. */
  datatype PaymentEvent = PaymentEvent(orderId: OrderId, key: string, status: Outcome, rawPayload: string, createdAt: int)

  /** The four tables of the store, as one value. */
  datatype Tables = Tables(
    products: map<ProductId, Product>,
    holds: seq<Hold>,
    orders: seq<Order>,
    events: seq<PaymentEvent>)

  datatype Option<T> = None | Some(value: T)

  datatype Result<T, E> = Ok(value: T) | Err(error: E)

  /** Every way an operation of the engine can refuse a request. */
  datatype Error =
    | InvalidQty
    | ProductNotFound
    | InsufficientStock
    | HoldNotFound
    | HoldNotActive
    | HoldExpired
    | OrderNotFound
    | MissingKey

  /** What a successful hold request answers. */
  datatype HoldTicket = HoldTicket(holdId: HoldId, expiresAt: int)

  /** What a successful order request answers. */
  datatype OrderTicket = OrderTicket(orderId: OrderId, status: OrderStatus)

  /** What an accepted webhook call answers: either the stored status of the
      event recorded earlier under the same key, or the order's status after
      this call. */
  datatype Settlement =
    | AlreadyProcessed(eventStatus: Outcome)
    | Handled(orderStatus: OrderStatus)
}
