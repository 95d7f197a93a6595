/**
 The records, events and responses shared by the four handlers of the
 order -> payment -> shipping workflow, and the abstract cloud state they act on:
 the `orders` and `payments` tables and the two outgoing queues.
 */
module Records {

  datatype Option<T> = None | Some(value: T)

  /** A row of the `orders` table (also the 200 response body of CreateOrder). */
  datatype Order = Order(
    OrderId: string,
    UserId: string,
    Item: string,
    Quantity: int,
    TotalPrice: int,
    ShippingReady: bool)

  /** A row of the `payments` table. */
  datatype Payment = Payment(OrderId: string, TotalPrice: int, Status: string)

  /** Status every payment is created with; the only status ProcessPayment accepts to change. */
  const Incomplete: string := "incomplete"

  /** The message on `orders-queue`. */
  datatype OrderCreatedEvent = OrderCreatedEvent(OrderId: string, TotalPrice: int)

  /** The message on `payments-queue`. */
  datatype PaymentProcessedEvent = PaymentProcessedEvent(OrderId: string)

  /** The body of an HTTP response: a message, or a record serialized as JSON. */
  datatype Body = Text(message: string) | OrderJson(order: Order) | PaymentJson(payment: Payment)

  /**
   An API Gateway proxy response together with the Go handler's second result:
   `err` is true when the handler also returned a non-nil error.
   */
  datatype Response = Response(status: int, body: Body, err: bool)

  /**
   Which external calls of one HTTP invocation return an error: the session set-up,
   the table read, the table write and the queue publish.
   */
  datatype Faults = Faults(session: bool, read: bool, write: bool, publish: bool)

  const NoFaults: Faults := Faults(false, false, false, false)

  /** The whole persisted and queued state of the workflow. */
  datatype World = World(
    orders: map<string, Order>,
    payments: map<string, Payment>,
    orderCreated: seq<OrderCreatedEvent>,
    paymentProcessed: seq<PaymentProcessedEvent>)

  /** Every order is stored under its own id, as DynamoDB stores an item under its key attribute. */
  predicate OrdersKeyed(orders: map<string, Order>)
  {
    forall k | k in orders :: orders[k].OrderId == k
  }

  /** Every payment is stored under its own order id. */
  predicate PaymentsKeyed(payments: map<string, Payment>)
  {
    forall k | k in payments :: payments[k].OrderId == k
  }

  /** What one HTTP invocation leaves behind: the new state and the response. */
  datatype Outcome = Outcome(world: World, response: Response)

  /** Why a batch consumer stopped. */
  datatype BatchError = SessionError | UnmarshalError | StoreError

  /**
   One SQS record handed to a batch consumer: its parsed body (None when the
   body does not unmarshal) and whether the table write for it returns an error.
   */
  datatype Delivery<E> = Delivery(event: Option<E>, writeFails: bool)
  {
    predicate Ok() { event.Some? && !writeFails }

    /** The error the consumer returns at this record when it is not Ok. */
    function Error(): BatchError { if event.None? then UnmarshalError else StoreError }
  }

  /** Index of the first record a batch consumer stops at, or |ds| when none fails. */
  function FirstFailure<E>(ds: seq<Delivery<E>>): (n: nat)
    ensures n <= |ds|
    ensures forall i | 0 <= i < n :: ds[i].Ok()
    ensures n < |ds| ==> !ds[n].Ok()
  {
    if ds == [] || !ds[0].Ok() then 0 else 1 + FirstFailure(ds[1..])
  }

  /** The events carried by a run of records that all parsed. */
  function Events<E>(ds: seq<Delivery<E>>): (es: seq<E>)
    requires forall i | 0 <= i < |ds| :: ds[i].event.Some?
    ensures |es| == |ds|
    ensures forall i | 0 <= i < |ds| :: Some(es[i]) == ds[i].event
  {
    seq(|ds|, i requires 0 <= i < |ds| => ds[i].event.value)
  }

  /**
   The DynamoDB tables and SQS queues the handlers share; the Go programs reach
   them through the package-level `basics` and `sqsClient` clients.
   */
  class Cloud {
    var orders: map<string, Order>
    var payments: map<string, Payment>
    var orderCreated: seq<OrderCreatedEvent>
    var paymentProcessed: seq<PaymentProcessedEvent>

    function State(): World
      reads this
    {
      World(orders, payments, orderCreated, paymentProcessed)
    }
  }
}
