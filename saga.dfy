/** Values shared by the four stages of the order saga: the order record and
    the shipping stage's own view of it, the outcome of decoding a JSON
    payload, what one call of a broker consumer's Consume hands a worker loop,
    and how a worker's loop ends. */
module Saga {

  /** A signed 32-bit integer, the width of the order's Amount property. */
  newtype Int32 = x: int | -0x8000_0000 <= x < 0x8000_0000

  /** A point in time. Orders are stamped with the wall clock when they are
      created; the clock is not modelled, so an instant is an uninterpreted
      tick count. */
  datatype Instant = Instant(ticks: int)

  /** An order as the payment stage (and the gateway) declare it. */
  datatype Order = Order(orderId: string, amount: Int32, timestamp: Instant)

  /** The shipping stage's own declaration of the order: the same fields and
      IsShipped, which defaults to false and which nothing ever sets. */
  datatype ShippingOrder = ShippingOrder(orderId: string, amount: Int32, timestamp: Instant, isShipped: bool)

  /** The shipping stage's reading of an order written by another stage. */
  function ShippingView(o: Order): ShippingOrder
  {
    ShippingOrder(o.orderId, o.amount, o.timestamp, false)
  }

  /** What deserialising a JSON payload gives: a value, a null (the payload
      is the JSON literal null), or a JsonException (the payload is not an
      order). */
  datatype Decoding<T> = Decoded(value: T) | JsonNull | Malformed

  /** The broker's answer to one Produce call: the message is appended to its
      topic, or the call throws a ProduceException. */
  datatype ProduceOutcome = Accepted | Rejected

  /** What one call of Consume(stoppingToken) hands the loop that made it.
      A message carries its payload and the broker's answer to the publish
      that this message leads to, if the consuming stage publishes at all.
      Consume may also return null, throw a ConsumeException, throw an
      OperationCanceledException once shutdown is requested, or throw any
      other exception. */
  datatype Delivery =
    | Msg(payload: string, produce: ProduceOutcome)
    | NullResult
    | ConsumeError
    | Cancelled
    | Unexpected

  datatype Option<T> = None | Some(value: T)

  /** An exception that escapes a worker's loop. */
  datatype Fault = ConsumeFault | JsonFault | NullReference | UnexpectedFault

  /** How a worker's ExecuteAsync ends: the loop guard saw the cancellation
      request, an OperationCanceledException was caught or escaped, or another
      exception escaped and faulted the Task that ExecuteAsync returns. */
  datatype Ending = GuardStopped | CancelCaught | CancelEscaped | Faulted(fault: Fault)
}
