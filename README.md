# Order saga: a verified model of the four stage loops

This project models the core of a saga-style order workflow. Four
independent workers talk only through broker topics:

- the **gateway** handles `POST /order` and publishes to `order_created`;
- the **payment** worker consumes `order_created` and publishes each order to
  `payment_completed` or `payment_failed` (amount above 300 fails);
- the **shipping** worker consumes `payment_completed` and logs shipments;
- the **notification** worker consumes `payment_failed` and raises alerts.

The broker is modelled as plain topic logs, each a `seq<string>` owned by
the stage that appends to it. A worker's consumer is a finite script of
`Delivery` values, which are what successive `Consume` calls hand the loop:

- a message `Msg(payload, produce)`, where `produce` is the broker's answer
  to the publish that message leads to;
- a null result;
- a `ConsumeException`;
- an `OperationCanceledException`;
- any other exception.

The end of the script stands for the loop guard `!IsCancellationRequested`
seeing the shutdown request. JSON decoding and encoding are function
parameters: `decode` gives `Decoded(order)`, `JsonNull` or `Malformed`
(a `JsonException`), and `encode` serialises an order. No law connecting
them is assumed, except as an explicit precondition of the end-to-end
scenario.

Each worker is a class. It holds its output logs and counts how often its
consumer was closed and its producers disposed. Its `ExecuteAsync` method
runs the loop over the script. That method's postcondition ties the new
state to pure functions of the script: `Outputs`, `Trace`, `Entries`,
`Alerts` and `EndingOf`. The lemmas about those functions state what the
stages promise: routing, partition, order preservation, termination, and
no deduplication.

Files: `saga.dfy` (shared types), `payment.dfy`, `shipping.dfy`,
`notification.dfy`, `gateway.dfy` and `pipeline.dfy` (end to end).

Some behaviours differ from what the workflow is meant to do. The model
follows the code in each case:

- An `OrderId` is meant to be non-empty, but it is never checked. A missing
  field deserialises to the empty string.
- A malformed payload is meant to be logged and skipped, as the payment
  worker does. In the shipping worker, only `OperationCanceledException` is
  caught, and the `try` wraps the whole loop. So a `JsonException`, a
  consume error or any other exception ends the loop and faults the
  worker's `Task` (`Shipping.MalformedEndsLoop`).
- Shutdown is meant to close each subscription, as the payment worker does
  after its loop. The shipping worker closes its consumer only in the
  cancellation handler or in `Dispose`. When the loop guard sees the
  request first, nothing is closed. The notification worker never closes
  its consumer.
- Shutdown is meant to end a loop quietly, as the payment and shipping
  workers do by catching the cancellation. The notification loop has no
  `try`, so a cancellation thrown by `Consume` leaves `ExecuteAsync`
  (`CancelEscaped`).

## Model

| member | source | states |
|---|---|---|
| `Payment.Handle` | src/PaymentService/Worker.cs:71-112 | a message is published iff it decodes to an order and the broker accepts it. The payload is the serialisation of that order, unchanged. The topic is payment_failed iff the amount is above 300, so 300 goes to completed. A null order gives InvalidOrder; a malformed payload gives JsonError; a rejected publish gives ProduceError. None of these publishes anything. |
| `Payment.Trace` | src/PaymentService/Worker.cs:41-64 | the log has at most one entry per consumed delivery. When Consume never returns null, entry i is what delivery i logs: a handled message, a consume error, an unexpected error, or the shutdown warning |
| `Payment.NullResultIsSilent` | src/PaymentService/Worker.cs:45-49 | a null result from Consume, wherever it comes, adds nothing to the log and publishes nothing |
| `Payment.FirstCancel` | src/PaymentService/Worker.cs:51-59 | the position of the first cancellation: every earlier delivery is not a cancellation, and the one at that position is |
| `Payment.SentIsExpected` | src/PaymentService/Worker.cs:85-102 | what a loop publishes to a topic equals the serialisations of the accepted decoded orders whose amount selects that topic, one each, in consume order |
| `Payment.ExpectedPartitions` | src/PaymentService/Worker.cs:85-102 | every routed order goes to exactly one of the two topics |
| `Payment.OutputsPartition` | src/PaymentService/Worker.cs:41-102 | the two outputs of a run together hold exactly as many messages as there are accepted decodable orders before the first cancellation |
| `Payment.UndecodableSendsNothing` | src/PaymentService/Worker.cs:75-80 | a message that decodes to null or is malformed, inserted anywhere in the input, leaves both topics as they would otherwise be |
| `Payment.SentGrows` | src/PaymentService/Worker.cs:41-49 | what is published after a prefix of the input is a prefix of what is published after all of it, so topics are only appended to |
| `Payment.PublishedAt` | src/PaymentService/Worker.cs:85-102 | the accepted decodable message at position i is appended exactly once to its own topic, at the next free position, and adds nothing to the other topic |
| `Payment.OrderPreserved` | src/PaymentService/Worker.cs:41-49 | two orders routed to the same topic are published there in consume order |
| `Payment.CancellationEndsLoop` | src/PaymentService/Worker.cs:51-63 | without a cancellation every delivery is consumed, whatever errors occur. At the first cancellation the loop stops, and nothing after it is consumed or published. |
| `Payment.ReplayPublishesTwice` | src/PaymentService/Worker.cs:71-112 | no deduplication: a message consumed twice is published twice on its topic, and the other topic is unchanged |
| `Payment.PaymentWorker.constructor` | src/PaymentService/Worker.cs:14-35 | a new worker has empty outputs and untouched consumer and producers |
| `Payment.PaymentWorker.ProcessPayment` | src/PaymentService/Worker.cs:71-112 | returns `Handle` of the message, appends the published payload to the chosen topic only, and changes nothing else |
| `Payment.PaymentWorker.ExecuteAsync` | src/PaymentService/Worker.cs:37-69 | consumes up to and including the first cancellation, logs `Trace` of what it consumed, and appends `Outputs` to each topic. Afterwards the consumer is closed once and each producer is disposed once. |
| `Shipping.FirstStop` | src/ShippingService/Worker.cs:35-56 | the position of the first delivery that ends the loop: anything except a message whose payload deserialises without throwing |
| `Shipping.FirstStopAt` | src/ShippingService/Worker.cs:35-56 | the loop stops exactly at the first delivery it does not survive |
| `Shipping.ShipsEveryDecodedOrder` | src/ShippingService/Worker.cs:37-50 | the shipped ids in the log are exactly the ids of the orders that the consumed messages decode to, one each, in consume order. A null payload ships nothing. |
| `Shipping.ReceivedBeforeShipped` | src/ShippingService/Worker.cs:40-49 | every Shipped line directly follows the Received line of a payload that decodes to an order with that id |
| `Shipping.MalformedEndsLoop` | src/ShippingService/Worker.cs:35-56 | a malformed payload is logged as received, then faults the worker's `Task` with a JSON fault. Nothing after it is consumed. |
| `Shipping.ShippingWorker.constructor` | src/ShippingService/Worker.cs:16-29 | a new worker has an empty log and an open consumer |
| `Shipping.ShippingWorker.Iterate` | src/ShippingService/Worker.cs:39-50 | one loop body: it logs the raw payload before decoding, then a shipment for a decoded order. It reports the ending exactly when the delivery ends the loop. |
| `Shipping.ShippingWorker.ExecuteAsync` | src/ShippingService/Worker.cs:31-58 | ends as `EndingOf` the script and logs `Entries` of what it consumed. The consumer is closed exactly when a cancellation was caught. |
| `Shipping.ShippingWorker.Dispose` | src/ShippingService/Worker.cs:60-64 | closes the consumer once more and leaves the log unchanged |
| `Notification.FirstStop` | src/NotificationService/Worker.cs:34-38 | the position of the first delivery that is not a message: only an exception ends the loop early |
| `Notification.AlertPerMessage` | src/NotificationService/Worker.cs:34-38 | one alert per consumed message, holding its raw payload, in consume order |
| `Notification.ExceptionEndsLoop` | src/NotificationService/Worker.cs:28-40 | the first non-message ends the loop with its own escaping exception (a cancellation included), and only the messages before it are alerted |
| `Notification.NotificationWorker.constructor` | src/NotificationService/Worker.cs:13-26 | a new worker has raised no alert and its consumer is open |
| `Notification.NotificationWorker.ExecuteAsync` | src/NotificationService/Worker.cs:28-40 | ends as `EndingOf` the script and appends `Alerts` of the consumed messages. It changes nothing but the alerts, so it never closes the consumer and has no producer to publish with. |
| `Gateway.Post` | src/OrderService/Program.cs:14-40 | rejects iff the body decodes to null, and throws iff the body is malformed. Otherwise it attempts exactly one publish of the serialised order, which lands iff the broker accepts it. |
| `Gateway.PublishFailureIsSilent` | src/OrderService/Program.cs:20-38 | the response after a failed publish equals the response after a successful one. The rejection text is written iff the order is null. Nothing is published unless the body decodes to an order. |
| `Gateway.Intake` | src/OrderService/Program.cs:14-40 | order_created receives at most one message per request |
| `Gateway.IntakeIsLanded` | src/OrderService/Program.cs:20-38 | after any sequence of requests, order_created holds exactly the serialised orders of the requests whose body decodes to an order and whose publish is accepted, in request order. Null orders, malformed bodies and rejected publishes add nothing. |
| `Gateway.IntakeOfValidRequests` | src/OrderService/Program.cs:28-32 | when every request holds an order and every publish is accepted, order_created holds each order's serialisation, in request order |
| `Gateway.OrderEndpoint.constructor` | src/OrderService/Program.cs:14 | order_created starts empty |
| `Gateway.OrderEndpoint.PostOrder` | src/OrderService/Program.cs:14-40 | responds with `ResponseOf(Post(...))` and appends exactly what `Post` publishes |
| `Pipeline.PaymentRoutesEveryOrder` | src/PaymentService/Worker.cs:41-102 | a fault-free order_created is consumed whole, and each order is routed as `Expected` says |
| `Pipeline.FailuresAlerted` | src/NotificationService/Worker.cs:34-38 | every message on payment_failed raises exactly one alert, in order, and the loop stops only at the guard |
| `Pipeline.CompletionsShipped` | src/ShippingService/Worker.cs:37-50 | every readable message on payment_completed is shipped once, in order, and the loop stops only at the guard |
| `Pipeline.PlaceOrder` | src/PaymentService/Worker.cs:85-102 | one order through all four stages' own methods. At most 300: paid and shipped, no alert. Above 300: failed and alerted once, never seen by shipping. |

## Left out

- Kafka client construction and configuration: bootstrap servers, group ids, `AutoOffsetReset`, offsets and partitions. Each topic is one ordered sequence. Redelivery after a crash appears only as a message repeated in the script.
- The 2-second `Task.Delay` waits, `Task.Run`, and async scheduling. Each loop is sequential, so its steps are modelled without time.
- JSON (de)serialisation internals. Decode and encode are parameters, with no round-trip law.
- The `DateTime.UtcNow` default of `Timestamp`: an `Instant` is an opaque tick count.
- Log message text. Logs are modelled as entries per event kind. The start-up lines ("started listening") and the shipping line "Shipping order …" are not modelled.
- The ASP.NET hosting and the per-request producer construction in the gateway. That producer is never disposed.
- Delivery reports of the payment worker's fire-and-forget `Produce`. An accepted publish is appended, and a failure reported after `Produce` returns is not modelled.
- Exceptions from the gateway's `ProduceAsync` other than `ProduceException`.
- A message whose value is null, and exceptions other than `JsonException` and `ProduceException` thrown inside `ProcessPayment`. A payload is always a string, and a publish is only accepted or rejected. In the source, deserialising a null value throws `ArgumentNullException`. The payment loop's outer handler catches it and publishes nothing. The shipping loop logs the message as received and then faults. The notification loop raises an alert with empty text.
- The `BackgroundService` base class behaviour beyond the overridden members.
- src/OrderService/Models/Order.cs is not part of this model. The gateway is taken to decode the same shape as the payment stage.
