# Order → payment → shipping workflow, modelled in Dafny

The system is four AWS Lambda handlers that together form an order workflow:

- **CreateOrder** (`create_order/main.go`) validates an HTTP request and writes a new order to the `orders` table. It then publishes `OrderCreated{order_id, total_price}` on `orders-queue`.
- **The OrderCreated consumer** (`order_created/main.go`) reads batches from that queue. For each record it puts a payment with status `"incomplete"` into the `payments` table.
- **ProcessPayment** (`process_payment/main.go`) reads the payment for an order. It refuses a payment that is missing or no longer `"incomplete"`, sets the requested status, and publishes `PaymentProcessed{OrderId}` on `payments-queue`.
- **The PaymentProcessed consumer** (`payment_processed/main.go`) reads batches from that queue. For each record it sets `shippingReady` on the order.

The model replaces DynamoDB and SQS with one abstract state (`Records.World`). It holds the `orders` and `payments` maps and the two outgoing queues as sequences. The package-level clients `basics` and `sqsClient` become a `Records.Cloud` object that is passed to each handler. Each handler is an imperative method over that object: calls with early returns, and a `for` loop for the batch consumers. Each method is proved equal to a pure function (`Step`, `Batch`, `Consume`). The properties are proved about those functions.

Each failing external call is a parameter of the model. `Records.Faults` says which calls of one HTTP invocation fail: the session set-up, the table read, the table write and the queue publish. For batches, each `Records.Delivery` record carries its parsed body (`None` when unmarshalling fails) and whether its table write fails. The fresh order id that the code gets from `uuid.New()` is a parameter too.

Modules: `Records` (shared types and state), `OrderCoordinator` (create_order), `PaymentRecorder` (order_created), `PaymentProcessor` (process_payment), `ShippingActivator` (payment_processed), and `Saga` (the four handlers together).

### Behaviour of the code that a reader might not expect

A saga of this kind is meant to guarantee that each order is paid for at most once, and that an order becomes ready to ship only after its payment. The code falls short of that guarantee in the ways below. In each case the model follows the code, and a lemma shows the behaviour.

- Validation refuses only empty strings and zero numbers (create_order/main.go:122). A check that quantity and price are positive would refuse a negative quantity or price; this code accepts them (`OrderCoordinator.NegativeValuesAccepted`).
- `AddPayment` is an unconditional put (order_created/main.go:48-51). A create-if-absent put (a condition that the key does not exist) would leave a processed payment alone. With this code, if an `OrderCreated` event is delivered again after its payment was processed, the payment goes back to `"incomplete"`. ProcessPayment can then succeed a second time (`Saga.RedeliveryReopensPayment`).
- The status update in ProcessPayment has no condition (process_payment/main.go:95-102). A conditional update that requires the stored status to still be `"incomplete"` would make the read-check-write atomic. "At most one success per order" is therefore proved only in a narrow case: two consecutive ProcessPayment calls, with no OrderCreated redelivery between them, where the first call sets a status other than `"incomplete"`, and where the second call's read sees the first call's update (`PaymentProcessor.ProcessedThenRejected`). The read is not a consistent read, so in the real system even a later call may miss the update.
- The requested status is never checked against `"incomplete"`. A request for status `"incomplete"` still returns 200 and publishes `PaymentProcessed`, and the payment stays processable (`PaymentProcessor.IncompleteStatusRepublishes`).
- Both consumers stop at the first record that fails to unmarshal or to be written, and return its error (order_created/main.go:62-72, payment_processed/main.go:70-79). They do not skip the bad record. One bad message therefore blocks every record after it in the same batch (`PaymentRecorder.BatchPrefix`, `ShippingActivator.BatchPrefix`).
- The PaymentProcessed consumer's `UpdateItem` has no condition. On a missing key it creates an item holding only the key and `shippingReady = true`, as DynamoDB's UpdateItem does. Under the system invariant `Saga.Inv`, with records taken from the queue, this case cannot happen (`Saga.ShipKeepsInv`).
- Failing store or queue calls end the invocation with `log.Fatalf` in several places. The model treats them as the error return that follows.

## Model

| member | source | states |
|---|---|---|
| `Records.FirstFailure` | order_created/main.go:60-73 | the index where a batch loop stops: every earlier record parsed and was written, and the record at that index did not |
| `OrderCoordinator.Valid` | create_order/main.go:122 | a valid request has both strings present; a request with a negative quantity and price still passes |
| `OrderCoordinator.NewOrder` | create_order/main.go:58-65 | the new order is not ready to ship, and the event published for it carries the given id and the request's price |
| `OrderCoordinator.Created` | create_order/main.go:83-86 | the OrderCreated event names the order and carries its total price |
| `OrderCoordinator.Step` | create_order/main.go:101-151 | the order is stored exactly when the session, unmarshal, validation and write steps all pass. 400 happens exactly for an invalid request, and then nothing changes. The write comes before the publish. An event is queued only on a 200. Then the body is the stored order, and the event carries its id and price. Payments and the payments queue are never touched |
| `OrderCoordinator.FreshOrderStored` | create_order/main.go:56-78 | with a fresh id, the orders table gains exactly that key and keeps every other entry. The new order copies user, item, quantity and price, and has `ShippingReady == false` |
| `OrderCoordinator.NegativeValuesAccepted` | create_order/main.go:122 | validation rejects only zero: a negative quantity and price reach a 200 |
| `OrderCoordinator.PublishFailureKeepsOrder` | create_order/main.go:139-145 | a publish failure after a successful write answers 500, keeps the order, and queues nothing |
| `OrderCoordinator.AddOrder` | create_order/main.go:56-79 | builds the order from the request and puts it under its id, unless the put fails |
| `OrderCoordinator.SendToQueue` | create_order/main.go:82-99 | appends `OrderCreated{OrderId, TotalPrice}` of the order, unless the send fails |
| `OrderCoordinator.Handler` | create_order/main.go:101-151 | the imperative handler leaves exactly the state and response of `Step` |
| `PaymentRecorder.NewPayment` | order_created/main.go:36-40 | the payment is keyed by the event's order id, carries the event's price, and has status `"incomplete"` |
| `PaymentRecorder.Recorded` | order_created/main.go:36-51 | the put stores an incomplete payment at the event's id, with the event's price, overwriting whatever was there; other ids are untouched |
| `PaymentRecorder.RecordedOverwrites` | order_created/main.go:48-51 | an already processed payment is replaced by an incomplete one |
| `PaymentRecorder.RecordedIdempotent` | order_created/main.go:36-51 | recording the same event twice equals recording it once |
| `PaymentRecorder.Batch` | order_created/main.go:60-75 | the loop returns no error exactly when every record parsed and was written; it never returns a session error; it never removes a payment |
| `PaymentRecorder.BatchPrefix` | order_created/main.go:59-76 | records are handled in order: the batch writes exactly the records before the first failing one. It returns that record's unmarshal or store error, or no error |
| `PaymentRecorder.SingleRecord` | order_created/main.go:60-73 | a batch of one good record records its event and returns no error |
| `PaymentRecorder.EmptyBatch` | order_created/main.go:59-76 | an empty batch changes nothing and returns no error |
| `PaymentRecorder.RecordAllOverrides` | order_created/main.go:60-73 | recording a run of events overrides the table with what the run alone records (last write wins per id) |
| `PaymentRecorder.RecordAllIdempotent` | order_created/main.go:60-73 | redelivering a whole run of events leaves the table as delivering it once |
| `PaymentRecorder.BatchRedelivery` | order_created/main.go:59-76 | a batch delivered again, whether or not it failed, leaves the payments table and the error as the first delivery did |
| `PaymentRecorder.RecordAllAppend` | order_created/main.go:60-73 | recording two runs one after the other equals recording the joined run |
| `PaymentRecorder.BatchRetry` | order_created/main.go:59-76 | a failed batch retried with the same messages, where the retry gets at least as far, ends with the table and error of the retry alone: the records written by the first attempt leave no trace |
| `PaymentRecorder.RecordAllOnlyIncomplete` | order_created/main.go:36-40 | recording never removes a payment. Every entry it adds or changes is `"incomplete"` |
| `PaymentRecorder.AddPayment` | order_created/main.go:34-58 | puts the incomplete payment for the event, unless marshalling or the put fails |
| `PaymentRecorder.Handler` | order_created/main.go:59-76 | the imperative loop leaves exactly the table and error of `Batch` |
| `PaymentProcessor.HasRequiredFields` | process_payment/main.go:162 | a request that passes has a non-empty order id and status; an empty order id never passes |
| `PaymentProcessor.Lookup` | process_payment/main.go:45-73 | GetItem's result: a non-empty `OrderId` means the id is stored and the stored payment is returned; a missing id gives the zero payment |
| `PaymentProcessor.Pending` | process_payment/main.go:177-189 | the handler goes on to update only when the payment is stored and its status is `"incomplete"` |
| `PaymentProcessor.WithStatus` | process_payment/main.go:75-117 | the update sets the status at the id and keeps the stored price. It creates the item when missing, holding the id, the status and a price of 0. Every other payment is unchanged |
| `PaymentProcessor.Step` | process_payment/main.go:143-217 | missing fields give 400; a lookup with empty `OrderId` gives 404; a non-incomplete status gives 400 "Order already processed", which is never an error return. These three change nothing. The status is set exactly when the update succeeds, and it persists if the publish then fails. An event naming the order is queued only on 200, and the body is the updated payment. A 500 sets the handler's error. Orders are never touched |
| `PaymentProcessor.NotFoundIffAbsent` | process_payment/main.go:177-182 | with payments stored under their own ids, the empty-`OrderId` test is exactly "no payment for this id" |
| `PaymentProcessor.AlreadyProcessedIsFinal` | process_payment/main.go:184-189 | a payment whose status is not `"incomplete"` is final: any call changes nothing and is not a 200. Once the read is reached, the answer is 400 "Order already processed" |
| `PaymentProcessor.ProcessedThenRejected` | process_payment/main.go:184-189 | after a 200 with a status other than `"incomplete"`, a later call for that order changes nothing, queues nothing and is refused |
| `PaymentProcessor.IncompleteStatusRepublishes` | process_payment/main.go:184-205 | a request for status `"incomplete"` on a pending payment returns 200 and publishes an event. The payment stays pending |
| `PaymentProcessor.PublishFailureKeepsStatus` | process_payment/main.go:199-205 | a publish failure after the update answers 500, queues nothing, and keeps the new status |
| `PaymentProcessor.GetOrder` | process_payment/main.go:45-73 | returns the stored payment, or the zero payment when there is none |
| `PaymentProcessor.ProcessPayment` | process_payment/main.go:75-117 | applies the status update and returns the item as stored afterwards |
| `PaymentProcessor.SendToQueue` | process_payment/main.go:119-141 | appends `PaymentProcessed{OrderId}` of the payment, unless the send fails |
| `PaymentProcessor.Handler` | process_payment/main.go:143-217 | the imperative handler leaves exactly the state and response of `Step` |
| `ShippingActivator.Shipped` | payment_processed/main.go:29-60 | sets `ShippingReady` at the event's id and keeps every other field of an existing order. It creates a bare ready item when none exists. Other orders are unchanged |
| `ShippingActivator.ShippedIdempotent` | payment_processed/main.go:31 | applying the same event twice equals applying it once |
| `ShippingActivator.Batch` | payment_processed/main.go:68-82 | the loop returns no error exactly when every record parsed and was written; it never returns a session error; it never removes an order |
| `ShippingActivator.Consume` | payment_processed/main.go:62-83 | a session error is returned exactly when the session set-up fails, and then the table is unchanged; no error is returned exactly when the session opens and every record parsed and was written |
| `ShippingActivator.BatchPrefix` | payment_processed/main.go:68-82 | records are handled in order: the batch applies exactly the records before the first failing one, and returns that record's error or none |
| `ShippingActivator.SingleRecord` | payment_processed/main.go:62-83 | a batch of one good record applies its event and returns no error |
| `ShippingActivator.EmptyBatch` | payment_processed/main.go:62-83 | an empty batch changes nothing and returns no error |
| `ShippingActivator.MarkAllMonotone` | payment_processed/main.go:46-52 | applying events never removes an order and never changes a field other than `ShippingReady`. A ready order stays ready, and every event's order ends up ready |
| `ShippingActivator.MarkAllFixedPoint` | payment_processed/main.go:31 | events whose orders are all present and ready change nothing |
| `ShippingActivator.MarkAllIdempotent` | payment_processed/main.go:68-81 | redelivering a whole run of events leaves the table as delivering it once |
| `ShippingActivator.BatchRedelivery` | payment_processed/main.go:68-82 | a batch delivered again, whether or not it failed, leaves the orders table and the error as the first delivery did |
| `ShippingActivator.MarkAllAppend` | payment_processed/main.go:68-81 | applying two runs one after the other equals applying the joined run |
| `ShippingActivator.BatchRetry` | payment_processed/main.go:68-82 | a failed batch retried with the same messages, where the retry gets at least as far, ends with the table and error of the retry alone |
| `ShippingActivator.UpdateOrder` | payment_processed/main.go:29-60 | applies the flag update, unless building the expression, marshalling or the update fails |
| `ShippingActivator.Handler` | payment_processed/main.go:62-83 | a session failure returns before any record. Otherwise the imperative loop leaves exactly the table and error of `Batch` |
| `Saga.CreateOrderKeepsInv` | create_order/main.go:101-151 | with a fresh id, CreateOrder keeps the system invariant, whatever fails |
| `Saga.RecordAllKeepsInv` | order_created/main.go:60-73 | recording events taken from the orders queue keeps the system invariant |
| `Saga.RecordKeepsInv` | order_created/main.go:59-76 | the OrderCreated consumer, fed from the orders queue, keeps the system invariant: every payment belongs to a stored order and carries its price |
| `Saga.ProcessPaymentKeepsInv` | process_payment/main.go:143-217 | ProcessPayment keeps the system invariant, whatever fails; every published event names a stored payment |
| `Saga.MarkAllKeepsInv` | payment_processed/main.go:68-81 | applying events taken from the payments queue keeps the invariant and adds no order |
| `Saga.ShipKeepsInv` | payment_processed/main.go:62-83 | the PaymentProcessed consumer, fed from the payments queue, keeps the invariant and never takes the upsert path. An order is ready only if a PaymentProcessed event for it was published |
| `Saga.IncompleteLeftOnlyByProcessPayment` | order_created/main.go:36-40 | CreateOrder, the OrderCreated consumer and the PaymentProcessed consumer never move a payment out of `"incomplete"` |
| `Saga.ShippingReadyMonotone` | payment_processed/main.go:31 | no run of the PaymentProcessed consumer clears `ShippingReady` |
| `Saga.EndToEnd` | create_order/main.go:101-151 | with no failures, the four steps chain: create returns the order, not ready; recording its event gives an incomplete payment at its price; processing returns the payment with the new status and publishes; applying that event makes the order ready. The invariant holds at the end |
| `Saga.WidgetExample` | create_order/main.go:122 | user u1 orders 2 widgets for 500: the payment is `incomplete` at 500, then `completed`, and the order ends ready to ship |
| `Saga.RedeliveryReopensPayment` | order_created/main.go:48-51 | redelivering OrderCreated after processing resets the payment to `"incomplete"`. ProcessPayment then succeeds again and publishes a second event |

## Left out

- AWS session and client set-up (`initAwsSession`, `initSession`, `GetQueueUrl`, `lambda.Start`, `main`): a failed set-up is the `session` fault. The OrderCreated consumer sets up its session in `main`, outside the handler, so it has no such fault.
- JSON and DynamoDB attribute (un)marshalling and the `String()` methods: request and record bodies arrive already parsed (`Option`). Marshal errors are folded into the failure flag of the call they belong to. Response bodies are the records themselves, not their JSON text.
- The `panic` on a `MarshalMap` error in `AddOrder`, and the `log.Fatalf` on a response-marshal error at the end of ProcessPayment: marshalling these flat records does not fail, so the model omits both paths.
- PaymentProcessor.ProcessPayment: an error from decoding the attributes that UpdateItem returns (process_payment/main.go:109-113) comes after the update has been stored. In the code the new status persists and the process exits through `log.Fatalf` at line 111, so the handler never answers. Under the reading of `log.Fatalf` used throughout, that exit is the 500 "Error processing payment" that follows. The model folds this error into the write-failure flag, which leaves the table unchanged. The path is omitted because the item just written always decodes.
- Empty keys: DynamoDB refuses an item whose key is the empty string, so a request or record whose order id is empty (a body `{}` parses to one) fails at the store. The model has no such rule: the write-failure flag is free, so it can store a payment or order under key `""`. The system invariant `Saga.Inv` does not depend on keys being non-empty.
- Process termination by `log.Fatalf`: modelled as the error return written after it.
- `uuid.New()`: the id is a parameter. Lemmas that need a fresh id require `id !in orders`.
- Go integer widths (`int`, `int64`): numbers are unbounded integers. No arithmetic is done on them, and range checks belong to JSON parsing.
- PaymentProcessor.ProcessedThenRejected: reads are modelled as strongly consistent, since `Lookup` always sees the latest table. GetOrder's GetItem (process_payment/main.go:55-58) does not set `ConsistentRead`, so DynamoDB may serve it from a replica that has not yet applied an earlier UpdateItem. A second call made shortly after a successful first one can then still read `"incomplete"` and succeed again, without any concurrency. The lemma holds for the real system only when the second call's GetItem sees the first call's UpdateItem.
- Concurrency: two ProcessPayment calls racing between the read and the unconditional update cannot be expressed in this sequential model. "At most one success" is proved only for two consecutive ProcessPayment calls, with no OrderCreated redelivery between them, where the first call sets a status other than `"incomplete"`.
- Message delivery by SQS (visibility, retries, ordering across batches): a consumer receives an explicit list of records. The system lemmas assume each record was published on the matching queue.
