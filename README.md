# Food-delivery order saga, modelled in Dafny

This project models the order-lifecycle saga of a food-delivery system built from four services that talk over Kafka:

- the **order service** creates an order, asks the payment service to authorize it, and then drives the kitchen and the delivery service with commands. It reacts to their events until the order is COMPLETED, CANCELLED or FAILED, compensating with a refund where a payment was taken.
- the **payment service** authorizes and refunds payments.
- the **kitchen service** accepts or rejects a preparation ticket and reports progress.
- the **delivery service** assigns a driver and reports the delivery's progress.

The model covers these parts of the system.

- the saga state machine;
- the order aggregate;
- the money and identifier primitives;
- the message families and their Avro record mappers, where records are abstract field maps and no bytes are modelled;
- the order service's publishers, consumers and both orchestrators (plain and Avro);
- the payment aggregate and controller;
- the kitchen ticket and its two command listeners;
- the delivery aggregate and its two command listeners.

Where the source updates objects in place, the model is imperative. Orders, payments, tickets, deliveries, the orchestrators, the publishers, the listeners and the payment controller are classes. Their methods carry `modifies` clauses and state their effect as a pure function of the old state (a "view"). Everything the source computes without side effects is a function: the state machine, the codecs, the routing and the handler specifications. The properties are lemmas about these functions.

Messages sent to Kafka are appended to an outbox sequence of (topic, key, message) triples. The repositories are sequences or maps of entities. Clocks, random UUIDs, `Math.random()`, `(30..45).random()` and the payment service's HTTP response are parameters.

Modules, one per file: `Wrappers`, `Digits`, `Decimals` (java.math.BigDecimal), `DomainPrimitives`, `CommonDtos`, `Saga`, `Enums`, `Events`, `AvroCommon`, `KitchenAvro`, `DeliveryAvro`, `OrderAvro`, `Orders`, `Publishing`, `SagaSteps`, `Orchestration`, `AvroOrchestration`, `Consumers`, `Repositories`, `Payments`, `Kitchen`, `Deliveries`.

Two behaviours of the code worth knowing. `isValidTransition` (shared-kernel/src/main/kotlin/com/fooddelivery/shared/saga/SagaState.kt:39) is never called by the orchestrators:

- `Order.updateStatus` records the reason only for CANCELLED. An order that becomes FAILED therefore keeps its previous `cancellationReason` (`Orders.UpdatedStatusEffect`, `SagaSteps.DeliveryFailedEffect`).
- No handler checks the saga state. Events for a terminal order still apply, and a repeated compensation repeats the refund (`SagaSteps.CompletionAfterCancellation`, `SagaSteps.DuplicateCompensationRepeatsRefund`).

## Model

| member | source | states |
|---|---|---|
| Saga.ValidTransitionsAreTheTable | shared-kernel/src/main/kotlin/com/fooddelivery/shared/saga/SagaState.kt:39-48 | isValidTransition holds exactly for the twelve listed (from, to) variant pairs |
| Saga.TableSize | shared-kernel/src/main/kotlin/com/fooddelivery/shared/saga/SagaState.kt:39-48 | the table of legal transitions has exactly 12 of the 64 variant pairs |
| Saga.TerminalStatesHaveNoSuccessor | shared-kernel/src/main/kotlin/com/fooddelivery/shared/saga/SagaState.kt:45-47 | Completed, Cancelled and Failed have no legal successor |
| Saga.IsTerminalIsLastThree | shared-kernel/src/main/kotlin/com/fooddelivery/shared/saga/SagaState.kt:69-71 | isTerminal holds exactly for Completed, Cancelled and Failed |
| Saga.ValidTransitionShape | shared-kernel/src/main/kotlin/com/fooddelivery/shared/saga/SagaState.kt:39-48 | a legal step starts from a non-terminal state, changes the variant and never enters Created |
| Saga.TransitionIgnoresPayload | shared-kernel/src/main/kotlin/com/fooddelivery/shared/saga/SagaState.kt:39-44 | legality depends on the variants only, never on reasons or timestamps |
| Saga.NonTerminalCanBeCancelled | shared-kernel/src/main/kotlin/com/fooddelivery/shared/saga/SagaState.kt:40-44 | every non-terminal state may step to Cancelled |
| Saga.DisplayNameIdentifiesVariant | shared-kernel/src/main/kotlin/com/fooddelivery/shared/saga/SagaState.kt:55-64 | two states have the same display name iff they are the same variant |
| Orders.ToSagaState | order-service/src/main/kotlin/com/fooddelivery/order/domain/Order.kt:129-138 | the saga state of a status has the status's own name, and is terminal iff the status is COMPLETED, CANCELLED or FAILED |
| Orders.ToSagaStateIsInjective | order-service/src/main/kotlin/com/fooddelivery/order/domain/Order.kt:129-138 | distinct statuses map to distinct saga variants |
| Orders.ToOrderItem | order-service/src/main/kotlin/com/fooddelivery/order/domain/Order.kt:108-113 | converting an item entity succeeds iff its productId is not blank and its unitPrice is not negative, and then keeps every field |
| Orders.ToOrderItems | order-service/src/main/kotlin/com/fooddelivery/order/domain/Order.kt:81 | mapping the lines succeeds iff every line converts; then the i-th item is the i-th line's conversion; otherwise the error is that of the first line that fails |
| Orders.ToOrderItemsOfEntities | order-service/src/main/kotlin/com/fooddelivery/order/domain/Order.kt:81 | mapping toOrderItem over the entities of a list of items gives back that list, in order |
| Orders.NewOrderIsCreated | order-service/src/main/kotlin/com/fooddelivery/order/domain/Order.kt:15-55 | a new order is CREATED, has no transactionId, ticketId, deliveryId, cancellationReason, completedAt or items, and createdAt equals updatedAt |
| Orders.UpdatedStatusEffect | order-service/src/main/kotlin/com/fooddelivery/order/domain/Order.kt:64-73 | updateStatus sets the status and updatedAt. It records the reason only for CANCELLED and stamps completedAt only for COMPLETED. Every other field is unchanged |
| Orders.Order.constructor | order-service/src/main/kotlin/com/fooddelivery/order/domain/Order.kt:15-56 | the new object's view is the new-order view |
| Orders.Order.AddItem | order-service/src/main/kotlin/com/fooddelivery/order/domain/Order.kt:53-55 | appends one line to items and changes nothing else |
| Orders.EntitiesOf | order-service/src/main/kotlin/com/fooddelivery/order/application/OrderSagaOrchestrator.kt:67-76 | one item entity per requested item, in order, each copying that item's fields |
| Orders.Order.UpdateStatus | order-service/src/main/kotlin/com/fooddelivery/order/domain/Order.kt:64-73 | the object's new view is the updateStatus function applied to the old view |
| Orders.Order.ToSummary | order-service/src/main/kotlin/com/fooddelivery/order/domain/Order.kt:78-84 | the summary exists iff every line converts, the total is not negative and the address is not blank; it then carries the order's ids, total, address and one item per line |
| Orders.SummaryKeepsItems | order-service/src/main/kotlin/com/fooddelivery/order/domain/Order.kt:78-84 | the summary of an order built from a list of items carries exactly those items |
| DomainPrimitives.PlusSeconds | order-service/src/main/kotlin/com/fooddelivery/order/application/OrderSagaOrchestrator.kt:135 | Instant.plusSeconds moves the instant by the given number of seconds, in milliseconds |
| DomainPrimitives.UuidRoundTrip | shared-kernel/src/main/kotlin/com/fooddelivery/shared/domain/DomainPrimitives.kt:15-18 | parsing the canonical text of a UUID gives back that UUID |
| DomainPrimitives.UuidFromString | shared-kernel/src/main/kotlin/com/fooddelivery/shared/domain/DomainPrimitives.kt:15 | UUID.fromString succeeds exactly on canonical 36-character UUID text |
| DomainPrimitives.UuidHexOfToString | shared-kernel/src/main/kotlin/com/fooddelivery/shared/domain/DomainPrimitives.kt:18 | UUID.toString gives canonical text whose hex digits are the UUID's 32 hex digits |
| DomainPrimitives.OrderId.FromString | shared-kernel/src/main/kotlin/com/fooddelivery/shared/domain/DomainPrimitives.kt:15 | OrderId.fromString succeeds exactly on canonical UUID text |
| DomainPrimitives.CustomerId.FromString | shared-kernel/src/main/kotlin/com/fooddelivery/shared/domain/DomainPrimitives.kt:25 | CustomerId.fromString succeeds exactly on canonical UUID text |
| DomainPrimitives.TicketId.FromString | shared-kernel/src/main/kotlin/com/fooddelivery/shared/domain/DomainPrimitives.kt:48 | TicketId.fromString succeeds exactly on canonical UUID text |
| DomainPrimitives.DeliveryId.FromString | shared-kernel/src/main/kotlin/com/fooddelivery/shared/domain/DomainPrimitives.kt:58 | DeliveryId.fromString succeeds exactly on canonical UUID text |
| DomainPrimitives.OrderIdRoundTrip | shared-kernel/src/main/kotlin/com/fooddelivery/shared/domain/DomainPrimitives.kt:15-18 | OrderId.fromString(id.toString()) is id |
| DomainPrimitives.CustomerIdRoundTrip | shared-kernel/src/main/kotlin/com/fooddelivery/shared/domain/DomainPrimitives.kt:25-28 | CustomerId.fromString(id.toString()) is id |
| DomainPrimitives.TicketIdRoundTrip | shared-kernel/src/main/kotlin/com/fooddelivery/shared/domain/DomainPrimitives.kt:48-51 | TicketId.fromString(id.toString()) is id |
| DomainPrimitives.DeliveryIdRoundTrip | shared-kernel/src/main/kotlin/com/fooddelivery/shared/domain/DomainPrimitives.kt:58-61 | DeliveryId.fromString(id.toString()) is id |
| DomainPrimitives.TransactionIdOf | shared-kernel/src/main/kotlin/com/fooddelivery/shared/domain/DomainPrimitives.kt:33-35 | TransactionId construction succeeds iff the string is not blank, keeps the string, and otherwise fails with the source's message |
| DomainPrimitives.ProductIdOf | shared-kernel/src/main/kotlin/com/fooddelivery/shared/domain/DomainPrimitives.kt:90-92 | ProductId construction succeeds iff the string is not blank, keeps the string, and otherwise fails with the source's message |
| DomainPrimitives.AddressOf | shared-kernel/src/main/kotlin/com/fooddelivery/shared/domain/DomainPrimitives.kt:99-101 | Address construction succeeds iff the string is not blank, keeps the string, and otherwise fails with the source's message |
| DomainPrimitives.BlankStringsRejected | shared-kernel/src/main/kotlin/com/fooddelivery/shared/domain/DomainPrimitives.kt:33-35 | empty and whitespace-only strings are rejected by all three wrappers, and a string with a letter is accepted |
| DomainPrimitives.AmountOf | shared-kernel/src/main/kotlin/com/fooddelivery/shared/domain/DomainPrimitives.kt:66-68 | a MonetaryAmount can be built exactly from a non-negative decimal |
| DomainPrimitives.Plus | shared-kernel/src/main/kotlin/com/fooddelivery/shared/domain/DomainPrimitives.kt:70-71 | plus is the exact sum, never negative, at the larger scale |
| DomainPrimitives.Minus | shared-kernel/src/main/kotlin/com/fooddelivery/shared/domain/DomainPrimitives.kt:73-74 | minus succeeds iff other is at most this, and is then the exact difference |
| DomainPrimitives.Times | shared-kernel/src/main/kotlin/com/fooddelivery/shared/domain/DomainPrimitives.kt:76-77 | times(q) succeeds iff the product is not negative, and is then exactly value × q at the same scale |
| DomainPrimitives.AmountOfString | shared-kernel/src/main/kotlin/com/fooddelivery/shared/domain/DomainPrimitives.kt:82 | MonetaryAmount.of(String) succeeds exactly when the text parses as a decimal that is not negative, and is then that decimal, scale included |
| DomainPrimitives.AmountPlainStringRoundTrip | shared-kernel/src/main/kotlin/com/fooddelivery/shared/avro/OrderAvroMapper.kt:26 | an amount written with toPlainString reads back, through MonetaryAmount.of(String), as the same amount, scale included |
| DomainPrimitives.ZeroIsPlusIdentity | shared-kernel/src/main/kotlin/com/fooddelivery/shared/domain/DomainPrimitives.kt:80 | ZERO is a left and right identity of plus |
| DomainPrimitives.AmountsEqualByValue | shared-kernel/src/main/kotlin/com/fooddelivery/shared/domain/DomainPrimitives.kt:65 | two amounts with the same value and scale are equal |
| Decimals.Add | shared-kernel/src/main/kotlin/com/fooddelivery/shared/domain/DomainPrimitives.kt:71 | BigDecimal addition is exact and takes the larger scale |
| Decimals.Subtract | shared-kernel/src/main/kotlin/com/fooddelivery/shared/domain/DomainPrimitives.kt:74 | BigDecimal subtraction is exact and takes the larger scale |
| Decimals.MultiplyInt | shared-kernel/src/main/kotlin/com/fooddelivery/shared/domain/DomainPrimitives.kt:77 | multiplying by quantity.toBigDecimal() is exact and keeps the scale |
| Decimals.CompareTo | shared-kernel/src/main/kotlin/com/fooddelivery/shared/domain/DomainPrimitives.kt:67 | compareTo returns -1, 0 or 1 exactly as the value is smaller, equal or larger |
| Decimals.PlainStringRoundTrip | shared-kernel/src/main/kotlin/com/fooddelivery/shared/avro/OrderAvroMapper.kt:66 | BigDecimal(toPlainString()) gives back the same unscaled value and scale |
| Digits.NatToString | delivery-service/src/main/kotlin/com/fooddelivery/delivery/domain/Delivery.kt:51 | the decimal text of a natural number is all digits, has no leading zero, and denotes that number |
| CommonDtos.TotalPrice | shared-kernel/src/main/kotlin/com/fooddelivery/shared/domain/CommonDtos.kt:14-15 | totalPrice, where defined, is exactly unitPrice × quantity |
| CommonDtos.TotalPriceDefinedForNonNegativeQuantity | shared-kernel/src/main/kotlin/com/fooddelivery/shared/domain/CommonDtos.kt:14-15 | totalPrice is defined and not negative whenever quantity is not negative |
| CommonDtos.TotalPriceUndefinedForNegativeQuantity | shared-kernel/src/main/kotlin/com/fooddelivery/shared/domain/CommonDtos.kt:14-15 | a negative quantity with a positive price makes totalPrice throw |
| CommonDtos.TotalPriceOfZeroQuantity | shared-kernel/src/main/kotlin/com/fooddelivery/shared/domain/CommonDtos.kt:14-15 | a quantity of zero prices at zero |
| CommonDtos.LineTotalSumIsExact | order-service/src/main/kotlin/com/fooddelivery/order/application/OrderSagaOrchestrator.kt:64 | the orchestrator's BigDecimal fold over the items equals the exact sum of unitPrice × quantity |
| CommonDtos.SumOfTotalPricesIsLineTotal | order-service/src/main/kotlin/com/fooddelivery/order/application/OrderSagaOrchestrator.kt:64 | with no negative quantity, summing totalPrice over the items gives the total the orchestrator computes |
| Enums.TopicNamesDistinct | shared-kernel/src/main/kotlin/com/fooddelivery/shared/events/KafkaConstants.kt:10-18 | the five Kafka topic names are distinct |
| Enums.PaymentStatusNamesDistinct | shared-kernel/src/main/kotlin/com/fooddelivery/shared/domain/Enums.kt:16-22 | the five payment status names are distinct |
| SagaSteps.Settle | order-service/src/main/kotlin/com/fooddelivery/order/application/OrderSagaOrchestrator.kt:81-117 | the payment step changes only the order's status, transaction id, cancellation reason and updatedAt |
| SagaSteps.InitiateSavesBegun | order-service/src/main/kotlin/com/fooddelivery/order/application/OrderSagaOrchestrator.kt:32-57 | initiateSaga fails exactly when its non-saving part does, and otherwise saves that order under its id with the same sends and no refund |
| SagaSteps.InitiateCases | order-service/src/main/kotlin/com/fooddelivery/order/application/OrderSagaOrchestrator.kt:32-57 | initiateSaga spelled out: the negative-total failure, or the saved order, OrderCreated and the payment step's single message |
| SagaSteps.InitiateNeedsNonNegativeTotal | order-service/src/main/kotlin/com/fooddelivery/order/application/OrderSagaOrchestrator.kt:40-44 | the saga starts iff the summed total is not negative; otherwise MonetaryAmount's check fails and nothing is stored or sent |
| SagaSteps.InitiateCreatesOrder | order-service/src/main/kotlin/com/fooddelivery/order/application/OrderSagaOrchestrator.kt:60-79 | the new order holds the request's customer, address, and lines in order, with the exact sum of unitPrice × quantity; OrderCreated with that total is sent first; the payment service is asked exactly once to authorize that total for the new order with the request's payment method; no other order changes and no refund is made |
| SagaSteps.InitiateAuthorized | order-service/src/main/kotlin/com/fooddelivery/order/application/OrderSagaOrchestrator.kt:93-117 | an AUTHORIZED payment leaves the order KITCHEN_PENDING with the response's transaction id and no reason, and sends one PrepareOrder with the request's items and priority 0; no cancellation is published |
| SagaSteps.InitiateRejected | order-service/src/main/kotlin/com/fooddelivery/order/application/OrderSagaOrchestrator.kt:101-106 | any other payment status cancels the order with "Payment <status>: <message>", leaves the transaction id empty, publishes OrderCancelled("Payment rejected") and sends no kitchen command |
| SagaSteps.InitiatePathsAreLegal | order-service/src/main/kotlin/com/fooddelivery/order/application/OrderSagaOrchestrator.kt:82-111 | the statuses initiateSaga walks through are legal saga transitions |
| SagaSteps.UnknownOrderIsIgnored | order-service/src/main/kotlin/com/fooddelivery/order/application/OrderSagaOrchestrator.kt:211-216 | for an unknown order id, every handler changes nothing and sends nothing |
| SagaSteps.KitchenAcceptedEffect | order-service/src/main/kotlin/com/fooddelivery/order/application/OrderSagaOrchestrator.kt:127-143 | onKitchenAccepted sets the ticket id and DELIVERY_PENDING and sends one ScheduleDelivery to delivery.commands, with the stored address and pickup at now plus estimatedMinutes minutes; a blank stored address fails and rolls back |
| SagaSteps.KitchenRejectedEffect | order-service/src/main/kotlin/com/fooddelivery/order/application/OrderSagaOrchestrator.kt:146-165 | onKitchenRejected refunds once iff the order holds a transaction id, with that id and "Kitchen rejected: r"; it then cancels with that reason and publishes OrderCancelled(r); only this order changes |
| SagaSteps.DeliveryFailedEffect | order-service/src/main/kotlin/com/fooddelivery/order/application/OrderSagaOrchestrator.kt:190-209 | onDeliveryFailed refunds once iff the order holds a transaction id, with "Delivery failed: r"; the order becomes FAILED and keeps its old cancellation reason; it publishes OrderCancelled(r) |
| SagaSteps.DeliveryScheduledEffect | order-service/src/main/kotlin/com/fooddelivery/order/application/OrderSagaOrchestrator.kt:168-175 | onDeliveryScheduled changes only the delivery id (not even updatedAt) and sends nothing |
| SagaSteps.DeliveryCompletedEffect | order-service/src/main/kotlin/com/fooddelivery/order/application/OrderSagaOrchestrator.kt:178-187 | onDeliveryCompleted sets COMPLETED, stamps completedAt, keeps the reason and publishes one OrderCompleted |
| SagaSteps.HandlerStepsLegality | order-service/src/main/kotlin/com/fooddelivery/order/application/OrderSagaOrchestrator.kt:126-209 | each handler's target status is a legal step only from the status the saga expects there |
| SagaSteps.CompletionAfterCancellation | order-service/src/main/kotlin/com/fooddelivery/order/application/OrderSagaOrchestrator.kt:178-187 | a cancelled order still becomes COMPLETED on DeliveryCompleted, although the saga forbids that step |
| SagaSteps.DuplicateCompensationRepeatsRefund | order-service/src/main/kotlin/com/fooddelivery/order/application/OrderSagaOrchestrator.kt:146-209 | a redelivered rejection or failure repeats the same refund call |
| Orchestration.CreateOrder | order-service/src/main/kotlin/com/fooddelivery/order/application/OrderSagaOrchestrator.kt:60-77 | the loop builds a new order whose view is the request's order, lines appended one by one in order |
| Orchestration.SavedInPlace | order-service/src/main/kotlin/com/fooddelivery/order/application/OrderSagaOrchestrator.kt:78 | saving an order changed in place updates its own repository entry and no other |
| Orchestration.StoreOfInsert | order-service/src/main/kotlin/com/fooddelivery/order/application/OrderSagaOrchestrator.kt:78 | saving a new order adds its entry and keeps all others |
| Orchestration.PaymentClient.constructor | order-service/src/main/kotlin/com/fooddelivery/order/infrastructure/client/PaymentClient.kt:15-18 | the client starts with no authorization or refund requests logged |
| Orchestration.PaymentClient.Authorize | order-service/src/main/kotlin/com/fooddelivery/order/infrastructure/client/PaymentClient.kt:29-51 | each authorization request is logged once, in order, and the refund log is untouched; the answer comes from the caller |
| Orchestration.PaymentClient.Refund | order-service/src/main/kotlin/com/fooddelivery/order/infrastructure/client/PaymentClient.kt:56-77 | each refund request is logged once, in order; its answer is never read |
| Orchestration.OrderSagaOrchestrator.constructor | order-service/src/main/kotlin/com/fooddelivery/order/application/OrderSagaOrchestrator.kt:20-24 | the orchestrator starts with an empty repository and the given publisher and payment client |
| Orchestration.OrderSagaOrchestrator.FindOrder | order-service/src/main/kotlin/com/fooddelivery/order/application/OrderSagaOrchestrator.kt:211-216 | findOrder returns the stored order iff its id is in the repository |
| Orchestration.OrderSagaOrchestrator.InitiateSaga | order-service/src/main/kotlin/com/fooddelivery/order/application/OrderSagaOrchestrator.kt:32-58 | the repository, outbox and authorization log change exactly as SagaSteps.Initiate says, no refund is requested, and a failure (a negative total) leaves them all unchanged, with no authorization asked for |
| Orchestration.OrderSagaOrchestrator.BeginSaga | order-service/src/main/kotlin/com/fooddelivery/order/application/OrderSagaOrchestrator.kt:36-56 | createOrder, OrderCreated and the payment step yield the order and sends of SagaSteps.Begin and one authorization request for the request's total and payment method; a negative total stops before the payment service is asked |
| Orchestration.OrderSagaOrchestrator.SettlePayment | order-service/src/main/kotlin/com/fooddelivery/order/application/OrderSagaOrchestrator.kt:47-56 | processPayment and, once authorized, sendToKitchen change the order and outbox as SagaSteps.Settle says, after one authorization request for the order's id and total |
| Orchestration.OrderSagaOrchestrator.ProcessPayment | order-service/src/main/kotlin/com/fooddelivery/order/application/OrderSagaOrchestrator.kt:81-108 | processPayment sets PAYMENT_PENDING and sends one authorization request holding the order's id, its total and the given payment method. It returns true iff the answer is AUTHORIZED, and then records the transaction and sets PAID; otherwise it cancels with the rejection reason and publishes OrderCancelled |
| Orchestration.OrderSagaOrchestrator.SendToKitchen | order-service/src/main/kotlin/com/fooddelivery/order/application/OrderSagaOrchestrator.kt:110-120 | sendToKitchen sets KITCHEN_PENDING and sends one PrepareOrder with the order's lines, converted |
| Orchestration.OrderSagaOrchestrator.OnKitchenAccepted | order-service/src/main/kotlin/com/fooddelivery/order/application/OrderSagaOrchestrator.kt:126-143 | the store and outbox change as SagaSteps.KitchenAcceptedStep says, or not at all when it fails |
| Orchestration.OrderSagaOrchestrator.OnKitchenRejected | order-service/src/main/kotlin/com/fooddelivery/order/application/OrderSagaOrchestrator.kt:145-165 | store, outbox and refund log change as SagaSteps.KitchenRejectedStep says |
| Orchestration.OrderSagaOrchestrator.OnDeliveryScheduled | order-service/src/main/kotlin/com/fooddelivery/order/application/OrderSagaOrchestrator.kt:167-175 | the store changes as SagaSteps.DeliveryScheduledStep says, and nothing is sent |
| Orchestration.OrderSagaOrchestrator.OnDeliveryCompleted | order-service/src/main/kotlin/com/fooddelivery/order/application/OrderSagaOrchestrator.kt:177-187 | store and outbox change as SagaSteps.DeliveryCompletedStep says |
| Orchestration.OrderSagaOrchestrator.OnDeliveryFailed | order-service/src/main/kotlin/com/fooddelivery/order/application/OrderSagaOrchestrator.kt:189-209 | store, outbox and refund log change as SagaSteps.DeliveryFailedStep says |
| Orchestration.OrderSagaOrchestrator.RefundAndCancel | order-service/src/main/kotlin/com/fooddelivery/order/application/OrderSagaOrchestrator.kt:152-164 | the compensation: a refund iff a transaction id is held, then updateStatus with the cause, then OrderCancelled(reason) |
| AvroOrchestration.AvroOrderSagaOrchestrator.constructor | order-service/src/main/kotlin/com/fooddelivery/order/application/AvroOrderSagaOrchestrator.kt:14-18 | the orchestrator starts with an empty repository and the given Avro publisher and payment client |
| AvroOrchestration.AvroOrderSagaOrchestrator.FindOrder | order-service/src/main/kotlin/com/fooddelivery/order/application/AvroOrderSagaOrchestrator.kt:190-195 | findOrder returns the stored order iff its id is in the repository |
| AvroOrchestration.AvroOrderSagaOrchestrator.InitiateSaga | order-service/src/main/kotlin/com/fooddelivery/order/application/AvroOrderSagaOrchestrator.kt:22-44 | same store and authorization-log effect as SagaSteps.Initiate and no refund, with the outbox holding the Avro encodings of its sends |
| AvroOrchestration.AvroOrderSagaOrchestrator.BeginSaga | order-service/src/main/kotlin/com/fooddelivery/order/application/AvroOrderSagaOrchestrator.kt:25-40 | the order and encoded sends of SagaSteps.Begin, and one authorization request for the request's total and payment method unless the total is negative |
| AvroOrchestration.AvroOrderSagaOrchestrator.SettlePayment | order-service/src/main/kotlin/com/fooddelivery/order/application/AvroOrderSagaOrchestrator.kt:34-41 | the order and encoded send of SagaSteps.Settle, after one authorization request for the order's id and total |
| AvroOrchestration.AvroOrderSagaOrchestrator.ProcessPayment | order-service/src/main/kotlin/com/fooddelivery/order/application/AvroOrderSagaOrchestrator.kt:67-94 | one authorization request with the order's id, total and the given payment method; returns true iff AUTHORIZED, with the plain orchestrator's order update and the encoded OrderCancelled otherwise |
| AvroOrchestration.AvroOrderSagaOrchestrator.SendToKitchen | order-service/src/main/kotlin/com/fooddelivery/order/application/AvroOrderSagaOrchestrator.kt:96-106 | sets KITCHEN_PENDING and sends the encoded PrepareOrder with the order's lines |
| AvroOrchestration.AvroOrderSagaOrchestrator.OnKitchenAccepted | order-service/src/main/kotlin/com/fooddelivery/order/application/AvroOrderSagaOrchestrator.kt:108-124 | the store changes as SagaSteps.KitchenAcceptedStep says and the outbox gets its sends encoded, or nothing changes when the step fails |
| AvroOrchestration.AvroOrderSagaOrchestrator.OnKitchenRejected | order-service/src/main/kotlin/com/fooddelivery/order/application/AvroOrderSagaOrchestrator.kt:126-145 | the effect of SagaSteps.KitchenRejectedStep, sends encoded |
| AvroOrchestration.AvroOrderSagaOrchestrator.OnDeliveryScheduled | order-service/src/main/kotlin/com/fooddelivery/order/application/AvroOrderSagaOrchestrator.kt:147-155 | the effect of SagaSteps.DeliveryScheduledStep |
| AvroOrchestration.AvroOrderSagaOrchestrator.OnDeliveryCompleted | order-service/src/main/kotlin/com/fooddelivery/order/application/AvroOrderSagaOrchestrator.kt:157-167 | the effect of SagaSteps.DeliveryCompletedStep, sends encoded |
| AvroOrchestration.AvroOrderSagaOrchestrator.OnDeliveryFailed | order-service/src/main/kotlin/com/fooddelivery/order/application/AvroOrderSagaOrchestrator.kt:169-188 | the effect of SagaSteps.DeliveryFailedStep, sends encoded |
| AvroOrchestration.AvroOrderSagaOrchestrator.RefundAndCancel | order-service/src/main/kotlin/com/fooddelivery/order/application/AvroOrderSagaOrchestrator.kt:133-144 | the compensation, with OrderCancelled encoded |
| Publishing.SendRouting | order-service/src/main/kotlin/com/fooddelivery/order/infrastructure/messaging/OrderEventPublisher.kt:22-109 | kitchen commands go to kitchen.commands, delivery commands to delivery.commands and order events to order.events; every key is the order id's text and parses back to the message's own order id |
| Publishing.DecodeEncode | order-service/src/main/kotlin/com/fooddelivery/order/infrastructure/messaging/AvroOrderEventPublisher.kt:25-103 | the mapper encoding of every outbound message decodes, with the matching mapper, to that message |
| Publishing.EncodedSendDecodes | order-service/src/main/kotlin/com/fooddelivery/order/infrastructure/messaging/AvroOrderEventPublisher.kt:17-30 | an encoded send keeps its topic and key, and its payload decodes to the message sent |
| Publishing.EncodeAllSentAppend | order-service/src/main/kotlin/com/fooddelivery/order/infrastructure/messaging/AvroOrderEventPublisher.kt:17-107 | encoding a sequence of sends encodes each in turn, so encoding distributes over concatenation |
| Publishing.OrderEventPublisher.constructor | order-service/src/main/kotlin/com/fooddelivery/order/infrastructure/messaging/OrderEventPublisher.kt:14-16 | the publisher starts with nothing sent |
| Publishing.OrderEventPublisher.SendPrepareOrder | order-service/src/main/kotlin/com/fooddelivery/order/infrastructure/messaging/OrderEventPublisher.kt:22-32 | appends exactly one PrepareOrder with the items and priority to kitchen.commands |
| Publishing.OrderEventPublisher.SendCancelTicket | order-service/src/main/kotlin/com/fooddelivery/order/infrastructure/messaging/OrderEventPublisher.kt:37-46 | appends exactly one CancelTicket to kitchen.commands |
| Publishing.OrderEventPublisher.SendScheduleDelivery | order-service/src/main/kotlin/com/fooddelivery/order/infrastructure/messaging/OrderEventPublisher.kt:51-61 | appends exactly one ScheduleDelivery with the address and pickup time to delivery.commands |
| Publishing.OrderEventPublisher.SendCancelDelivery | order-service/src/main/kotlin/com/fooddelivery/order/infrastructure/messaging/OrderEventPublisher.kt:66-75 | appends exactly one CancelDelivery to delivery.commands |
| Publishing.OrderEventPublisher.PublishOrderCreated | order-service/src/main/kotlin/com/fooddelivery/order/infrastructure/messaging/OrderEventPublisher.kt:80-89 | appends exactly one OrderCreated with the customer and total to order.events |
| Publishing.OrderEventPublisher.PublishOrderCompleted | order-service/src/main/kotlin/com/fooddelivery/order/infrastructure/messaging/OrderEventPublisher.kt:94-99 | appends exactly one OrderCompleted to order.events |
| Publishing.OrderEventPublisher.PublishOrderCancelled | order-service/src/main/kotlin/com/fooddelivery/order/infrastructure/messaging/OrderEventPublisher.kt:104-109 | appends exactly one OrderCancelled with the reason to order.events |
| Publishing.AvroOrderEventPublisher.constructor | order-service/src/main/kotlin/com/fooddelivery/order/infrastructure/messaging/AvroOrderEventPublisher.kt:12-14 | the publisher starts with nothing sent |
| Publishing.AvroOrderEventPublisher.SendPrepareOrder | order-service/src/main/kotlin/com/fooddelivery/order/infrastructure/messaging/AvroOrderEventPublisher.kt:17-30 | appends the encoding of the plain publisher's PrepareOrder send |
| Publishing.AvroOrderEventPublisher.SendCancelTicket | order-service/src/main/kotlin/com/fooddelivery/order/infrastructure/messaging/AvroOrderEventPublisher.kt:32-44 | appends the encoding of the plain publisher's CancelTicket send |
| Publishing.AvroOrderEventPublisher.SendScheduleDelivery | order-service/src/main/kotlin/com/fooddelivery/order/infrastructure/messaging/AvroOrderEventPublisher.kt:46-59 | appends the encoding of the plain publisher's ScheduleDelivery send |
| Publishing.AvroOrderEventPublisher.SendCancelDelivery | order-service/src/main/kotlin/com/fooddelivery/order/infrastructure/messaging/AvroOrderEventPublisher.kt:61-73 | appends the encoding of the plain publisher's CancelDelivery send |
| Publishing.AvroOrderEventPublisher.PublishOrderCreated | order-service/src/main/kotlin/com/fooddelivery/order/infrastructure/messaging/AvroOrderEventPublisher.kt:75-87 | appends the encoding of the plain publisher's OrderCreated send |
| Publishing.AvroOrderEventPublisher.PublishOrderCompleted | order-service/src/main/kotlin/com/fooddelivery/order/infrastructure/messaging/AvroOrderEventPublisher.kt:89-97 | appends the encoding of the plain publisher's OrderCompleted send |
| Publishing.AvroOrderEventPublisher.PublishOrderCancelled | order-service/src/main/kotlin/com/fooddelivery/order/infrastructure/messaging/AvroOrderEventPublisher.kt:99-107 | appends the encoding of the plain publisher's OrderCancelled send |
| Consumers.KitchenRouting | order-service/src/main/kotlin/com/fooddelivery/order/infrastructure/messaging/OrderEventConsumer.kt:25-42 | TicketAccepted calls onKitchenAccepted with the event's order, ticket and minutes; TicketRejected calls onKitchenRejected with its reason; TicketReady calls nothing |
| Consumers.DeliveryRouting | order-service/src/main/kotlin/com/fooddelivery/order/infrastructure/messaging/OrderEventConsumer.kt:51-71 | DeliveryScheduled, DeliveryCompleted and DeliveryFailed call their handlers with the event's order, delivery id or reason; DeliveryPickedUp calls nothing |
| Consumers.IgnoredEventsChangeNothing | order-service/src/main/kotlin/com/fooddelivery/order/infrastructure/messaging/OrderEventConsumer.kt:37-40 | TicketReady and DeliveryPickedUp leave the store, outbox and refund log unchanged |
| Consumers.OnlyKitchenAcceptedFails | order-service/src/main/kotlin/com/fooddelivery/order/infrastructure/messaging/OrderEventConsumer.kt:29-32 | the only inbound event whose handling can throw is TicketAccepted for a stored order with a blank address |
| Consumers.UndecodableRecordsAreIgnored | order-service/src/main/kotlin/com/fooddelivery/order/infrastructure/messaging/AvroOrderEventConsumer.kt:49-51 | a record that does not decode calls no handler and changes nothing |
| Consumers.AvroConsumersRouteLikePlainOnes | order-service/src/main/kotlin/com/fooddelivery/order/infrastructure/messaging/AvroOrderEventConsumer.kt:24-89 | on an encoded event the Avro consumer has the plain consumer's effect, except that a handler failure is swallowed and changes nothing |
| Consumers.OrderEventConsumer.constructor | order-service/src/main/kotlin/com/fooddelivery/order/infrastructure/messaging/OrderEventConsumer.kt:13-16 | the consumer is wired to the given orchestrator |
| Consumers.OrderEventConsumer.Dispatch | order-service/src/main/kotlin/com/fooddelivery/order/infrastructure/messaging/OrderEventConsumer.kt:28-41 | the orchestrator's store, outbox and refund log change as the routed call's step says, and its failure is reported |
| Consumers.OrderEventConsumer.OnKitchenEvent | order-service/src/main/kotlin/com/fooddelivery/order/infrastructure/messaging/OrderEventConsumer.kt:25-42 | the effect of the step that KitchenRouting selects; when that step throws (TicketAccepted for an order with a blank address), its error is returned and nothing changes |
| Consumers.OrderEventConsumer.OnDeliveryEvent | order-service/src/main/kotlin/com/fooddelivery/order/infrastructure/messaging/OrderEventConsumer.kt:51-71 | the effect of the step that DeliveryRouting selects; a failing step returns its error and changes nothing |
| Consumers.AvroOrderEventConsumer.constructor | order-service/src/main/kotlin/com/fooddelivery/order/infrastructure/messaging/AvroOrderEventConsumer.kt:14-17 | the consumer is wired to the given Avro orchestrator |
| Consumers.AvroOrderEventConsumer.Dispatch | order-service/src/main/kotlin/com/fooddelivery/order/infrastructure/messaging/AvroOrderEventConsumer.kt:31-51 | the routed call's effect, or no change at all when it throws |
| Consumers.AvroOrderEventConsumer.HandleKitchenEvent | order-service/src/main/kotlin/com/fooddelivery/order/infrastructure/messaging/AvroOrderEventConsumer.kt:24-52 | decode, then route; a decode or handler failure leaves everything unchanged |
| Consumers.AvroOrderEventConsumer.HandleDeliveryEvent | order-service/src/main/kotlin/com/fooddelivery/order/infrastructure/messaging/AvroOrderEventConsumer.kt:59-89 | decode, then route; a decode or handler failure leaves everything unchanged |
| KitchenAvro.ParseCommandType | shared-kernel/src/main/kotlin/com/fooddelivery/shared/avro/KitchenAvroMapper.kt:62-95 | a command type symbol is recognised only if it is the symbol of that type |
| KitchenAvro.CommandSymbolsParse | shared-kernel/src/main/kotlin/com/fooddelivery/shared/avro/KitchenAvroMapper.kt:19-21 | PREPARE_ORDER and CANCEL_TICKET are read back as the types they were written for |
| KitchenAvro.EventSymbolsParse | shared-kernel/src/main/kotlin/com/fooddelivery/shared/avro/KitchenAvroMapper.kt:108-129 | TICKET_ACCEPTED, TICKET_REJECTED and TICKET_READY are read back as the types they were written for |
| KitchenAvro.ToAvroItems | shared-kernel/src/main/kotlin/com/fooddelivery/shared/avro/KitchenAvroMapper.kt:30-39 | the loop builds one item record per item, in order, with the unit price as a plain string |
| KitchenAvro.ToAvroCommand | shared-kernel/src/main/kotlin/com/fooddelivery/shared/avro/KitchenAvroMapper.kt:14-60 | toAvro(command) fills a fresh record with exactly the command's encoding |
| KitchenAvro.ToAvroEvent | shared-kernel/src/main/kotlin/com/fooddelivery/shared/avro/KitchenAvroMapper.kt:99-138 | toAvro(event) fills a fresh record with exactly the event's encoding |
| KitchenAvro.DecodeItems | shared-kernel/src/main/kotlin/com/fooddelivery/shared/avro/KitchenAvroMapper.kt:72-79 | the item array decodes to one item per record |
| KitchenAvro.DecodeItemsSucceedsIffEveryItemDoes | shared-kernel/src/main/kotlin/com/fooddelivery/shared/avro/KitchenAvroMapper.kt:72-79 | the item array decodes iff every item record does, and then element by element |
| KitchenAvro.DecodeCommand | shared-kernel/src/main/kotlin/com/fooddelivery/shared/avro/KitchenAvroMapper.kt:62-97 | a decoded command keeps the timestamp, and its variant is the one the discriminator names |
| KitchenAvro.DecodeEvent | shared-kernel/src/main/kotlin/com/fooddelivery/shared/avro/KitchenAvroMapper.kt:140-177 | a decoded event keeps the eventId and timestamp, and its variant is the one the discriminator names |
| KitchenAvro.ItemRoundTrip | shared-kernel/src/main/kotlin/com/fooddelivery/shared/avro/KitchenAvroMapper.kt:30-39 | one order item survives encoding and decoding, its unit price exactly |
| KitchenAvro.ItemsRoundTrip | shared-kernel/src/main/kotlin/com/fooddelivery/shared/avro/KitchenAvroMapper.kt:72-79 | PrepareOrder's items survive encoding and decoding in order and count |
| KitchenAvro.CommandRoundTrip | shared-kernel/src/main/kotlin/com/fooddelivery/shared/avro/KitchenAvroMapper.kt:14-97 | fromAvroCommand(toAvro(c)) is c for PrepareOrder and CancelTicket |
| KitchenAvro.AcceptedRoundTrip | shared-kernel/src/main/kotlin/com/fooddelivery/shared/avro/KitchenAvroMapper.kt:107-116 | TicketAccepted round-trips exactly |
| KitchenAvro.RejectedRoundTrip | shared-kernel/src/main/kotlin/com/fooddelivery/shared/avro/KitchenAvroMapper.kt:117-125 | TicketRejected round-trips exactly |
| KitchenAvro.ReadyRoundTrip | shared-kernel/src/main/kotlin/com/fooddelivery/shared/avro/KitchenAvroMapper.kt:126-135 | TicketReady round-trips exactly |
| KitchenAvro.EventRoundTrip | shared-kernel/src/main/kotlin/com/fooddelivery/shared/avro/KitchenAvroMapper.kt:99-177 | fromAvroEvent(toAvro(e)) is e for every kitchen event, eventId included |
| KitchenAvro.CommandRecordShape | shared-kernel/src/main/kotlin/com/fooddelivery/shared/avro/KitchenAvroMapper.kt:19-55 | the discriminator names the command's variant, and only that variant's sub-record is set |
| KitchenAvro.EventRecordShape | shared-kernel/src/main/kotlin/com/fooddelivery/shared/avro/KitchenAvroMapper.kt:108-129 | the discriminator names the event's variant, only that variant's sub-record is set, and eventId and timestamp are written |
| KitchenAvro.UnknownCommandTypeFails | shared-kernel/src/main/kotlin/com/fooddelivery/shared/avro/KitchenAvroMapper.kt:95 | an unknown command discriminator raises an error, IllegalArgumentException once the order id parses |
| KitchenAvro.UnknownEventTypeFails | shared-kernel/src/main/kotlin/com/fooddelivery/shared/avro/KitchenAvroMapper.kt:175 | an unknown event discriminator raises an error, IllegalArgumentException once the order id parses |
| DeliveryAvro.ParseCommandType | shared-kernel/src/main/kotlin/com/fooddelivery/shared/avro/DeliveryAvroMapper.kt:46-69 | a command type symbol is recognised only if it is the symbol of that type |
| DeliveryAvro.ParseEventType | shared-kernel/src/main/kotlin/com/fooddelivery/shared/avro/DeliveryAvroMapper.kt:125-171 | an event type symbol is recognised only if it is the symbol of that type |
| DeliveryAvro.CommandSymbolsParse | shared-kernel/src/main/kotlin/com/fooddelivery/shared/avro/DeliveryAvroMapper.kt:17-31 | SCHEDULE_DELIVERY and CANCEL_DELIVERY are read back as the types they were written for |
| DeliveryAvro.EventSymbolsParse | shared-kernel/src/main/kotlin/com/fooddelivery/shared/avro/DeliveryAvroMapper.kt:82-112 | the four delivery event symbols are read back as the types they were written for |
| DeliveryAvro.ToAvroCommand | shared-kernel/src/main/kotlin/com/fooddelivery/shared/avro/DeliveryAvroMapper.kt:12-44 | toAvro(command) fills a fresh record with exactly the command's encoding |
| DeliveryAvro.ToAvroEvent | shared-kernel/src/main/kotlin/com/fooddelivery/shared/avro/DeliveryAvroMapper.kt:73-123 | toAvro(event) fills a fresh record with exactly the event's encoding |
| DeliveryAvro.DecodeCommand | shared-kernel/src/main/kotlin/com/fooddelivery/shared/avro/DeliveryAvroMapper.kt:46-71 | a decoded command keeps the timestamp, and its variant is the one the discriminator names |
| DeliveryAvro.DecodeEvent | shared-kernel/src/main/kotlin/com/fooddelivery/shared/avro/DeliveryAvroMapper.kt:125-173 | a decoded event keeps the eventId and timestamp, and its variant is the one the discriminator names |
| DeliveryAvro.ScheduleRoundTrip | shared-kernel/src/main/kotlin/com/fooddelivery/shared/avro/DeliveryAvroMapper.kt:16-28 | ScheduleDelivery round-trips with its address and estimatedPickupTime |
| DeliveryAvro.CancelRoundTrip | shared-kernel/src/main/kotlin/com/fooddelivery/shared/avro/DeliveryAvroMapper.kt:29-40 | CancelDelivery round-trips with its reason |
| DeliveryAvro.CommandRoundTrip | shared-kernel/src/main/kotlin/com/fooddelivery/shared/avro/DeliveryAvroMapper.kt:12-71 | fromAvroCommand(toAvro(c)) is c for both delivery commands |
| DeliveryAvro.ScheduledRoundTrip | shared-kernel/src/main/kotlin/com/fooddelivery/shared/avro/DeliveryAvroMapper.kt:81-90 | DeliveryScheduled round-trips with its deliveryId and estimatedDeliveryTime |
| DeliveryAvro.PickedUpRoundTrip | shared-kernel/src/main/kotlin/com/fooddelivery/shared/avro/DeliveryAvroMapper.kt:91-99 | DeliveryPickedUp round-trips with its deliveryId |
| DeliveryAvro.CompletedRoundTrip | shared-kernel/src/main/kotlin/com/fooddelivery/shared/avro/DeliveryAvroMapper.kt:100-109 | DeliveryCompleted round-trips with its deliveryId and completedAt |
| DeliveryAvro.DecodeCompleted | shared-kernel/src/main/kotlin/com/fooddelivery/shared/avro/DeliveryAvroMapper.kt:151-160 | a DELIVERY_COMPLETED record whose ids parse decodes to the event built from its fields |
| DeliveryAvro.FailedRoundTrip | shared-kernel/src/main/kotlin/com/fooddelivery/shared/avro/DeliveryAvroMapper.kt:110-119 | DeliveryFailed round-trips with its deliveryId and reason |
| DeliveryAvro.DecodeFailed | shared-kernel/src/main/kotlin/com/fooddelivery/shared/avro/DeliveryAvroMapper.kt:161-170 | a DELIVERY_FAILED record whose ids parse decodes to the event built from its fields |
| DeliveryAvro.EventRoundTrip | shared-kernel/src/main/kotlin/com/fooddelivery/shared/avro/DeliveryAvroMapper.kt:73-173 | fromAvroEvent(toAvro(e)) is e for all four delivery events, eventId included |
| DeliveryAvro.CommandRecordShape | shared-kernel/src/main/kotlin/com/fooddelivery/shared/avro/DeliveryAvroMapper.kt:17-31 | the discriminator names the command's variant, and only that variant's sub-record is set |
| DeliveryAvro.EventRecordShape | shared-kernel/src/main/kotlin/com/fooddelivery/shared/avro/DeliveryAvroMapper.kt:82-112 | the discriminator names the event's variant, only that variant's sub-record is set, and eventId and timestamp are written |
| DeliveryAvro.UnknownCommandTypeFails | shared-kernel/src/main/kotlin/com/fooddelivery/shared/avro/DeliveryAvroMapper.kt:69 | an unknown command discriminator raises an error |
| DeliveryAvro.UnknownEventTypeFails | shared-kernel/src/main/kotlin/com/fooddelivery/shared/avro/DeliveryAvroMapper.kt:171 | an unknown event discriminator raises an error |
| DeliveryAvro.BlankAddressRejected | shared-kernel/src/main/kotlin/com/fooddelivery/shared/avro/DeliveryAvroMapper.kt:56 | decoding a ScheduleDelivery with a blank address fails with Address's own message |
| OrderAvro.ParseEventType | shared-kernel/src/main/kotlin/com/fooddelivery/shared/avro/OrderAvroMapper.kt:52-87 | an event type symbol is recognised only if it is the symbol of that type |
| OrderAvro.EventSymbolsParse | shared-kernel/src/main/kotlin/com/fooddelivery/shared/avro/OrderAvroMapper.kt:20-40 | ORDER_CREATED, ORDER_COMPLETED and ORDER_CANCELLED are read back as the types they were written for |
| OrderAvro.ToAvroEvent | shared-kernel/src/main/kotlin/com/fooddelivery/shared/avro/OrderAvroMapper.kt:11-50 | toAvro(event) fills a fresh record with exactly the event's encoding |
| OrderAvro.DecodeEvent | shared-kernel/src/main/kotlin/com/fooddelivery/shared/avro/OrderAvroMapper.kt:52-89 | a decoded event keeps the eventId and timestamp, and its variant is the one the discriminator names |
| OrderAvro.CreatedRoundTrip | shared-kernel/src/main/kotlin/com/fooddelivery/shared/avro/OrderAvroMapper.kt:19-28 | OrderCreated round-trips, its total exactly through the plain decimal string |
| OrderAvro.CompletedRoundTrip | shared-kernel/src/main/kotlin/com/fooddelivery/shared/avro/OrderAvroMapper.kt:29-37 | OrderCompleted round-trips |
| OrderAvro.CancelledRoundTrip | shared-kernel/src/main/kotlin/com/fooddelivery/shared/avro/OrderAvroMapper.kt:38-47 | OrderCancelled round-trips with its reason |
| OrderAvro.EventRoundTrip | shared-kernel/src/main/kotlin/com/fooddelivery/shared/avro/OrderAvroMapper.kt:11-89 | fromAvroEvent(toAvro(e)) is e for all three order events |
| OrderAvro.EventRecordShape | shared-kernel/src/main/kotlin/com/fooddelivery/shared/avro/OrderAvroMapper.kt:14-40 | the discriminator names the variant, only its sub-record is set, and eventId and timestamp are written for every variant |
| OrderAvro.UnknownEventTypeFails | shared-kernel/src/main/kotlin/com/fooddelivery/shared/avro/OrderAvroMapper.kt:87 | an unknown discriminator raises an error |
| OrderAvro.NegativeTotalRejected | shared-kernel/src/main/kotlin/com/fooddelivery/shared/avro/OrderAvroMapper.kt:66 | a negative total in an OrderCreated record is refused by MonetaryAmount's check |
| Payments.TransactionIdShape | payment-service/src/main/kotlin/com/fooddelivery/payment/domain/Payment.kt:47 | a transaction id is "TXN-" and eight more characters, twelve in all, and never blank |
| Payments.NewPaymentIsPending | payment-service/src/main/kotlin/com/fooddelivery/payment/domain/Payment.kt:12-41 | a new payment is PENDING with no transaction id, error or processing time, and keeps its order, amount and creation time |
| Payments.AuthorizeOutcome | payment-service/src/main/kotlin/com/fooddelivery/payment/domain/Payment.kt:42-56 | approved: AUTHORIZED with the returned "TXN-" id; declined: REJECTED with the issuer's message and "" returned; either way processedAt is set and identity, order, amount and method are kept |
| Payments.RefundGuard | payment-service/src/main/kotlin/com/fooddelivery/payment/domain/Payment.kt:58-67 | refund succeeds exactly from AUTHORIZED, then REFUNDED with the reason; otherwise the payment is unchanged |
| Payments.SecondRefundFails | payment-service/src/main/kotlin/com/fooddelivery/payment/domain/Payment.kt:59-61 | a second refund of the same payment fails |
| Payments.RefundAfterAuthorize | payment-service/src/main/kotlin/com/fooddelivery/payment/domain/Payment.kt:42-67 | a pending payment can be refunded after authorize exactly when the gateway approved it |
| Payments.Payment.constructor | payment-service/src/main/kotlin/com/fooddelivery/payment/domain/Payment.kt:12-41 | the new entity holds the defaults of a pending payment |
| Payments.Payment.Authorize | payment-service/src/main/kotlin/com/fooddelivery/payment/domain/Payment.kt:42-56 | the entity's new fields and the returned id are those of the authorize step |
| Payments.Payment.Refund | payment-service/src/main/kotlin/com/fooddelivery/payment/domain/Payment.kt:58-67 | the entity's new fields and the result are those of the refund step |
| Payments.AuthorizeIsIdempotent | payment-service/src/main/kotlin/com/fooddelivery/payment/api/PaymentController.kt:30-40 | an order whose payment is AUTHORIZED gets that payment's transaction id and "Payment already authorized", and nothing is saved |
| Payments.AuthorizeCreatesPayment | payment-service/src/main/kotlin/com/fooddelivery/payment/api/PaymentController.kt:42-60 | otherwise exactly one payment is appended for the request's order, amount and method; its status follows the gateway and the reply carries a transaction id only when AUTHORIZED |
| Payments.AuthorizeFailsOnlyOnDuplicates | payment-service/src/main/kotlin/com/fooddelivery/payment/api/PaymentController.kt:30 | authorize raises an error exactly when the order already has more than one payment |
| Payments.RetryAfterDeclineBreaksLookup | payment-service/src/main/kotlin/com/fooddelivery/payment/api/PaymentController.kt:30-50 | a declined payment is not reused: a retry saves a second payment for the order and every later lookup by that order fails |
| Payments.RefundOfUnknownTransaction | payment-service/src/main/kotlin/com/fooddelivery/payment/api/PaymentController.kt:71-74 | an unknown transaction id gets 400 "Transaction not found" and nothing changes |
| Payments.RefundOfKnownTransaction | payment-service/src/main/kotlin/com/fooddelivery/payment/api/PaymentController.kt:76-86 | a known transaction gets 200 with Payment.refund's verdict, only that payment changes, and refunding it again fails with "Refund failed: invalid payment status" |
| Payments.ViewsOf | payment-service/src/main/kotlin/com/fooddelivery/payment/infrastructure/PaymentRepository.kt:9 | the rows read from the saved entities, one per entity in order |
| Payments.PaymentController.constructor | payment-service/src/main/kotlin/com/fooddelivery/payment/api/PaymentController.kt:16-18 | the controller starts with an empty repository |
| Payments.PaymentController.Authorize | payment-service/src/main/kotlin/com/fooddelivery/payment/api/PaymentController.kt:24-61 | the reply and the new repository are those of the authorize step; on a lookup error nothing is saved |
| Payments.PaymentController.CreatePayment | payment-service/src/main/kotlin/com/fooddelivery/payment/api/PaymentController.kt:42-60 | one authorized-or-rejected payment is appended and the reply reports it |
| Payments.PaymentController.Refund | payment-service/src/main/kotlin/com/fooddelivery/payment/api/PaymentController.kt:66-87 | the reply and the new repository are those of the refund step; the entity list itself is unchanged |
| Repositories.Matching | payment-service/src/main/kotlin/com/fooddelivery/payment/infrastructure/PaymentRepository.kt:10-11 | the positions returned are exactly the rows the derived query selects |
| Repositories.NoMatch | kitchen-service/src/main/kotlin/com/fooddelivery/kitchen/infrastructure/TicketRepository.kt:10 | a key no row satisfies has no match |
| Repositories.OnlyMatch | delivery-service/src/main/kotlin/com/fooddelivery/delivery/infrastructure/DeliveryRepository.kt:10 | a key only row i satisfies has the single match i |
| Repositories.SingleResult | payment-service/src/main/kotlin/com/fooddelivery/payment/infrastructure/PaymentRepository.kt:10-11 | a nullable finder answers none for no match, the row for one, and IncorrectResultSizeDataAccessException, carrying the match count, for several |
| Kitchen.NewTicketIsPending | kitchen-service/src/main/kotlin/com/fooddelivery/kitchen/domain/Ticket.kt:11-39 | a new ticket is PENDING with a zero prep time and no rejection reason |
| Kitchen.TicketSetters | kitchen-service/src/main/kotlin/com/fooddelivery/kitchen/domain/Ticket.kt:41-59 | accept, reject, startPreparing and markReady each set their status and their own fields only, whatever the current status |
| Kitchen.Ticket.constructor | kitchen-service/src/main/kotlin/com/fooddelivery/kitchen/domain/Ticket.kt:11-39 | the new entity holds the defaults of a pending ticket |
| Kitchen.Ticket.AddItem | kitchen-service/src/main/kotlin/com/fooddelivery/kitchen/domain/Ticket.kt:37-39 | appends one item and changes nothing else |
| Kitchen.Ticket.Accept | kitchen-service/src/main/kotlin/com/fooddelivery/kitchen/domain/Ticket.kt:41-45 | the entity becomes the accepted ticket with the given minutes |
| Kitchen.Ticket.Reject | kitchen-service/src/main/kotlin/com/fooddelivery/kitchen/domain/Ticket.kt:47-50 | the entity becomes the rejected ticket with the reason |
| Kitchen.Ticket.StartPreparing | kitchen-service/src/main/kotlin/com/fooddelivery/kitchen/domain/Ticket.kt:52-54 | the entity becomes PREPARING |
| Kitchen.Ticket.MarkReady | kitchen-service/src/main/kotlin/com/fooddelivery/kitchen/domain/Ticket.kt:56-59 | the entity becomes READY at the given time |
| Kitchen.TicketViewsOf | kitchen-service/src/main/kotlin/com/fooddelivery/kitchen/infrastructure/TicketRepository.kt:9 | the rows read from the saved tickets, one per ticket in order |
| Kitchen.WrapInt32 | kitchen-service/src/main/kotlin/com/fooddelivery/kitchen/messaging/KitchenCommandListener.kt:101-104 | Kotlin Int arithmetic: in range the value is kept, otherwise it is congruent modulo 2^32 |
| Kitchen.PrepTimeFormula | kitchen-service/src/main/kotlin/com/fooddelivery/kitchen/messaging/KitchenCommandListener.kt:101-104 | the prep time is 10 + 5 per item, at least 10, growing by 5 per item, while it fits an Int |
| Kitchen.PrepTimeWraps | kitchen-service/src/main/kotlin/com/fooddelivery/kitchen/messaging/KitchenCommandListener.kt:103 | for 429496728 items the Int sum overflows to a negative time |
| Kitchen.TicketItemsOf | kitchen-service/src/main/kotlin/com/fooddelivery/kitchen/messaging/KitchenCommandListener.kt:41-49 | one ticket item per order item |
| Kitchen.PrepareAccepted | kitchen-service/src/main/kotlin/com/fooddelivery/kitchen/messaging/KitchenCommandListener.kt:54-70 | an accepted order appends one READY ticket with the order's items copied in order and the computed prep time, and sends TicketAccepted then TicketReady for that ticket |
| Kitchen.PrepareRejected | kitchen-service/src/main/kotlin/com/fooddelivery/kitchen/messaging/KitchenCommandListener.kt:71-84 | a refused order appends one REJECTED ticket "Kitchen at full capacity" and sends a single TicketRejected |
| Kitchen.CancelExistingTicket | kitchen-service/src/main/kotlin/com/fooddelivery/kitchen/messaging/KitchenCommandListener.kt:87-95 | the order's ticket is rejected with "Cancelled: " and the reason; no other ticket changes and nothing is sent |
| Kitchen.CancelAbsentTicket | kitchen-service/src/main/kotlin/com/fooddelivery/kitchen/messaging/KitchenCommandListener.kt:90-91 | cancelling an order with no ticket changes nothing |
| Kitchen.AvroUndecodableCommandIgnored | kitchen-service/src/main/kotlin/com/fooddelivery/kitchen/messaging/AvroKitchenCommandListener.kt:29-43 | a record the mapper refuses is logged and dropped: no ticket, no event |
| Kitchen.AvroListenerHandlesLikePlain | kitchen-service/src/main/kotlin/com/fooddelivery/kitchen/messaging/AvroKitchenCommandListener.kt:29-104 | on an encoded command the Avro listener does what the plain one does, except that a failure is swallowed and changes nothing |
| Kitchen.SendsOf | kitchen-service/src/main/kotlin/com/fooddelivery/kitchen/messaging/KitchenCommandListener.kt:67 | each event is sent to kitchen.events keyed by its order id |
| Kitchen.PublishedOf | kitchen-service/src/main/kotlin/com/fooddelivery/kitchen/messaging/AvroKitchenCommandListener.kt:74-76 | each event is published to kitchen.events keyed by its order id |
| Kitchen.PublishedEventsDecode | kitchen-service/src/main/kotlin/com/fooddelivery/kitchen/messaging/AvroKitchenCommandListener.kt:74-76 | every published record decodes back to its event |
| Kitchen.PrepareTicket | kitchen-service/src/main/kotlin/com/fooddelivery/kitchen/messaging/KitchenCommandListener.kt:39-73 | the fresh ticket, after copying the items one by one, is the one the prepare step saves |
| Kitchen.KitchenCommandListener.constructor | kitchen-service/src/main/kotlin/com/fooddelivery/kitchen/messaging/KitchenCommandListener.kt:15-18 | no tickets, nothing sent |
| Kitchen.KitchenCommandListener.OnKitchenCommand | kitchen-service/src/main/kotlin/com/fooddelivery/kitchen/messaging/KitchenCommandListener.kt:21-33 | tickets and sends follow the command step; a failure rolls back and sends nothing |
| Kitchen.KitchenCommandListener.HandlePrepareOrder | kitchen-service/src/main/kotlin/com/fooddelivery/kitchen/messaging/KitchenCommandListener.kt:35-85 | appends the prepared ticket and sends its events in order |
| Kitchen.KitchenCommandListener.HandleCancelTicket | kitchen-service/src/main/kotlin/com/fooddelivery/kitchen/messaging/KitchenCommandListener.kt:87-95 | the tickets follow the cancel step and nothing is sent |
| Kitchen.AvroKitchenCommandListener.constructor | kitchen-service/src/main/kotlin/com/fooddelivery/kitchen/messaging/AvroKitchenCommandListener.kt:17-20 | no tickets, nothing published |
| Kitchen.AvroKitchenCommandListener.OnKitchenCommand | kitchen-service/src/main/kotlin/com/fooddelivery/kitchen/messaging/AvroKitchenCommandListener.kt:23-43 | tickets and published records follow the Avro command step |
| Kitchen.AvroKitchenCommandListener.HandleCommand | kitchen-service/src/main/kotlin/com/fooddelivery/kitchen/messaging/AvroKitchenCommandListener.kt:36-42 | a handled command's effects, or none when it throws |
| Kitchen.AvroKitchenCommandListener.HandlePrepareOrder | kitchen-service/src/main/kotlin/com/fooddelivery/kitchen/messaging/AvroKitchenCommandListener.kt:45-94 | appends the prepared ticket and publishes its events in order |
| Kitchen.AvroKitchenCommandListener.HandleCancelTicket | kitchen-service/src/main/kotlin/com/fooddelivery/kitchen/messaging/AvroKitchenCommandListener.kt:96-104 | the tickets follow the cancel step, or stay as they were when it throws, and nothing is published |
| Deliveries.DriverShapes | delivery-service/src/main/kotlin/com/fooddelivery/delivery/domain/Delivery.kt:50-51 | a driver id is "DRV-" and four characters; a driver name is "Driver " and the decimal digits of the picked number |
| Deliveries.NewDeliveryIsPending | delivery-service/src/main/kotlin/com/fooddelivery/delivery/domain/Delivery.kt:10-46 | a new delivery is PENDING with no driver, failure, estimates or timestamps |
| Deliveries.DeliverySetters | delivery-service/src/main/kotlin/com/fooddelivery/delivery/domain/Delivery.kt:48-72 | schedule, pickup, startTransit, complete and fail each set their status and their own fields only, whatever the current status; estimatedPickupTime is never set |
| Deliveries.Delivery.constructor | delivery-service/src/main/kotlin/com/fooddelivery/delivery/domain/Delivery.kt:10-46 | the new entity holds the defaults of a pending delivery |
| Deliveries.Delivery.Schedule | delivery-service/src/main/kotlin/com/fooddelivery/delivery/domain/Delivery.kt:48-53 | the entity becomes ASSIGNED with a driver and the estimate |
| Deliveries.Delivery.Pickup | delivery-service/src/main/kotlin/com/fooddelivery/delivery/domain/Delivery.kt:55-58 | the entity becomes PICKED_UP at the given time |
| Deliveries.Delivery.StartTransit | delivery-service/src/main/kotlin/com/fooddelivery/delivery/domain/Delivery.kt:60-62 | the entity becomes IN_TRANSIT |
| Deliveries.Delivery.Complete | delivery-service/src/main/kotlin/com/fooddelivery/delivery/domain/Delivery.kt:64-67 | the entity becomes DELIVERED at the given time |
| Deliveries.Delivery.Fail | delivery-service/src/main/kotlin/com/fooddelivery/delivery/domain/Delivery.kt:69-72 | the entity becomes FAILED with the reason |
| Deliveries.DeliveryViewsOf | delivery-service/src/main/kotlin/com/fooddelivery/delivery/infrastructure/DeliveryRepository.kt:9 | the rows read from the saved deliveries, one per delivery in order |
| Deliveries.ViewsOfAppend | delivery-service/src/main/kotlin/com/fooddelivery/delivery/infrastructure/DeliveryRepository.kt:9 | saving a new delivery appends its row |
| Deliveries.EstimatedDelivery | delivery-service/src/main/kotlin/com/fooddelivery/delivery/messaging/DeliveryCommandListener.kt:49-50 | the estimate is 30 to 45 minutes after the pickup time |
| Deliveries.ScheduleWithDriver | delivery-service/src/main/kotlin/com/fooddelivery/delivery/messaging/DeliveryCommandListener.kt:47-66 | with a driver, one DELIVERED delivery is appended with its driver and estimate, and DeliveryScheduled, DeliveryPickedUp, DeliveryCompleted are sent in that order for it |
| Deliveries.ScheduleWithoutDriver | delivery-service/src/main/kotlin/com/fooddelivery/delivery/messaging/DeliveryCommandListener.kt:67-80 | without a driver, one FAILED delivery "No drivers available in the area" is appended and a single DeliveryFailed is sent |
| Deliveries.CancelExistingDelivery | delivery-service/src/main/kotlin/com/fooddelivery/delivery/messaging/DeliveryCommandListener.kt:83-91 | the order's delivery fails with "Cancelled: " and the reason; no other delivery changes and nothing is sent |
| Deliveries.CancelAbsentDelivery | delivery-service/src/main/kotlin/com/fooddelivery/delivery/messaging/DeliveryCommandListener.kt:86-87 | cancelling an order with no delivery changes nothing |
| Deliveries.AvroUndecodableCommandIgnored | delivery-service/src/main/kotlin/com/fooddelivery/delivery/messaging/AvroDeliveryCommandListener.kt:28-42 | a record the mapper refuses is logged and dropped: no delivery, no event |
| Deliveries.AvroListenerHandlesLikePlain | delivery-service/src/main/kotlin/com/fooddelivery/delivery/messaging/AvroDeliveryCommandListener.kt:28-99 | on an encoded command the Avro listener does what the plain one does, except that a failure is swallowed and changes nothing |
| Deliveries.SendsOf | delivery-service/src/main/kotlin/com/fooddelivery/delivery/messaging/DeliveryCommandListener.kt:63 | each event is sent to delivery.events keyed by its order id |
| Deliveries.SentInTwoSteps | delivery-service/src/main/kotlin/com/fooddelivery/delivery/messaging/DeliveryCommandListener.kt:63-66 | sending the scheduled event and then the flow's events is sending them all in order |
| Deliveries.PublishedOf | delivery-service/src/main/kotlin/com/fooddelivery/delivery/messaging/AvroDeliveryCommandListener.kt:54-89 | each event is published to delivery.events keyed by its order id |
| Deliveries.PublishedInTwoSteps | delivery-service/src/main/kotlin/com/fooddelivery/delivery/messaging/AvroDeliveryCommandListener.kt:54-89 | publishing in two steps is publishing the concatenation |
| Deliveries.PublishedEventsDecode | delivery-service/src/main/kotlin/com/fooddelivery/delivery/messaging/AvroDeliveryCommandListener.kt:54-89 | every published record decodes back to its event |
| Deliveries.DeliveryCommandListener.constructor | delivery-service/src/main/kotlin/com/fooddelivery/delivery/messaging/DeliveryCommandListener.kt:15-18 | no deliveries, nothing sent |
| Deliveries.DeliveryCommandListener.OnDeliveryCommand | delivery-service/src/main/kotlin/com/fooddelivery/delivery/messaging/DeliveryCommandListener.kt:21-33 | deliveries and sends follow the command step; a failure rolls back and sends nothing |
| Deliveries.DeliveryCommandListener.HandleScheduleDelivery | delivery-service/src/main/kotlin/com/fooddelivery/delivery/messaging/DeliveryCommandListener.kt:35-81 | appends the scheduled delivery in its final state and sends its events in order |
| Deliveries.DeliveryCommandListener.FailUnassigned | delivery-service/src/main/kotlin/com/fooddelivery/delivery/messaging/DeliveryCommandListener.kt:67-80 | the delivery fails for want of a driver and DeliveryFailed is sent |
| Deliveries.DeliveryCommandListener.AssignAndDeliver | delivery-service/src/main/kotlin/com/fooddelivery/delivery/messaging/DeliveryCommandListener.kt:47-66 | the delivery is scheduled and run through the flow, and its three events are sent |
| Deliveries.DeliveryCommandListener.Save | delivery-service/src/main/kotlin/com/fooddelivery/delivery/messaging/DeliveryCommandListener.kt:53 | the repository gains the delivery's row and nothing is sent |
| Deliveries.DeliveryCommandListener.SimulateDeliveryFlow | delivery-service/src/main/kotlin/com/fooddelivery/delivery/messaging/DeliveryCommandListener.kt:97-124 | the delivery is picked up, in transit, then delivered; DeliveryPickedUp then DeliveryCompleted are sent |
| Deliveries.DeliveryCommandListener.HandleCancelDelivery | delivery-service/src/main/kotlin/com/fooddelivery/delivery/messaging/DeliveryCommandListener.kt:83-91 | the deliveries follow the cancel step and nothing is sent |
| Deliveries.AvroDeliveryCommandListener.constructor | delivery-service/src/main/kotlin/com/fooddelivery/delivery/messaging/AvroDeliveryCommandListener.kt:16-19 | no deliveries, nothing published |
| Deliveries.AvroDeliveryCommandListener.OnDeliveryCommand | delivery-service/src/main/kotlin/com/fooddelivery/delivery/messaging/AvroDeliveryCommandListener.kt:28-42 | deliveries and published records follow the Avro command step |
| Deliveries.AvroDeliveryCommandListener.HandleCommand | delivery-service/src/main/kotlin/com/fooddelivery/delivery/messaging/AvroDeliveryCommandListener.kt:35-41 | a handled command's effects, or none when it throws |
| Deliveries.AvroDeliveryCommandListener.HandleScheduleDelivery | delivery-service/src/main/kotlin/com/fooddelivery/delivery/messaging/AvroDeliveryCommandListener.kt:44-89 | appends the scheduled delivery in its final state and publishes its events in order |
| Deliveries.AvroDeliveryCommandListener.FailUnassigned | delivery-service/src/main/kotlin/com/fooddelivery/delivery/messaging/AvroDeliveryCommandListener.kt:73-88 | the delivery fails for want of a driver and DeliveryFailed is published |
| Deliveries.AvroDeliveryCommandListener.AssignAndDeliver | delivery-service/src/main/kotlin/com/fooddelivery/delivery/messaging/AvroDeliveryCommandListener.kt:54-72 | the delivery is scheduled and run through the flow, and its three events are published |
| Deliveries.AvroDeliveryCommandListener.Save | delivery-service/src/main/kotlin/com/fooddelivery/delivery/messaging/AvroDeliveryCommandListener.kt:59 | the repository gains the delivery's row and nothing is published |
| Deliveries.AvroDeliveryCommandListener.SimulateDeliveryFlow | delivery-service/src/main/kotlin/com/fooddelivery/delivery/messaging/AvroDeliveryCommandListener.kt:105-130 | picked up, in transit, delivered; DeliveryPickedUp then DeliveryCompleted are published |
| Deliveries.AvroDeliveryCommandListener.HandleCancelDelivery | delivery-service/src/main/kotlin/com/fooddelivery/delivery/messaging/AvroDeliveryCommandListener.kt:91-99 | the deliveries follow the cancel step, or stay as they were when it throws, and nothing is published |

## Left out

- Avro byte encoding and schema loading (`AvroSerializer`, `AvroSchemas`). A `GenericRecord` is modelled as a datatype with a discriminator string, the common fields and one optional sub-record per variant. A record "that does not decode" stands for any record the mapper refuses. Bytes that fail to deserialize are not modelled separately: they are caught by the same `catch`.
- The HTTP transport of `PaymentClient`. Authorization and refund requests are recorded in the client's logs. The authorization answer, including the FAILED answer that a transport error produces, is a parameter of `initiateSaga`/`processPayment`. A refund's answer is dropped because no caller reads it.
- The order REST controller and `MonetaryAmount.of(Double)`: HTTP mapping and floating point.
- `MonetaryAmount.toString` (`setScale(2)`): display formatting only.
- Kafka, topic and listener-container configuration, listener concurrency, logging, and the build files.
- `@Transactional` rollback is modelled by its net effect. A handler that throws leaves the repository and the outbox as they were. A listener that catches the exception returns normally with nothing changed.
- JPA persistence is modelled as sequences (payments, tickets, deliveries) or a map keyed by id (orders) of live entity objects. A `save` of an entity already held is a no-op. A handler that saves one new entity several times is modelled as adding it once, at the end, in its final state: the delivery in `handleScheduleDelivery`, and the ticket in `handlePrepareOrder` (`Deliveries.DeliveryCommandListener.Save`, `Kitchen.PrepareTicket`).
- `OrderRepository.findActiveOrders` is not modelled; no core operation calls it.
- The generated primary key of each `TicketItem` row (`UUID.randomUUID()`) is not modelled; a ticket item is its product id, name and quantity.
- The generated primary key of `OrderItemEntity` (`id = UUID.randomUUID()`, order-service/src/main/kotlin/com/fooddelivery/order/domain/Order.kt:93-94). No operation reads it, so an item entity is modelled by its product, name, quantity and price alone.
- The `precision = 10, scale = 2` column definitions of `Order.totalAmount`, `OrderItemEntity.unitPrice` and `Payment.amount`. The database rounds to two decimals what it stores, so an order read back from it carries the rounded total, and the model keeps the exact one. A total of 10^8 or more does not fit the column, and the flush at commit then fails after the messages were sent; the model accepts it.
- `Instant.now()` is read once per handler, as a `now` parameter. Where the source reads the clock several times in one handler (for example `acceptedAt` and `readyAt`), the model gives them the same instant.
- `Instant` is epoch milliseconds as an unbounded integer. Java's `Instant` range limits and the nanosecond part are not modelled.
- `UUID.fromString` accepts only the canonical 36-character 8-4-4-4-12 layout of hex digits. Java's lenient parser (shorter groups, overflow checks) is not modelled.
- `BigDecimal(String)` is modelled for plain decimal notation (an optional sign, digits, an optional fraction). Exponent notation (`1E+3`) is not, because the mappers only read strings written by `toPlainString`.
- `Int` values (item quantity, prep time, priority) are 32-bit. Only `calculatePrepTime` does arithmetic on them, and there the wrap-around is modelled (`Kitchen.WrapInt32`).
- `Math.random()` and `(30..45).random()` decisions are parameters: the acceptance and availability verdicts are booleans, and the minute count and the driver number are range-restricted subtypes. The 95% and 98% probabilities are not modelled.
