/**
 * What each orchestrator operation does to the order store, the outbox and
 * the payment service logs, as pure functions of the store it starts from. Both
 * orchestrator classes are proved against these, which is what makes the
 * Avro orchestrator's effects the plain orchestrator's effects.
 */
module SagaSteps {
  import opened Wrappers
  import opened Decimals
  import opened DomainPrimitives
  import opened CommonDtos
  import opened Events
  import opened Saga
  import opened Orders
  import opened Publishing
  import Enums

  /** The repository, by order id. */
  type Store = map<Uuid, OrderView>

  /** One `paymentClient.refund(PaymentRefundRequest(orderId, transactionId, reason))`. */
  datatype RefundCall = RefundCall(orderId: Uuid, transactionId: string, reason: string)

  /** One `paymentClient.authorize(PaymentAuthorizationRequest(orderId, amount, paymentMethod))`. */
  datatype AuthorizationCall = AuthorizationCall(orderId: Uuid, amount: Decimal, paymentMethod: Enums.PaymentMethod)

  /** PaymentAuthorizationResponse; a transport error arrives as status FAILED with no transaction id. */
  datatype AuthorizationResponse = AuthorizationResponse(
    transactionId: Option<string>,
    status: Enums.PaymentStatus,
    message: Option<string>)

  /** CreateOrderRequest; its items have exactly OrderItem's fields and requirements. */
  datatype CreateOrderRequest = CreateOrderRequest(
    customerId: Uuid,
    deliveryAddress: string,
    paymentMethod: Enums.PaymentMethod,
    items: seq<OrderItem>)

  /** The store after an operation, with the sends, refund calls and authorization calls it made, in order. */
  datatype Effect = Effect(orders: Store, sends: seq<Sent>, refunds: seq<RefundCall>, authorizations: seq<AuthorizationCall>)

  function NoEffect(store: Store): Effect
  {
    Effect(store, [], [], [])
  }

  /** A nullable string as a Kotlin string template prints it. */
  function NullableText(s: Option<string>): string
  {
    if s.Some? then s.value else "null"
  }

  /** The reason recorded when the payment is not authorized. */
  function PaymentRejectionReason(response: AuthorizationResponse): string
  {
    "Payment " + Enums.PaymentStatusName(response.status) + ": " + NullableText(response.message)
  }

  /** A step the saga state machine allows, read through toSagaState. */
  predicate StepIsLegal(from: OrderStatus, to: OrderStatus)
  {
    IsValidTransition(ToSagaState(from, 0), ToSagaState(to, 0))
  }

  // ---------------------------------------------------------------- initiateSaga

  /** createOrder: the order with the request's total and lines, before it is saved. */
  function CreatedOrder(request: CreateOrderRequest, id: Uuid, now: Instant): OrderView
  {
    NewOrderView(id, request.customerId, request.deliveryAddress, LineTotalSum(request.items), now)
      .(items := EntitiesOf(request.items))
  }

  /** The order after the payment step, and the message that step sends. */
  datatype Settlement = Settlement(order: OrderView, send: Sent)

  /**
   * processPayment, then sendToKitchen when the payment is authorized. Only
   * the status, the transaction id, the cancellation reason and updatedAt change.
   */
  function Settle(created: OrderView, items: seq<OrderItem>, response: AuthorizationResponse,
                  cancelledEventId: string, now: Instant): (s: Settlement)
    requires created.cancellationReason.None? && created.completedAt.None?
    ensures s.order == created.(status := s.order.status, transactionId := s.order.transactionId,
                                cancellationReason := s.order.cancellationReason, updatedAt := now)
  {
    var pending := UpdatedStatus(created, PAYMENT_PENDING, None, now);
    if response.status == Enums.Authorized then
      var paid := UpdatedStatus(pending.(transactionId := response.transactionId), PAID, None, now);
      var inKitchen := UpdatedStatus(paid, KITCHEN_PENDING, None, now);
      Settlement(inKitchen, SendOf(KitchenCommandMessage(PrepareOrder(OrderId(created.id), items, DefaultPriority, now))))
    else
      var cancelled := UpdatedStatus(pending, CANCELLED, Some(PaymentRejectionReason(response)), now);
      Settlement(cancelled, SendOf(OrderEventMessage(OrderCancelled(cancelledEventId, now, OrderId(created.id), "Payment rejected"))))
  }

  /**
   * createOrder, the OrderCreated event and the payment step of initiateSaga,
   * with the new order's random id, the two event ids it may publish, the
   * payment service's answer and the clock: the order as it ends up, and the
   * two sends. A negative total makes `MonetaryAmount(order.totalAmount)` throw.
   */
  function Begin(request: CreateOrderRequest, id: Uuid, createdEventId: string,
                 cancelledEventId: string, response: AuthorizationResponse, now: Instant): Result<(OrderView, seq<Sent>), Error>
  {
    var created := CreatedOrder(request, id, now);
    var total :- AmountOf(created.totalAmount);
    var announced := SendOf(OrderEventMessage(OrderCreated(createdEventId, now, OrderId(id), CustomerId(request.customerId), total)));
    var settled := Settle(created, request.items, response, cancelledEventId, now);
    Success((settled.order, [announced, settled.send]))
  }

  /** The authorization processPayment asks for: the new order's id and total, and the request's payment method. */
  function AuthorizationFor(request: CreateOrderRequest, id: Uuid): AuthorizationCall
  {
    AuthorizationCall(id, LineTotalSum(request.items), request.paymentMethod)
  }

  /** initiateSaga: Begin, then the save; a failure rolls the save back and leaves the payment service unasked. */
  function Initiate(store: Store, request: CreateOrderRequest, id: Uuid, createdEventId: string,
                    cancelledEventId: string, response: AuthorizationResponse, now: Instant): Result<Effect, Error>
  {
    var begun :- Begin(request, id, createdEventId, cancelledEventId, response, now);
    Success(Effect(store[id := begun.0], begun.1, [], [AuthorizationFor(request, id)]))
  }

  /** Initiate fails exactly when Begin does, and otherwise saves Begin's order under its id. */
  lemma InitiateSavesBegun(store: Store, request: CreateOrderRequest, id: Uuid, createdEventId: string,
                           cancelledEventId: string, response: AuthorizationResponse, now: Instant)
    ensures var b, e := Begin(request, id, createdEventId, cancelledEventId, response, now),
                        Initiate(store, request, id, createdEventId, cancelledEventId, response, now);
      && (e.Success? <==> b.Success?)
      && (b.Failure? ==> e.error == b.error)
      && (b.Success? ==> e.value == Effect(store[id := b.value.0], b.value.1, [], [AuthorizationFor(request, id)]))
  {
  }

  /** Initiate spelled out by outcome, for the orchestrator proofs. */
  lemma InitiateCases(store: Store, request: CreateOrderRequest, id: Uuid, createdEventId: string,
                      cancelledEventId: string, response: AuthorizationResponse, now: Instant)
    ensures var created, r := CreatedOrder(request, id, now), Initiate(store, request, id, createdEventId, cancelledEventId, response, now);
      if created.totalAmount.unscaled < 0 then r == Failure(IllegalArgument("MonetaryAmount cannot be negative"))
      else
        var settled := Settle(created, request.items, response, cancelledEventId, now);
        r == Success(Effect(store[id := settled.order],
                            [SendOf(OrderEventMessage(OrderCreated(createdEventId, now, OrderId(id), CustomerId(request.customerId), created.totalAmount))),
                             settled.send], [], [AuthorizationFor(request, id)]))
  {
  }

  /** The saga starts iff the request's total is not negative; otherwise nothing is stored or sent. */
  lemma InitiateNeedsNonNegativeTotal(store: Store, request: CreateOrderRequest, id: Uuid, createdEventId: string,
                                      cancelledEventId: string, response: AuthorizationResponse, now: Instant)
    ensures var r := Initiate(store, request, id, createdEventId, cancelledEventId, response, now);
      && (r.Success? <==> LineTotalSum(request.items).unscaled >= 0)
      && (r.Failure? ==> r.error == IllegalArgument("MonetaryAmount cannot be negative"))
  {
  }

  /**
   * The new order holds the request's lines in order and the exact sum of
   * unitPrice × quantity; OrderCreated with that total is sent first, the
   * payment service is asked once to authorize that total with the request's
   * payment method, and no other order is touched.
   */
  lemma InitiateCreatesOrder(store: Store, request: CreateOrderRequest, id: Uuid, createdEventId: string,
                             cancelledEventId: string, response: AuthorizationResponse, now: Instant)
    requires LineTotalSum(request.items).unscaled >= 0
    ensures var r := Initiate(store, request, id, createdEventId, cancelledEventId, response, now);
      && r.Success?
      && r.value.orders.Keys == store.Keys + {id}
      && (forall k :: k in store && k != id ==> r.value.orders[k] == store[k])
      && r.value.orders[id].id == id
      && r.value.orders[id].customerId == request.customerId
      && r.value.orders[id].deliveryAddress == request.deliveryAddress
      && Value(r.value.orders[id].totalAmount) == ExactTotal(request.items)
      && ToOrderItems(r.value.orders[id].items) == Success(request.items)
      && r.value.orders[id].createdAt == now
      && r.value.orders[id].ticketId.None? && r.value.orders[id].deliveryId.None?
      && r.value.refunds == []
      && |r.value.authorizations| == 1
      && r.value.authorizations[0].orderId == id
      && r.value.authorizations[0].amount == r.value.orders[id].totalAmount
      && Value(r.value.authorizations[0].amount) == ExactTotal(request.items)
      && r.value.authorizations[0].paymentMethod == request.paymentMethod
      && |r.value.sends| == 2
      && r.value.sends[0] == SendOf(OrderEventMessage(OrderCreated(createdEventId, now, OrderId(id),
                               CustomerId(request.customerId), LineTotalSum(request.items))))
  {
    var created := CreatedOrder(request, id, now);
    assert created.items == EntitiesOf(request.items) && created.totalAmount == LineTotalSum(request.items);
    InitiateSavesBegun(store, request, id, createdEventId, cancelledEventId, response, now);
    LineTotalSumIsExact(request.items);
    ToOrderItemsOfEntities(request.items);
  }

  /** An authorized payment: transaction recorded, the order in the kitchen, one PrepareOrder with the order's lines. */
  lemma InitiateAuthorized(store: Store, request: CreateOrderRequest, id: Uuid, createdEventId: string,
                           cancelledEventId: string, response: AuthorizationResponse, now: Instant)
    requires response.status == Enums.Authorized
    requires LineTotalSum(request.items).unscaled >= 0
    ensures var r := Initiate(store, request, id, createdEventId, cancelledEventId, response, now);
      && r.Success?
      && r.value.orders[id].status == KITCHEN_PENDING
      && r.value.orders[id].transactionId == response.transactionId
      && r.value.orders[id].cancellationReason.None?
      && r.value.sends[1] == SendOf(KitchenCommandMessage(PrepareOrder(OrderId(id), request.items, 0, now)))
      && (forall i :: 0 <= i < |r.value.sends| ==> !r.value.sends[i].message.OrderEventMessage? || r.value.sends[i].message.orderEvent.OrderCreated?)
  {
  }

  /** Any other payment status: cancelled with "Payment <status>: <message>", no transaction, OrderCancelled and no PrepareOrder. */
  lemma InitiateRejected(store: Store, request: CreateOrderRequest, id: Uuid, createdEventId: string,
                         cancelledEventId: string, response: AuthorizationResponse, now: Instant)
    requires response.status != Enums.Authorized
    requires LineTotalSum(request.items).unscaled >= 0
    ensures var r := Initiate(store, request, id, createdEventId, cancelledEventId, response, now);
      && r.Success?
      && r.value.orders[id].status == CANCELLED
      && r.value.orders[id].cancellationReason == Some("Payment " + Enums.PaymentStatusName(response.status) + ": " + NullableText(response.message))
      && r.value.orders[id].transactionId.None?
      && r.value.sends[1] == SendOf(OrderEventMessage(OrderCancelled(cancelledEventId, now, OrderId(id), "Payment rejected")))
      && (forall i :: 0 <= i < |r.value.sends| ==> !r.value.sends[i].message.KitchenCommandMessage?)
  {
  }

  /** Both payment outcomes walk legal saga steps: CREATED → PAYMENT_PENDING → PAID → KITCHEN_PENDING, or PAYMENT_PENDING → CANCELLED. */
  lemma InitiatePathsAreLegal()
    ensures StepIsLegal(CREATED, PAYMENT_PENDING) && StepIsLegal(PAYMENT_PENDING, PAID) && StepIsLegal(PAID, KITCHEN_PENDING)
    ensures StepIsLegal(PAYMENT_PENDING, CANCELLED)
  {
  }

  // ---------------------------------------------------------------- the event handlers

  /** The compensation call, made only when the order holds a transaction id. */
  function RefundFor(order: OrderView, reason: string): seq<RefundCall>
  {
    if order.transactionId.Some? then [RefundCall(order.id, order.transactionId.value, reason)] else []
  }

  /** onKitchenAccepted; the blank-address check of `Address(order.deliveryAddress)` throws and rolls back. */
  function KitchenAcceptedStep(store: Store, orderId: OrderId, ticketId: TicketId, estimatedMinutes: Int32, now: Instant): Result<Effect, Error>
  {
    if orderId.value !in store then Success(NoEffect(store))
    else
      var order := store[orderId.value];
      var accepted := UpdatedStatus(order.(ticketId := Some(ticketId.value)), DELIVERY_PENDING, None, now);
      var estimatedPickupTime := PlusSeconds(now, estimatedMinutes as int * 60);
      var address :- AddressOf(order.deliveryAddress);
      var schedule := SendOf(DeliveryCommandMessage(ScheduleDelivery(orderId, address, estimatedPickupTime, now)));
      Success(Effect(store[orderId.value := accepted], [schedule], [], []))
  }

  function KitchenRejectedStep(store: Store, orderId: OrderId, reason: string, eventId: string, now: Instant): Effect
  {
    if orderId.value !in store then NoEffect(store)
    else
      var order := store[orderId.value];
      var compensation := RefundFor(order, "Kitchen rejected: " + reason);
      var cancelled := UpdatedStatus(order, CANCELLED, Some("Kitchen rejected: " + reason), now);
      var announce := SendOf(OrderEventMessage(OrderCancelled(eventId, now, orderId, reason)));
      Effect(store[orderId.value := cancelled], [announce], compensation, [])
  }

  function DeliveryScheduledStep(store: Store, orderId: OrderId, deliveryId: DeliveryId): Effect
  {
    if orderId.value !in store then NoEffect(store)
    else Effect(store[orderId.value := store[orderId.value].(deliveryId := Some(deliveryId.value))], [], [], [])
  }

  function DeliveryCompletedStep(store: Store, orderId: OrderId, eventId: string, now: Instant): Effect
  {
    if orderId.value !in store then NoEffect(store)
    else
      var completed := UpdatedStatus(store[orderId.value], COMPLETED, None, now);
      Effect(store[orderId.value := completed], [SendOf(OrderEventMessage(OrderCompleted(eventId, now, orderId, now)))], [], [])
  }

  function DeliveryFailedStep(store: Store, orderId: OrderId, reason: string, eventId: string, now: Instant): Effect
  {
    if orderId.value !in store then NoEffect(store)
    else
      var order := store[orderId.value];
      var compensation := RefundFor(order, "Delivery failed: " + reason);
      var failed := UpdatedStatus(order, FAILED, Some("Delivery failed: " + reason), now);
      var announce := SendOf(OrderEventMessage(OrderCancelled(eventId, now, orderId, reason)));
      Effect(store[orderId.value := failed], [announce], compensation, [])
  }

  /** Only the addressed order changes. */
  predicate OnlyChanged(store: Store, after: Store, id: Uuid)
  {
    after.Keys == store.Keys && forall k :: k in store && k != id ==> after[k] == store[k]
  }

  /** findOrder returns null for an unknown id, and every handler then does nothing at all. */
  lemma UnknownOrderIsIgnored(store: Store, orderId: OrderId, ticketId: TicketId, deliveryId: DeliveryId, minutes: Int32,
                              reason: string, eventId: string, now: Instant)
    requires orderId.value !in store
    ensures KitchenAcceptedStep(store, orderId, ticketId, minutes, now) == Success(Effect(store, [], [], []))
    ensures KitchenRejectedStep(store, orderId, reason, eventId, now) == Effect(store, [], [], [])
    ensures DeliveryScheduledStep(store, orderId, deliveryId) == Effect(store, [], [], [])
    ensures DeliveryCompletedStep(store, orderId, eventId, now) == Effect(store, [], [], [])
    ensures DeliveryFailedStep(store, orderId, reason, eventId, now) == Effect(store, [], [], [])
  {
  }

  /**
   * onKitchenAccepted records the ticket and moves to DELIVERY_PENDING, and
   * sends one ScheduleDelivery to the stored address with pickup
   * `estimatedMinutes` minutes from now; a blank stored address undoes it all.
   */
  lemma KitchenAcceptedEffect(store: Store, orderId: OrderId, ticketId: TicketId, estimatedMinutes: Int32, now: Instant)
    requires orderId.value in store
    ensures var r := KitchenAcceptedStep(store, orderId, ticketId, estimatedMinutes, now);
      && (r.Success? <==> !IsBlank(store[orderId.value].deliveryAddress))
      && (r.Failure? ==> r.error == IllegalArgument("Address cannot be blank"))
      && (r.Success? ==>
            && OnlyChanged(store, r.value.orders, orderId.value)
            && r.value.orders[orderId.value].status == DELIVERY_PENDING
            && r.value.orders[orderId.value].ticketId == Some(ticketId.value)
            && r.value.orders[orderId.value].updatedAt == now
            && r.value.refunds == []
            && |r.value.sends| == 1
            && r.value.sends[0].topic == Enums.DeliveryCommands
            && r.value.sends[0].message.deliveryCommand.ScheduleDelivery?
            && r.value.sends[0].message.deliveryCommand.deliveryAddress == store[orderId.value].deliveryAddress
            && r.value.sends[0].message.deliveryCommand.estimatedPickupTime - now == estimatedMinutes as int * 60000)
  {
  }

  /**
   * onKitchenRejected refunds exactly when the order holds a transaction id,
   * with that id, cancels with "Kitchen rejected: r" and announces
   * OrderCancelled(r).
   */
  lemma KitchenRejectedEffect(store: Store, orderId: OrderId, reason: string, eventId: string, now: Instant)
    requires orderId.value in store
    ensures var order, r := store[orderId.value], KitchenRejectedStep(store, orderId, reason, eventId, now);
      && OnlyChanged(store, r.orders, orderId.value)
      && (|r.refunds| == 1 <==> order.transactionId.Some?) && |r.refunds| <= 1
      && (r.refunds != [] ==> r.refunds[0] == RefundCall(order.id, order.transactionId.value, "Kitchen rejected: " + reason))
      && r.orders[orderId.value].status == CANCELLED
      && r.orders[orderId.value].cancellationReason == Some("Kitchen rejected: " + reason)
      && r.sends == [SendOf(OrderEventMessage(OrderCancelled(eventId, now, orderId, reason)))]
  {
  }

  /**
   * onDeliveryFailed refunds exactly when the order holds a transaction id,
   * with that id, fails the order while keeping the cancellation reason it
   * had, and announces OrderCancelled(r).
   */
  lemma DeliveryFailedEffect(store: Store, orderId: OrderId, reason: string, eventId: string, now: Instant)
    requires orderId.value in store
    ensures var order, r := store[orderId.value], DeliveryFailedStep(store, orderId, reason, eventId, now);
      && OnlyChanged(store, r.orders, orderId.value)
      && (|r.refunds| == 1 <==> order.transactionId.Some?) && |r.refunds| <= 1
      && (r.refunds != [] ==> r.refunds[0] == RefundCall(order.id, order.transactionId.value, "Delivery failed: " + reason))
      && r.orders[orderId.value].status == FAILED
      && r.orders[orderId.value].cancellationReason == order.cancellationReason
      && r.sends == [SendOf(OrderEventMessage(OrderCancelled(eventId, now, orderId, reason)))]
  {
  }

  /** onDeliveryScheduled records the delivery id and nothing else: not even updatedAt, and no message. */
  lemma DeliveryScheduledEffect(store: Store, orderId: OrderId, deliveryId: DeliveryId)
    requires orderId.value in store
    ensures var before, r := store[orderId.value], DeliveryScheduledStep(store, orderId, deliveryId);
      && OnlyChanged(store, r.orders, orderId.value)
      && r.orders[orderId.value].deliveryId == Some(deliveryId.value)
      && r.orders[orderId.value].(deliveryId := before.deliveryId) == before
      && r.sends == [] && r.refunds == []
  {
  }

  /** onDeliveryCompleted completes the order, stamps completedAt and announces OrderCompleted. */
  lemma DeliveryCompletedEffect(store: Store, orderId: OrderId, eventId: string, now: Instant)
    requires orderId.value in store
    ensures var r := DeliveryCompletedStep(store, orderId, eventId, now);
      && OnlyChanged(store, r.orders, orderId.value)
      && r.orders[orderId.value].status == COMPLETED
      && r.orders[orderId.value].completedAt == Some(now)
      && r.orders[orderId.value].cancellationReason == store[orderId.value].cancellationReason
      && r.sends == [SendOf(OrderEventMessage(OrderCompleted(eventId, now, orderId, now)))]
      && r.refunds == []
  {
  }

  /**
   * No handler reads the status: each step is legal only from the state the
   * saga expects, yet the handlers apply from any state, terminal ones included.
   */
  lemma HandlerStepsLegality(from: OrderStatus)
    ensures StepIsLegal(from, DELIVERY_PENDING) <==> from == KITCHEN_PENDING
    ensures StepIsLegal(from, COMPLETED) <==> from == DELIVERY_PENDING
    ensures StepIsLegal(from, CANCELLED) <==> from !in {COMPLETED, CANCELLED, FAILED}
    ensures StepIsLegal(from, FAILED) <==> from in {PAYMENT_PENDING, DELIVERY_PENDING}
  {
  }

  /** A cancelled order still completes when a DeliveryCompleted arrives, although that step is illegal. */
  lemma CompletionAfterCancellation(store: Store, orderId: OrderId, eventId: string, now: Instant)
    requires orderId.value in store && store[orderId.value].status == CANCELLED
    ensures DeliveryCompletedStep(store, orderId, eventId, now).orders[orderId.value].status == COMPLETED
    ensures !StepIsLegal(CANCELLED, COMPLETED)
  {
  }

  /** A redelivered rejection or failure refunds the same transaction again. */
  lemma DuplicateCompensationRepeatsRefund(store: Store, orderId: OrderId, reason: string, eventId: string, eventId': string, now: Instant, later: Instant)
    ensures var first := KitchenRejectedStep(store, orderId, reason, eventId, now);
      KitchenRejectedStep(first.orders, orderId, reason, eventId', later).refunds == first.refunds
    ensures var first := DeliveryFailedStep(store, orderId, reason, eventId, now);
      DeliveryFailedStep(first.orders, orderId, reason, eventId', later).refunds == first.refunds
  {
  }
}
