/**
 * OrderSagaOrchestrator: the repository is a map from order id to Order
 * objects, the publisher's sends are the outbox, and every call to the
 * payment service is logged. Each operation is proved to have the effect
 * its SagaSteps function describes.
 */
module Orchestration {
  import opened Wrappers
  import opened Decimals
  import opened DomainPrimitives
  import opened CommonDtos
  import opened Events
  import opened Orders
  import opened Publishing
  import opened SagaSteps
  import Enums

  /** createOrder without the save: a new Order holding the request's total and, one by one, its lines. */
  method CreateOrder(request: CreateOrderRequest, id: Uuid, now: Instant) returns (order: Order)
    ensures fresh(order)
    ensures order.View() == CreatedOrder(request, id, now)
  {
    var total := LineTotalSum(request.items);
    order := new Order(id, request.customerId, request.deliveryAddress, total, now);
    ghost var created := NewOrderView(id, request.customerId, request.deliveryAddress, total, now);
    ghost var lines := EntitiesOf(request.items);
    var i := 0;
    while i < |request.items|
      invariant 0 <= i <= |request.items|
      invariant order.View() == created.(items := lines[..i])
    {
      order.AddItem(EntityOf(request.items[i]));
      assert lines[..i + 1] == lines[..i] + [EntityOf(request.items[i])];
      i := i + 1;
    }
    assert lines[..i] == lines;
  }

  /** The repository's contents. */
  ghost function StoreOf(orders: map<Uuid, Order>): Store
    reads orders.Values
  {
    map k | k in orders :: orders[k].View()
  }

  /** Saving an order changed in place updates its own entry and no other. */
  lemma SavedInPlace(before: Store, orders: map<Uuid, Order>, k: Uuid)
    requires k in orders && orders.Keys == before.Keys
    requires forall j :: j in orders && j != k ==> orders[j].View() == before[j]
    ensures StoreOf(orders) == before[k := orders[k].View()]
  {
  }

  /** Orders that no step touched still have their saved contents. */
  twostate lemma Untouched(orders: map<Uuid, Order>)
    requires forall j :: j in orders ==> unchanged(orders[j])
    ensures StoreOf(orders) == old(StoreOf(orders))
  {
  }

  /** Saving a new order adds its entry and changes no other. */
  lemma StoreOfInsert(orders: map<Uuid, Order>, k: Uuid, order: Order)
    ensures StoreOf(orders[k := order]) == StoreOf(orders)[k := order.View()]
  {
  }

  /**
   * The payment service client. Every authorization and refund request is
   * logged here; the authorization answer is a parameter of the operation
   * that asks for it, and no caller reads a refund's answer.
   */
  class PaymentClient {
    var authorizations: seq<AuthorizationCall>
    var refunds: seq<RefundCall>

    constructor()
      ensures authorizations == [] && refunds == []
    {
      authorizations := [];
      refunds := [];
    }

    method Authorize(request: AuthorizationCall)
      modifies this
      ensures authorizations == old(authorizations) + [request] && refunds == old(refunds)
    {
      authorizations := authorizations + [request];
    }

    method Refund(request: RefundCall)
      modifies this
      ensures refunds == old(refunds) + [request] && authorizations == old(authorizations)
    {
      refunds := refunds + [request];
    }
  }

  class OrderSagaOrchestrator {
    var orders: map<Uuid, Order>
    const publisher: OrderEventPublisher
    const payments: PaymentClient

    /** Every stored order sits under its own id, so distinct keys hold distinct objects. */
    ghost predicate Valid()
      reads this, orders.Values
    {
      forall k :: k in orders ==> orders[k].id == k
    }

    ghost function Store(): Store
      reads this, orders.Values
    {
      StoreOf(orders)
    }

    constructor(publisher: OrderEventPublisher, payments: PaymentClient)
      ensures Valid() && Store() == map[] && this.publisher == publisher && this.payments == payments
    {
      orders := map[];
      this.publisher := publisher;
      this.payments := payments;
    }

    method FindOrder(orderId: OrderId) returns (r: Option<Order>)
      ensures r.Some? <==> orderId.value in orders
      ensures r.Some? ==> r.value == orders[orderId.value]
    {
      if orderId.value in orders {
        r := Some(orders[orderId.value]);
      } else {
        r := None;
      }
    }

    /**
     * initiateSaga. The total is checked before the save because a failing
     * `MonetaryAmount(order.totalAmount)` rolls the save back.
     */
    method InitiateSaga(request: CreateOrderRequest, id: Uuid, createdEventId: string, cancelledEventId: string,
                        response: AuthorizationResponse, now: Instant) returns (r: Result<Order, Error>)
      requires Valid()
      modifies this, publisher, payments
      ensures Valid()
      ensures payments.refunds == old(payments.refunds)
      ensures var e := Initiate(old(Store()), request, id, createdEventId, cancelledEventId, response, now);
        && (r.Success? <==> e.Success?)
        && (e.Failure? ==> r.error == e.error && Store() == old(Store()) && publisher.sent == old(publisher.sent)
                           && payments.authorizations == old(payments.authorizations))
        && (e.Success? ==> Store() == e.value.orders && payments.authorizations == old(payments.authorizations) + e.value.authorizations && publisher.sent == old(publisher.sent) + e.value.sends
                           && id in orders && r.value == orders[id] && fresh(r.value))
    {
      InitiateSavesBegun(old(Store()), request, id, createdEventId, cancelledEventId, response, now);
      r := BeginSaga(request, id, createdEventId, cancelledEventId, response, now);
      Untouched(orders);
      if r.Success? {
        // The repository holds the entity itself, so saving it now rather than
        // at creation leaves the same map.
        StoreOfInsert(orders, id, r.value);
        orders := orders[id := r.value];
        assert Store() == old(Store())[id := r.value.View()];
      }
    }

    /** createOrder, the OrderCreated event, then processPayment and sendToKitchen. */
    method BeginSaga(request: CreateOrderRequest, id: Uuid, createdEventId: string, cancelledEventId: string,
                     response: AuthorizationResponse, now: Instant) returns (r: Result<Order, Error>)
      modifies publisher, payments
      ensures payments.refunds == old(payments.refunds)
      ensures var b := Begin(request, id, createdEventId, cancelledEventId, response, now);
        && (r.Success? <==> b.Success?)
        && (b.Failure? ==> r.error == b.error && publisher.sent == old(publisher.sent)
                           && payments.authorizations == old(payments.authorizations))
        && (b.Success? ==> fresh(r.value) && r.value.id == id && r.value.View() == b.value.0
                           && payments.authorizations == old(payments.authorizations) + [AuthorizationFor(request, id)]
                           && publisher.sent == old(publisher.sent) + b.value.1)
    {
      var order := CreateOrder(request, id, now);
      var total := AmountOf(order.totalAmount);
      if total.Failure? {
        return Failure(total.error);
      }
      publisher.PublishOrderCreated(OrderId(id), CustomerId(request.customerId), total.value, createdEventId, now);
      ToOrderItemsOfEntities(request.items);
      SettlePayment(order, request.paymentMethod, request.items, response, cancelledEventId, now);
      return Success(order);
    }

    /** Steps 2 and 3 of initiateSaga: processPayment, then sendToKitchen when the payment went through. */
    method SettlePayment(order: Order, paymentMethod: Enums.PaymentMethod, items: seq<OrderItem>, response: AuthorizationResponse, cancelledEventId: string, now: Instant)
      requires order.cancellationReason.None? && order.completedAt.None?
      requires ToOrderItems(order.items) == Success(items)
      modifies order, publisher, payments
      ensures payments.authorizations == old(payments.authorizations) + [AuthorizationCall(order.id, order.totalAmount, paymentMethod)]
      ensures payments.refunds == old(payments.refunds)
      ensures var settled := Settle(old(order.View()), items, response, cancelledEventId, now);
        order.View() == settled.order && publisher.sent == old(publisher.sent) + [settled.send]
    {
      var paid := ProcessPayment(order, paymentMethod, response, cancelledEventId, now);
      if paid {
        SendToKitchen(order, now);
      }
    }

    /**
     * processPayment: PAYMENT_PENDING, one authorization request for the
     * order's id and total with the customer's payment method, then PAID with
     * the transaction id, or CANCELLED and OrderCancelled. The payment
     * service's answer is the parameter `response`.
     */
    method ProcessPayment(order: Order, paymentMethod: Enums.PaymentMethod, response: AuthorizationResponse,
                          cancelledEventId: string, now: Instant) returns (paid: bool)
      modifies order, publisher, payments
      ensures payments.authorizations == old(payments.authorizations) + [AuthorizationCall(order.id, order.totalAmount, paymentMethod)]
      ensures payments.refunds == old(payments.refunds)
      ensures paid <==> response.status == Enums.Authorized
      ensures var pending := UpdatedStatus(old(order.View()), PAYMENT_PENDING, None, now);
        order.View() == if paid then UpdatedStatus(pending.(transactionId := response.transactionId), PAID, None, now)
                        else UpdatedStatus(pending, CANCELLED, Some(PaymentRejectionReason(response)), now)
      ensures publisher.sent == old(publisher.sent) +
        if paid then [] else [SendOf(OrderEventMessage(OrderCancelled(cancelledEventId, now, OrderId(order.id), "Payment rejected")))]
    {
      order.UpdateStatus(PAYMENT_PENDING, None, now);
      payments.Authorize(AuthorizationCall(order.id, order.totalAmount, paymentMethod));
      if response.status == Enums.Authorized {
        order.transactionId := response.transactionId;
        order.UpdateStatus(PAID, None, now);
        return true;
      }
      order.UpdateStatus(CANCELLED, Some(PaymentRejectionReason(response)), now);
      publisher.PublishOrderCancelled(OrderId(order.id), "Payment rejected", cancelledEventId, now);
      return false;
    }

    /** sendToKitchen: KITCHEN_PENDING, and one PrepareOrder carrying the order's lines read back as items. */
    method SendToKitchen(order: Order, now: Instant)
      requires ToOrderItems(order.items).Success?
      modifies order, publisher
      ensures order.View() == UpdatedStatus(old(order.View()), KITCHEN_PENDING, None, now)
      ensures publisher.sent == old(publisher.sent) +
        [SendOf(KitchenCommandMessage(PrepareOrder(OrderId(order.id), ToOrderItems(old(order.items)).value, DefaultPriority, now)))]
    {
      order.UpdateStatus(KITCHEN_PENDING, None, now);
      var lines := ToOrderItems(order.items);
      publisher.SendPrepareOrder(OrderId(order.id), lines.value, DefaultPriority, now);
    }

    /** onKitchenAccepted. A blank stored address throws and rolls back, so it is checked before anything changes. */
    method OnKitchenAccepted(orderId: OrderId, ticketId: TicketId, estimatedMinutes: Int32, now: Instant) returns (r: Result<(), Error>)
      requires Valid()
      modifies orders.Values, publisher
      ensures Valid() && orders == old(orders)
      ensures var e := KitchenAcceptedStep(old(Store()), orderId, ticketId, estimatedMinutes, now);
        && (r.Success? <==> e.Success?)
        && (e.Failure? ==> r.error == e.error && Store() == old(Store()) && publisher.sent == old(publisher.sent))
        && (e.Success? ==> Store() == e.value.orders && publisher.sent == old(publisher.sent) + e.value.sends)
    {
      ghost var before := Store();
      var found := FindOrder(orderId);
      if found.None? {
        return Success(());
      }
      var order := found.value;
      var address := AddressOf(order.deliveryAddress);
      if address.Failure? {
        return Failure(address.error);
      }
      order.ticketId := Some(ticketId.value);
      order.UpdateStatus(DELIVERY_PENDING, None, now);
      var estimatedPickupTime := PlusSeconds(now, estimatedMinutes as int * 60);
      publisher.SendScheduleDelivery(orderId, address.value, estimatedPickupTime, now);
      SavedInPlace(before, orders, orderId.value);
      return Success(());
    }

    method OnKitchenRejected(orderId: OrderId, reason: string, eventId: string, now: Instant)
      requires Valid()
      modifies orders.Values, publisher, payments
      ensures Valid() && orders == old(orders)
      ensures var e := KitchenRejectedStep(old(Store()), orderId, reason, eventId, now);
        Store() == e.orders && publisher.sent == old(publisher.sent) + e.sends && payments.refunds == old(payments.refunds) + e.refunds
        && payments.authorizations == old(payments.authorizations)
    {
      ghost var before := Store();
      var found := FindOrder(orderId);
      if found.None? {
        return;
      }
      var order := found.value;
      RefundAndCancel(order, CANCELLED, "Kitchen rejected: " + reason, orderId, reason, eventId, now);
      SavedInPlace(before, orders, orderId.value);
    }

    method OnDeliveryScheduled(orderId: OrderId, deliveryId: DeliveryId)
      requires Valid()
      modifies orders.Values
      ensures Valid() && orders == old(orders)
      ensures Store() == DeliveryScheduledStep(old(Store()), orderId, deliveryId).orders
    {
      ghost var before := Store();
      var found := FindOrder(orderId);
      if found.None? {
        return;
      }
      var order := found.value;
      order.deliveryId := Some(deliveryId.value);
      SavedInPlace(before, orders, orderId.value);
    }

    method OnDeliveryCompleted(orderId: OrderId, eventId: string, now: Instant)
      requires Valid()
      modifies orders.Values, publisher
      ensures Valid() && orders == old(orders)
      ensures var e := DeliveryCompletedStep(old(Store()), orderId, eventId, now);
        Store() == e.orders && publisher.sent == old(publisher.sent) + e.sends
    {
      ghost var before := Store();
      var found := FindOrder(orderId);
      if found.None? {
        return;
      }
      var order := found.value;
      order.UpdateStatus(COMPLETED, None, now);
      publisher.PublishOrderCompleted(orderId, eventId, now);
      SavedInPlace(before, orders, orderId.value);
    }

    method OnDeliveryFailed(orderId: OrderId, reason: string, eventId: string, now: Instant)
      requires Valid()
      modifies orders.Values, publisher, payments
      ensures Valid() && orders == old(orders)
      ensures var e := DeliveryFailedStep(old(Store()), orderId, reason, eventId, now);
        Store() == e.orders && publisher.sent == old(publisher.sent) + e.sends && payments.refunds == old(payments.refunds) + e.refunds
        && payments.authorizations == old(payments.authorizations)
    {
      ghost var before := Store();
      var found := FindOrder(orderId);
      if found.None? {
        return;
      }
      var order := found.value;
      RefundAndCancel(order, FAILED, "Delivery failed: " + reason, orderId, reason, eventId, now);
      SavedInPlace(before, orders, orderId.value);
    }

    /** The compensation shared by onKitchenRejected and onDeliveryFailed: refund a paid order, set the status, announce the cancellation. */
    method RefundAndCancel(order: Order, status: OrderStatus, cause: string, orderId: OrderId, reason: string, eventId: string, now: Instant)
      modifies order, publisher, payments
      ensures order.View() == UpdatedStatus(old(order.View()), status, Some(cause), now)
      ensures payments.refunds == old(payments.refunds) + RefundFor(old(order.View()), cause)
      ensures payments.authorizations == old(payments.authorizations)
      ensures publisher.sent == old(publisher.sent) + [SendOf(OrderEventMessage(OrderCancelled(eventId, now, orderId, reason)))]
    {
      if order.transactionId.Some? {
        payments.Refund(RefundCall(order.id, order.transactionId.value, cause));
      }
      order.UpdateStatus(status, Some(cause), now);
      publisher.PublishOrderCancelled(orderId, reason, eventId, now);
    }
  }
}
