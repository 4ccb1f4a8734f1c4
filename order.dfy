/**
 * The Order aggregate: its persisted item lines, its status enumeration and
 * the mutable entity the orchestrator updates in place.
 */
module Orders {
  import opened Wrappers
  import opened Decimals
  import opened DomainPrimitives
  import opened CommonDtos
  import opened Saga

  datatype OrderStatus =
    CREATED | PAYMENT_PENDING | PAID | KITCHEN_PENDING | DELIVERY_PENDING | COMPLETED | CANCELLED | FAILED

  /** The enum constant's name. */
  function StatusName(s: OrderStatus): string
  {
    match s
    case CREATED => "CREATED"
    case PAYMENT_PENDING => "PAYMENT_PENDING"
    case PAID => "PAID"
    case KITCHEN_PENDING => "KITCHEN_PENDING"
    case DELIVERY_PENDING => "DELIVERY_PENDING"
    case COMPLETED => "COMPLETED"
    case CANCELLED => "CANCELLED"
    case FAILED => "FAILED"
  }

  /**
   * OrderStatus.toSagaState: the same-named saga state. The terminal states
   * carry the default payloads ("Unknown", and the clock reading `now`).
   */
  function ToSagaState(s: OrderStatus, now: Instant): (r: SagaState)
    ensures DisplayName(r) == StatusName(s)
    ensures IsTerminal(r) <==> s in {COMPLETED, CANCELLED, FAILED}
  {
    match s
    case CREATED => Created
    case PAYMENT_PENDING => PaymentPending
    case PAID => Paid
    case KITCHEN_PENDING => KitchenPending
    case DELIVERY_PENDING => DeliveryPending
    case COMPLETED => Completed(now)
    case CANCELLED => Cancelled("Unknown", now)
    case FAILED => Failed("Unknown", now)
  }

  /** Distinct statuses map to distinct saga variants. */
  lemma ToSagaStateIsInjective(s: OrderStatus, t: OrderStatus, now: Instant, later: Instant)
    ensures Tag(ToSagaState(s, now)) == Tag(ToSagaState(t, later)) <==> s == t
  {
  }

  // ---------------------------------------------------------------- item lines

  /** A persisted item line: the value types unwrapped to String, Int and BigDecimal. */
  datatype OrderItemEntity = OrderItemEntity(productId: string, productName: string, quantity: Int32, unitPrice: Decimal)

  /** The line the orchestrator stores for a request item. */
  function EntityOf(item: OrderItem): OrderItemEntity
  {
    OrderItemEntity(item.productId, item.productName, item.quantity, item.unitPrice)
  }

  /** OrderItemEntity.toOrderItem: the ProductId and MonetaryAmount constructors re-check their requirements. */
  function ToOrderItem(e: OrderItemEntity): (r: Result<OrderItem, Error>)
    ensures r.Success? <==> !IsBlank(e.productId) && e.unitPrice.unscaled >= 0
    ensures r.Success? ==> EntityOf(r.value) == e
  {
    var productId :- ProductIdOf(e.productId);
    SignOfValue(e.unitPrice);
    var unitPrice :- AmountOf(e.unitPrice);
    Success(OrderItem(productId, e.productName, e.quantity, unitPrice))
  }

  /** `items.map { it.toOrderItem() }`: in order, raising the first failure. */
  function ToOrderItems(es: seq<OrderItemEntity>): (r: Result<seq<OrderItem>, Error>)
    ensures r.Success? <==> forall i :: 0 <= i < |es| ==> ToOrderItem(es[i]).Success?
    ensures r.Success? ==> |r.value| == |es| && forall i :: 0 <= i < |es| ==> ToOrderItem(es[i]) == Success(r.value[i])
    ensures r.Failure? ==> exists k :: 0 <= k < |es| && ToOrderItem(es[k]).Failure? && r.error == ToOrderItem(es[k]).error
                                    && forall i :: 0 <= i < k ==> ToOrderItem(es[i]).Success?
  {
    if es == [] then Success([])
    else
      var head :- ToOrderItem(es[0]);
      var tail :- ToOrderItems(es[1..]);
      Success([head] + tail)
  }

  function EntitiesOf(items: seq<OrderItem>): (r: seq<OrderItemEntity>)
    ensures |r| == |items|
    ensures forall i :: 0 <= i < |items| ==> r[i] == EntityOf(items[i])
  {
    if items == [] then [] else [EntityOf(items[0])] + EntitiesOf(items[1..])
  }

  /** Lines stored from request items read back as the same items, in order. */
  lemma {:induction false} ToOrderItemsOfEntities(items: seq<OrderItem>)
    ensures ToOrderItems(EntitiesOf(items)) == Success(items)
  {
    if items != [] {
      ToOrderItemsOfEntities(items[1..]);
      var e := EntityOf(items[0]);
      assert ToOrderItem(e) == Success(items[0]);
      assert EntitiesOf(items)[1..] == EntitiesOf(items[1..]);
      assert [items[0]] + items[1..] == items;
    }
  }

  // ---------------------------------------------------------------- the aggregate

  /** The full state of an Order, field by field. */
  datatype OrderView = OrderView(
    id: Uuid,
    customerId: Uuid,
    deliveryAddress: string,
    totalAmount: Decimal,
    status: OrderStatus,
    transactionId: Option<string>,
    ticketId: Option<Uuid>,
    deliveryId: Option<Uuid>,
    cancellationReason: Option<string>,
    createdAt: Instant,
    updatedAt: Instant,
    completedAt: Option<Instant>,
    items: seq<OrderItemEntity>)

  /** A freshly constructed Order. */
  function NewOrderView(id: Uuid, customerId: Uuid, deliveryAddress: string, totalAmount: Decimal, now: Instant): OrderView
  {
    OrderView(id, customerId, deliveryAddress, totalAmount, CREATED, None, None, None, None, now, now, None, [])
  }

  /** The state after `updateStatus(newStatus, reason)` at time `now`. */
  function UpdatedStatus(v: OrderView, newStatus: OrderStatus, reason: Option<string>, now: Instant): OrderView
  {
    v.(status := newStatus,
       updatedAt := now,
       cancellationReason := if newStatus == CANCELLED then reason else v.cancellationReason,
       completedAt := if newStatus == COMPLETED then Some(now) else v.completedAt)
  }

  /** A new order is CREATED, with no transaction, ticket, delivery, reason or completion, and no lines. */
  lemma NewOrderIsCreated(id: Uuid, customerId: Uuid, deliveryAddress: string, totalAmount: Decimal, now: Instant)
    ensures var v := NewOrderView(id, customerId, deliveryAddress, totalAmount, now);
      v.status == CREATED && v.transactionId.None? && v.ticketId.None? && v.deliveryId.None?
      && v.cancellationReason.None? && v.completedAt.None? && v.items == [] && v.createdAt == v.updatedAt == now
  {
  }

  /**
   * updateStatus sets the status and refreshes updatedAt; it records the
   * reason only for CANCELLED (so FAILED keeps the previous reason) and stamps
   * completedAt only for COMPLETED; every other field is left as it was.
   */
  lemma UpdatedStatusEffect(v: OrderView, s: OrderStatus, reason: Option<string>, now: Instant)
    ensures var w := UpdatedStatus(v, s, reason, now);
      w.status == s && w.updatedAt == now
      && (s == CANCELLED ==> w.cancellationReason == reason)
      && (s != CANCELLED ==> w.cancellationReason == v.cancellationReason)
      && (s == COMPLETED ==> w.completedAt == Some(now))
      && (s != COMPLETED ==> w.completedAt == v.completedAt)
      && w.id == v.id && w.customerId == v.customerId && w.deliveryAddress == v.deliveryAddress
      && w.totalAmount == v.totalAmount && w.items == v.items && w.transactionId == v.transactionId
      && w.ticketId == v.ticketId && w.deliveryId == v.deliveryId && w.createdAt == v.createdAt
  {
  }

  class Order {
    const id: Uuid
    const customerId: Uuid
    const deliveryAddress: string
    const totalAmount: Decimal
    var status: OrderStatus
    var transactionId: Option<string>
    var ticketId: Option<Uuid>
    var deliveryId: Option<Uuid>
    var cancellationReason: Option<string>
    const createdAt: Instant
    var updatedAt: Instant
    var completedAt: Option<Instant>
    var items: seq<OrderItemEntity>

    function View(): OrderView
      reads this
    {
      OrderView(id, customerId, deliveryAddress, totalAmount, status, transactionId, ticketId, deliveryId,
                cancellationReason, createdAt, updatedAt, completedAt, items)
    }

    /** The constructor with its defaults; the random id and the clock are parameters. */
    constructor(id: Uuid, customerId: Uuid, deliveryAddress: string, totalAmount: Decimal, now: Instant)
      ensures View() == NewOrderView(id, customerId, deliveryAddress, totalAmount, now)
    {
      this.id := id;
      this.customerId := customerId;
      this.deliveryAddress := deliveryAddress;
      this.totalAmount := totalAmount;
      status := CREATED;
      transactionId := None;
      ticketId := None;
      deliveryId := None;
      cancellationReason := None;
      createdAt := now;
      updatedAt := now;
      completedAt := None;
      items := [];
    }

    function OrderIdOf(): OrderId
      reads this
    {
      OrderId(id)
    }

    /** `items.add(line)` */
    method AddItem(line: OrderItemEntity)
      modifies this
      ensures View() == old(View()).(items := old(items) + [line])
    {
      items := items + [line];
    }

    method UpdateStatus(newStatus: OrderStatus, reason: Option<string>, now: Instant)
      modifies this
      ensures View() == UpdatedStatus(old(View()), newStatus, reason, now)
    {
      status := newStatus;
      updatedAt := now;
      if newStatus == CANCELLED {
        cancellationReason := reason;
      }
      if newStatus == COMPLETED {
        completedAt := Some(now);
      }
    }

    /** toSummary: the lines are converted first, then the amount and the address are checked. */
    function ToSummary(): (r: Result<OrderSummary, Error>)
      reads this
      ensures r.Success? ==> r.value.orderId == OrderId(id) && r.value.customerId == CustomerId(customerId)
      ensures r.Success? ==> r.value.totalAmount == totalAmount && r.value.deliveryAddress == deliveryAddress
      ensures r.Success? ==> |r.value.items| == |items|
      ensures r.Success? <==> ToOrderItems(items).Success? && totalAmount.unscaled >= 0 && !IsBlank(deliveryAddress)
    {
      var lines :- ToOrderItems(items);
      SignOfValue(totalAmount);
      var amount :- AmountOf(totalAmount);
      var address :- AddressOf(deliveryAddress);
      Success(OrderSummary(OrderId(id), CustomerId(customerId), lines, amount, address))
    }
  }

  /** The summary of an order whose lines came from request items carries those items, in order. */
  lemma SummaryKeepsItems(o: Order, items: seq<OrderItem>)
    requires o.items == EntitiesOf(items)
    requires o.totalAmount.unscaled >= 0 && !IsBlank(o.deliveryAddress)
    ensures o.ToSummary().Success? && o.ToSummary().value.items == items
  {
    ToOrderItemsOfEntities(items);
  }
}
