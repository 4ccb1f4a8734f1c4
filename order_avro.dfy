/**
 * The record codec between order events and their Avro records. The total
 * amount travels as its plain decimal string.
 */
module OrderAvro {
  import opened Wrappers
  import opened Decimals
  import opened DomainPrimitives
  import opened Events
  import opened AvroCommon

  datatype OrderCreatedRecord = OrderCreatedRecord(customerId: string, totalAmount: string)
  datatype OrderCompletedRecord = OrderCompletedRecord(completedAt: int)
  datatype OrderCancelledRecord = OrderCancelledRecord(reason: string)

  datatype OrderEventRecord = OrderEventRecord(
    eventType: string,
    eventId: string,
    orderId: string,
    timestamp: int,
    orderCreated: Option<OrderCreatedRecord>,
    orderCompleted: Option<OrderCompletedRecord>,
    orderCancelled: Option<OrderCancelledRecord>)

  /** The symbols of the `eventType` enum; a record holds the symbol's text. */
  datatype EventType = ORDER_CREATED | ORDER_COMPLETED | ORDER_CANCELLED

  function EventSymbol(t: EventType): string {
    match t
    case ORDER_CREATED => "ORDER_CREATED"
    case ORDER_COMPLETED => "ORDER_COMPLETED"
    case ORDER_CANCELLED => "ORDER_CANCELLED"
  }

  /** The `when` over the discriminator's text: None for any text that is not a symbol. */
  function ParseEventType(text: string): (r: Option<EventType>)
    ensures r.Some? ==> EventSymbol(r.value) == text
  {
    if text == "ORDER_CREATED" then Some(ORDER_CREATED)
    else if text == "ORDER_COMPLETED" then Some(ORDER_COMPLETED)
    else if text == "ORDER_CANCELLED" then Some(ORDER_CANCELLED)
    else None
  }

  lemma EventSymbolsParse(t: EventType)
    ensures ParseEventType(EventSymbol(t)) == Some(t)
  {
  }

  /** A record as it comes from the schema: every optional sub-record unset. */
  const FreshEventRecord := OrderEventRecord("", "", "", 0, None, None, None)

  /** The record `toAvro(event)` returns. */
  function EncodeEvent(event: OrderEvent): OrderEventRecord {
    var header := FreshEventRecord.(eventId := event.eventId, orderId := event.orderId.ToString(),
                                    timestamp := event.timestamp);
    match event
    case OrderCreated(_, _, _, customerId, totalAmount) =>
      header.(eventType := EventSymbol(ORDER_CREATED),
              orderCreated := Some(OrderCreatedRecord(customerId.ToString(), ToPlainString(totalAmount))))
    case OrderCompleted(_, _, _, completedAt) =>
      header.(eventType := EventSymbol(ORDER_COMPLETED), orderCompleted := Some(OrderCompletedRecord(completedAt)))
    case OrderCancelled(_, _, _, reason) =>
      header.(eventType := EventSymbol(ORDER_CANCELLED), orderCancelled := Some(OrderCancelledRecord(reason)))
  }

  /** `toAvro(event)`: the header puts, then the discriminator and the variant's sub-record. */
  method ToAvroEvent(event: OrderEvent) returns (record: OrderEventRecord)
    ensures record == EncodeEvent(event)
  {
    record := FreshEventRecord;
    record := record.(eventId := event.eventId);
    record := record.(orderId := event.orderId.ToString());
    record := record.(timestamp := event.timestamp);
    match event
    case OrderCreated(_, _, _, customerId, totalAmount) =>
      record := record.(eventType := EventSymbol(ORDER_CREATED));
      var createdRecord := OrderCreatedRecord(customerId.ToString(), ToPlainString(totalAmount));
      record := record.(orderCreated := Some(createdRecord));
    case OrderCompleted(_, _, _, completedAt) =>
      record := record.(eventType := EventSymbol(ORDER_COMPLETED));
      record := record.(orderCompleted := Some(OrderCompletedRecord(completedAt)));
    case OrderCancelled(_, _, _, reason) =>
      record := record.(eventType := EventSymbol(ORDER_CANCELLED));
      record := record.(orderCancelled := Some(OrderCancelledRecord(reason)));
  }

  /** `fromAvroEvent`: header fields first, then the discriminator; the amount is re-checked for sign. */
  function DecodeEvent(record: OrderEventRecord): (r: Result<OrderEvent, Error>)
    ensures r.Success? ==> r.value.eventId == record.eventId && r.value.timestamp == record.timestamp
    ensures r.Success? ==> ParseEventType(record.eventType) == Some(
      if r.value.OrderCreated? then ORDER_CREATED else if r.value.OrderCompleted? then ORDER_COMPLETED else ORDER_CANCELLED)
  {
    var orderId :- OrderId.FromString(record.orderId);
    match ParseEventType(record.eventType)
    case Some(ORDER_CREATED) =>
      if record.orderCreated.None? then Failure(NullField("orderCreated"))
      else
        var customerId :- CustomerId.FromString(record.orderCreated.value.customerId);
        var totalAmount :- AmountOfString(record.orderCreated.value.totalAmount);
        Success(OrderCreated(record.eventId, record.timestamp, orderId, customerId, totalAmount))
    case Some(ORDER_COMPLETED) =>
      if record.orderCompleted.None? then Failure(NullField("orderCompleted"))
      else Success(OrderCompleted(record.eventId, record.timestamp, orderId, record.orderCompleted.value.completedAt))
    case Some(ORDER_CANCELLED) =>
      if record.orderCancelled.None? then Failure(NullField("orderCancelled"))
      else Success(OrderCancelled(record.eventId, record.timestamp, orderId, record.orderCancelled.value.reason))
    case None =>
      Failure(UnknownEvent(record.eventType))
  }

  // ---------------------------------------------------------------- properties

  lemma CreatedRoundTrip(event: OrderEvent)
    requires event.OrderCreated?
    ensures DecodeEvent(EncodeEvent(event)) == Success(event)
  {
    EventSymbolsParse(ORDER_CREATED);
    OrderIdRoundTrip(event.orderId);
    CustomerIdRoundTrip(event.customerId);
    AmountPlainStringRoundTrip(event.totalAmount);
  }

  lemma CompletedRoundTrip(event: OrderEvent)
    requires event.OrderCompleted?
    ensures DecodeEvent(EncodeEvent(event)) == Success(event)
  {
    EventSymbolsParse(ORDER_COMPLETED);
    OrderIdRoundTrip(event.orderId);
  }

  lemma CancelledRoundTrip(event: OrderEvent)
    requires event.OrderCancelled?
    ensures DecodeEvent(EncodeEvent(event)) == Success(event)
  {
    EventSymbolsParse(ORDER_CANCELLED);
    OrderIdRoundTrip(event.orderId);
  }

  lemma EventRoundTrip(event: OrderEvent)
    ensures DecodeEvent(EncodeEvent(event)) == Success(event)
  {
    match event
    case OrderCreated(_, _, _, _, _) => CreatedRoundTrip(event);
    case OrderCompleted(_, _, _, _) => CompletedRoundTrip(event);
    case OrderCancelled(_, _, _, _) => CancelledRoundTrip(event);
  }

  /** The discriminator names the variant, only that sub-record is set, and the header is always written. */
  lemma EventRecordShape(event: OrderEvent)
    ensures ParseEventType(EncodeEvent(event).eventType) == Some(ORDER_CREATED) <==> event.OrderCreated?
    ensures ParseEventType(EncodeEvent(event).eventType) == Some(ORDER_COMPLETED) <==> event.OrderCompleted?
    ensures ParseEventType(EncodeEvent(event).eventType) == Some(ORDER_CANCELLED) <==> event.OrderCancelled?
    ensures EncodeEvent(event).orderCreated.Some? <==> event.OrderCreated?
    ensures EncodeEvent(event).orderCompleted.Some? <==> event.OrderCompleted?
    ensures EncodeEvent(event).orderCancelled.Some? <==> event.OrderCancelled?
    ensures EncodeEvent(event).eventId == event.eventId && EncodeEvent(event).timestamp == event.timestamp
    ensures EncodeEvent(event).orderId == event.orderId.ToString()
  {
    EventSymbolsParse(ORDER_CREATED);
    EventSymbolsParse(ORDER_COMPLETED);
    EventSymbolsParse(ORDER_CANCELLED);
  }

  lemma UnknownEventTypeFails(record: OrderEventRecord)
    requires ParseEventType(record.eventType).None?
    ensures DecodeEvent(record).Failure?
    ensures IsCanonicalUuid(record.orderId) ==> DecodeEvent(record) == Failure(UnknownEvent(record.eventType))
  {
  }

  /** A negative total in an OrderCreated record is refused by MonetaryAmount's own check. */
  lemma NegativeTotalRejected(record: OrderEventRecord, d: Decimal)
    requires ParseEventType(record.eventType) == Some(ORDER_CREATED)
    requires IsCanonicalUuid(record.orderId)
    requires record.orderCreated.Some? && IsCanonicalUuid(record.orderCreated.value.customerId)
    requires ParseDecimal(record.orderCreated.value.totalAmount) == Success(d) && d.unscaled < 0
    ensures DecodeEvent(record) == Failure(IllegalArgument("MonetaryAmount cannot be negative"))
  {
    SignOfValue(d);
  }
}
