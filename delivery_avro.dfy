/**
 * The record codec between delivery commands/events and their Avro records,
 * with the same abstract record shape as the kitchen codec.
 */
module DeliveryAvro {
  import opened Wrappers
  import opened DomainPrimitives
  import opened Events
  import opened AvroCommon

  datatype ScheduleDeliveryRecord = ScheduleDeliveryRecord(deliveryAddress: string, estimatedPickupTime: int)
  datatype CancelDeliveryRecord = CancelDeliveryRecord(reason: string)

  datatype DeliveryCommandRecord = DeliveryCommandRecord(
    commandType: string,
    orderId: string,
    timestamp: int,
    scheduleDelivery: Option<ScheduleDeliveryRecord>,
    cancelDelivery: Option<CancelDeliveryRecord>)

  datatype DeliveryScheduledRecord = DeliveryScheduledRecord(deliveryId: string, estimatedDeliveryTime: int)
  datatype DeliveryPickedUpRecord = DeliveryPickedUpRecord(deliveryId: string)
  datatype DeliveryCompletedRecord = DeliveryCompletedRecord(deliveryId: string, completedAt: int)
  datatype DeliveryFailedRecord = DeliveryFailedRecord(deliveryId: string, reason: string)

  datatype DeliveryEventRecord = DeliveryEventRecord(
    eventType: string,
    eventId: string,
    orderId: string,
    timestamp: int,
    deliveryScheduled: Option<DeliveryScheduledRecord>,
    deliveryPickedUp: Option<DeliveryPickedUpRecord>,
    deliveryCompleted: Option<DeliveryCompletedRecord>,
    deliveryFailed: Option<DeliveryFailedRecord>)

  /** The symbols of the `commandType` and `eventType` enums; a record holds the symbol's text. */
  datatype CommandType = SCHEDULE_DELIVERY | CANCEL_DELIVERY
  datatype EventType = DELIVERY_SCHEDULED | DELIVERY_PICKED_UP | DELIVERY_COMPLETED | DELIVERY_FAILED

  function CommandSymbol(t: CommandType): string {
    match t
    case SCHEDULE_DELIVERY => "SCHEDULE_DELIVERY"
    case CANCEL_DELIVERY => "CANCEL_DELIVERY"
  }

  function EventSymbol(t: EventType): string {
    match t
    case DELIVERY_SCHEDULED => "DELIVERY_SCHEDULED"
    case DELIVERY_PICKED_UP => "DELIVERY_PICKED_UP"
    case DELIVERY_COMPLETED => "DELIVERY_COMPLETED"
    case DELIVERY_FAILED => "DELIVERY_FAILED"
  }

  /** The `when` over the discriminator's text: None for any text that is not a symbol. */
  function ParseCommandType(text: string): (r: Option<CommandType>)
    ensures r.Some? ==> CommandSymbol(r.value) == text
  {
    if text == "SCHEDULE_DELIVERY" then Some(SCHEDULE_DELIVERY)
    else if text == "CANCEL_DELIVERY" then Some(CANCEL_DELIVERY)
    else None
  }

  function ParseEventType(text: string): (r: Option<EventType>)
    ensures r.Some? ==> EventSymbol(r.value) == text
  {
    if text == "DELIVERY_SCHEDULED" then Some(DELIVERY_SCHEDULED)
    else if text == "DELIVERY_PICKED_UP" then Some(DELIVERY_PICKED_UP)
    else if text == "DELIVERY_COMPLETED" then Some(DELIVERY_COMPLETED)
    else if text == "DELIVERY_FAILED" then Some(DELIVERY_FAILED)
    else None
  }

  lemma CommandSymbolsParse(t: CommandType)
    ensures ParseCommandType(CommandSymbol(t)) == Some(t)
  {
  }

  lemma EventSymbolsParse(t: EventType)
    ensures ParseEventType(EventSymbol(t)) == Some(t)
  {
  }

  /** A record as it comes from the schema: every optional sub-record unset. */
  const FreshCommandRecord := DeliveryCommandRecord("", "", 0, None, None)
  const FreshEventRecord := DeliveryEventRecord("", "", "", 0, None, None, None, None)

  // ---------------------------------------------------------------- encoding

  /** The record `toAvro(command)` returns. */
  function EncodeCommand(command: DeliveryCommand): DeliveryCommandRecord {
    match command
    case ScheduleDelivery(orderId, address, pickup, timestamp) =>
      FreshCommandRecord.(commandType := CommandSymbol(SCHEDULE_DELIVERY), orderId := orderId.ToString(),
                          timestamp := timestamp, scheduleDelivery := Some(ScheduleDeliveryRecord(address, pickup)))
    case CancelDelivery(orderId, reason, timestamp) =>
      FreshCommandRecord.(commandType := CommandSymbol(CANCEL_DELIVERY), orderId := orderId.ToString(),
                          timestamp := timestamp, cancelDelivery := Some(CancelDeliveryRecord(reason)))
  }

  /** `toAvro(command)`: puts the discriminator, the common fields and the variant's sub-record into a fresh record. */
  method ToAvroCommand(command: DeliveryCommand) returns (record: DeliveryCommandRecord)
    ensures record == EncodeCommand(command)
  {
    record := FreshCommandRecord;
    match command
    case ScheduleDelivery(orderId, address, pickup, timestamp) =>
      record := record.(commandType := CommandSymbol(SCHEDULE_DELIVERY));
      record := record.(orderId := orderId.ToString());
      record := record.(timestamp := timestamp);
      var scheduleRecord := ScheduleDeliveryRecord(address, pickup);
      record := record.(scheduleDelivery := Some(scheduleRecord));
    case CancelDelivery(orderId, reason, timestamp) =>
      record := record.(commandType := CommandSymbol(CANCEL_DELIVERY));
      record := record.(orderId := orderId.ToString());
      record := record.(timestamp := timestamp);
      record := record.(cancelDelivery := Some(CancelDeliveryRecord(reason)));
  }

  /** The record `toAvro(event)` returns. */
  function EncodeEvent(event: DeliveryEvent): DeliveryEventRecord {
    var header := FreshEventRecord.(eventId := event.eventId, orderId := event.orderId.ToString(),
                                    timestamp := event.timestamp);
    match event
    case DeliveryScheduled(_, _, _, deliveryId, estimated) =>
      header.(eventType := EventSymbol(DELIVERY_SCHEDULED),
              deliveryScheduled := Some(DeliveryScheduledRecord(deliveryId.ToString(), estimated)))
    case DeliveryPickedUp(_, _, _, deliveryId) =>
      header.(eventType := EventSymbol(DELIVERY_PICKED_UP),
              deliveryPickedUp := Some(DeliveryPickedUpRecord(deliveryId.ToString())))
    case DeliveryCompleted(_, _, _, deliveryId, completedAt) =>
      header.(eventType := EventSymbol(DELIVERY_COMPLETED),
              deliveryCompleted := Some(DeliveryCompletedRecord(deliveryId.ToString(), completedAt)))
    case DeliveryFailed(_, _, _, deliveryId, reason) =>
      header.(eventType := EventSymbol(DELIVERY_FAILED),
              deliveryFailed := Some(DeliveryFailedRecord(deliveryId.ToString(), reason)))
  }

  /** `toAvro(event)`: the header puts, then the discriminator and the variant's sub-record. */
  method ToAvroEvent(event: DeliveryEvent) returns (record: DeliveryEventRecord)
    ensures record == EncodeEvent(event)
  {
    record := FreshEventRecord;
    record := record.(eventId := event.eventId);
    record := record.(orderId := event.orderId.ToString());
    record := record.(timestamp := event.timestamp);
    match event
    case DeliveryScheduled(_, _, _, deliveryId, estimated) =>
      record := record.(eventType := EventSymbol(DELIVERY_SCHEDULED));
      record := record.(deliveryScheduled := Some(DeliveryScheduledRecord(deliveryId.ToString(), estimated)));
    case DeliveryPickedUp(_, _, _, deliveryId) =>
      record := record.(eventType := EventSymbol(DELIVERY_PICKED_UP));
      record := record.(deliveryPickedUp := Some(DeliveryPickedUpRecord(deliveryId.ToString())));
    case DeliveryCompleted(_, _, _, deliveryId, completedAt) =>
      record := record.(eventType := EventSymbol(DELIVERY_COMPLETED));
      record := record.(deliveryCompleted := Some(DeliveryCompletedRecord(deliveryId.ToString(), completedAt)));
    case DeliveryFailed(_, _, _, deliveryId, reason) =>
      record := record.(eventType := EventSymbol(DELIVERY_FAILED));
      record := record.(deliveryFailed := Some(DeliveryFailedRecord(deliveryId.ToString(), reason)));
  }

  // ---------------------------------------------------------------- decoding

  /** `fromAvroCommand`: the order id is parsed before the discriminator is inspected. */
  function DecodeCommand(record: DeliveryCommandRecord): (r: Result<DeliveryCommand, Error>)
    ensures r.Success? ==> r.value.timestamp == record.timestamp
    ensures r.Success? ==> ParseCommandType(record.commandType) == Some(
      if r.value.ScheduleDelivery? then SCHEDULE_DELIVERY else CANCEL_DELIVERY)
  {
    var orderId :- OrderId.FromString(record.orderId);
    match ParseCommandType(record.commandType)
    case Some(SCHEDULE_DELIVERY) =>
      if record.scheduleDelivery.None? then Failure(NullField("scheduleDelivery"))
      else
        var address :- AddressOf(record.scheduleDelivery.value.deliveryAddress);
        Success(ScheduleDelivery(orderId, address, record.scheduleDelivery.value.estimatedPickupTime, record.timestamp))
    case Some(CANCEL_DELIVERY) =>
      if record.cancelDelivery.None? then Failure(NullField("cancelDelivery"))
      else Success(CancelDelivery(orderId, record.cancelDelivery.value.reason, record.timestamp))
    case None =>
      Failure(UnknownCommand(record.commandType))
  }

  /** `fromAvroEvent`: header fields first, then the discriminator. */
  function DecodeEvent(record: DeliveryEventRecord): (r: Result<DeliveryEvent, Error>)
    ensures r.Success? ==> r.value.eventId == record.eventId && r.value.timestamp == record.timestamp
    ensures r.Success? ==> ParseEventType(record.eventType) == Some(
      if r.value.DeliveryScheduled? then DELIVERY_SCHEDULED
      else if r.value.DeliveryPickedUp? then DELIVERY_PICKED_UP
      else if r.value.DeliveryCompleted? then DELIVERY_COMPLETED
      else DELIVERY_FAILED)
  {
    var orderId :- OrderId.FromString(record.orderId);
    match ParseEventType(record.eventType)
    case Some(DELIVERY_SCHEDULED) =>
      if record.deliveryScheduled.None? then Failure(NullField("deliveryScheduled"))
      else
        var deliveryId :- DeliveryId.FromString(record.deliveryScheduled.value.deliveryId);
        Success(DeliveryScheduled(record.eventId, record.timestamp, orderId, deliveryId,
                                  record.deliveryScheduled.value.estimatedDeliveryTime))
    case Some(DELIVERY_PICKED_UP) =>
      if record.deliveryPickedUp.None? then Failure(NullField("deliveryPickedUp"))
      else
        var deliveryId :- DeliveryId.FromString(record.deliveryPickedUp.value.deliveryId);
        Success(DeliveryPickedUp(record.eventId, record.timestamp, orderId, deliveryId))
    case Some(DELIVERY_COMPLETED) =>
      if record.deliveryCompleted.None? then Failure(NullField("deliveryCompleted"))
      else
        var deliveryId :- DeliveryId.FromString(record.deliveryCompleted.value.deliveryId);
        Success(DeliveryCompleted(record.eventId, record.timestamp, orderId, deliveryId,
                                  record.deliveryCompleted.value.completedAt))
    case Some(DELIVERY_FAILED) =>
      if record.deliveryFailed.None? then Failure(NullField("deliveryFailed"))
      else
        var deliveryId :- DeliveryId.FromString(record.deliveryFailed.value.deliveryId);
        Success(DeliveryFailed(record.eventId, record.timestamp, orderId, deliveryId,
                               record.deliveryFailed.value.reason))
    case None =>
      Failure(UnknownEvent(record.eventType))
  }

  // ---------------------------------------------------------------- properties

  lemma ScheduleRoundTrip(command: DeliveryCommand)
    requires command.ScheduleDelivery?
    ensures DecodeCommand(EncodeCommand(command)) == Success(command)
  {
    CommandSymbolsParse(SCHEDULE_DELIVERY);
    OrderIdRoundTrip(command.orderId);
  }

  lemma CancelRoundTrip(command: DeliveryCommand)
    requires command.CancelDelivery?
    ensures DecodeCommand(EncodeCommand(command)) == Success(command)
  {
    CommandSymbolsParse(CANCEL_DELIVERY);
    OrderIdRoundTrip(command.orderId);
  }

  lemma CommandRoundTrip(command: DeliveryCommand)
    ensures DecodeCommand(EncodeCommand(command)) == Success(command)
  {
    match command
    case ScheduleDelivery(_, _, _, _) => ScheduleRoundTrip(command);
    case CancelDelivery(_, _, _) => CancelRoundTrip(command);
  }

  lemma ScheduledRoundTrip(event: DeliveryEvent)
    requires event.DeliveryScheduled?
    ensures DecodeEvent(EncodeEvent(event)) == Success(event)
  {
    EventSymbolsParse(DELIVERY_SCHEDULED);
    OrderIdRoundTrip(event.orderId);
    DeliveryIdRoundTrip(event.deliveryId);
  }

  lemma PickedUpRoundTrip(event: DeliveryEvent)
    requires event.DeliveryPickedUp?
    ensures DecodeEvent(EncodeEvent(event)) == Success(event)
  {
    EventSymbolsParse(DELIVERY_PICKED_UP);
    OrderIdRoundTrip(event.orderId);
    DeliveryIdRoundTrip(event.deliveryId);
  }

  lemma CompletedRoundTrip(event: DeliveryEvent)
    requires event.DeliveryCompleted?
    ensures DecodeEvent(EncodeEvent(event)) == Success(event)
  {
    EventSymbolsParse(DELIVERY_COMPLETED);
    OrderIdRoundTrip(event.orderId);
    DeliveryIdRoundTrip(event.deliveryId);
    DecodeCompleted(EncodeEvent(event), event.orderId, event.deliveryId);
  }

  /** A completed-delivery record whose ids parse decodes to the event built from them. */
  lemma DecodeCompleted(record: DeliveryEventRecord, orderId: OrderId, deliveryId: DeliveryId)
    requires OrderId.FromString(record.orderId) == Success(orderId)
    requires ParseEventType(record.eventType) == Some(DELIVERY_COMPLETED)
    requires record.deliveryCompleted.Some? && DeliveryId.FromString(record.deliveryCompleted.value.deliveryId) == Success(deliveryId)
    ensures DecodeEvent(record) == Success(DeliveryCompleted(record.eventId, record.timestamp, orderId, deliveryId,
                                                             record.deliveryCompleted.value.completedAt))
  {
  }

  lemma FailedRoundTrip(event: DeliveryEvent)
    requires event.DeliveryFailed?
    ensures DecodeEvent(EncodeEvent(event)) == Success(event)
  {
    EventSymbolsParse(DELIVERY_FAILED);
    OrderIdRoundTrip(event.orderId);
    DeliveryIdRoundTrip(event.deliveryId);
    DecodeFailed(EncodeEvent(event), event.orderId, event.deliveryId);
  }

  /** A failed-delivery record whose ids parse decodes to the event built from them. */
  lemma DecodeFailed(record: DeliveryEventRecord, orderId: OrderId, deliveryId: DeliveryId)
    requires OrderId.FromString(record.orderId) == Success(orderId)
    requires ParseEventType(record.eventType) == Some(DELIVERY_FAILED)
    requires record.deliveryFailed.Some? && DeliveryId.FromString(record.deliveryFailed.value.deliveryId) == Success(deliveryId)
    ensures DecodeEvent(record) == Success(DeliveryFailed(record.eventId, record.timestamp, orderId, deliveryId,
                                                          record.deliveryFailed.value.reason))
  {
  }

  lemma EventRoundTrip(event: DeliveryEvent)
    ensures DecodeEvent(EncodeEvent(event)) == Success(event)
  {
    match event
    case DeliveryScheduled(_, _, _, _, _) => ScheduledRoundTrip(event);
    case DeliveryPickedUp(_, _, _, _) => PickedUpRoundTrip(event);
    case DeliveryCompleted(_, _, _, _, _) => CompletedRoundTrip(event);
    case DeliveryFailed(_, _, _, _, _) => FailedRoundTrip(event);
  }

  /** The discriminator names the variant, and only that variant's sub-record is set. */
  lemma CommandRecordShape(command: DeliveryCommand)
    ensures ParseCommandType(EncodeCommand(command).commandType) == Some(SCHEDULE_DELIVERY) <==> command.ScheduleDelivery?
    ensures ParseCommandType(EncodeCommand(command).commandType) == Some(CANCEL_DELIVERY) <==> command.CancelDelivery?
    ensures EncodeCommand(command).scheduleDelivery.Some? <==> command.ScheduleDelivery?
    ensures EncodeCommand(command).cancelDelivery.Some? <==> command.CancelDelivery?
    ensures EncodeCommand(command).timestamp == command.timestamp
  {
    CommandSymbolsParse(SCHEDULE_DELIVERY);
    CommandSymbolsParse(CANCEL_DELIVERY);
  }

  lemma EventRecordShape(event: DeliveryEvent)
    ensures ParseEventType(EncodeEvent(event).eventType) == Some(DELIVERY_SCHEDULED) <==> event.DeliveryScheduled?
    ensures ParseEventType(EncodeEvent(event).eventType) == Some(DELIVERY_PICKED_UP) <==> event.DeliveryPickedUp?
    ensures ParseEventType(EncodeEvent(event).eventType) == Some(DELIVERY_COMPLETED) <==> event.DeliveryCompleted?
    ensures ParseEventType(EncodeEvent(event).eventType) == Some(DELIVERY_FAILED) <==> event.DeliveryFailed?
    ensures EncodeEvent(event).deliveryScheduled.Some? <==> event.DeliveryScheduled?
    ensures EncodeEvent(event).deliveryPickedUp.Some? <==> event.DeliveryPickedUp?
    ensures EncodeEvent(event).deliveryCompleted.Some? <==> event.DeliveryCompleted?
    ensures EncodeEvent(event).deliveryFailed.Some? <==> event.DeliveryFailed?
    ensures EncodeEvent(event).eventId == event.eventId && EncodeEvent(event).timestamp == event.timestamp
  {
    EventSymbolsParse(DELIVERY_SCHEDULED);
    EventSymbolsParse(DELIVERY_PICKED_UP);
    EventSymbolsParse(DELIVERY_COMPLETED);
    EventSymbolsParse(DELIVERY_FAILED);
  }

  /** An unknown discriminator never yields a command; with a well-formed order id the error names it. */
  lemma UnknownCommandTypeFails(record: DeliveryCommandRecord)
    requires ParseCommandType(record.commandType).None?
    ensures DecodeCommand(record).Failure?
    ensures IsCanonicalUuid(record.orderId) ==> DecodeCommand(record) == Failure(UnknownCommand(record.commandType))
  {
  }

  lemma UnknownEventTypeFails(record: DeliveryEventRecord)
    requires ParseEventType(record.eventType).None?
    ensures DecodeEvent(record).Failure?
    ensures IsCanonicalUuid(record.orderId) ==> DecodeEvent(record) == Failure(UnknownEvent(record.eventType))
  {
  }

  /** A ScheduleDelivery record with a blank address is refused with the Address constructor's error. */
  lemma BlankAddressRejected(record: DeliveryCommandRecord)
    requires ParseCommandType(record.commandType) == Some(SCHEDULE_DELIVERY)
    requires IsCanonicalUuid(record.orderId)
    requires record.scheduleDelivery.Some? && IsBlank(record.scheduleDelivery.value.deliveryAddress)
    ensures DecodeCommand(record) == Failure(IllegalArgument("Address cannot be blank"))
  {
  }
}
