/**
 * The record codec between kitchen commands/events and their Avro records.
 * A GenericRecord is modelled abstractly: the discriminator as the text of
 * its enum symbol, the common fields, and one optional sub-record per
 * variant (None standing for an unset, null field).
 */
module KitchenAvro {
  import opened Wrappers
  import opened Decimals
  import opened DomainPrimitives
  import opened CommonDtos
  import opened Events
  import opened AvroCommon

  datatype ItemRecord = ItemRecord(productId: string, productName: string, quantity: Int32, unitPrice: string)
  datatype PrepareOrderRecord = PrepareOrderRecord(items: seq<ItemRecord>, priority: Int32)
  datatype CancelTicketRecord = CancelTicketRecord(reason: string)

  datatype KitchenCommandRecord = KitchenCommandRecord(
    commandType: string,
    orderId: string,
    timestamp: int,
    prepareOrder: Option<PrepareOrderRecord>,
    cancelTicket: Option<CancelTicketRecord>)

  datatype TicketAcceptedRecord = TicketAcceptedRecord(ticketId: string, estimatedPrepTimeMinutes: Int32)
  datatype TicketRejectedRecord = TicketRejectedRecord(reason: string)
  datatype TicketReadyRecord = TicketReadyRecord(ticketId: string)

  datatype KitchenEventRecord = KitchenEventRecord(
    eventType: string,
    eventId: string,
    orderId: string,
    timestamp: int,
    ticketAccepted: Option<TicketAcceptedRecord>,
    ticketRejected: Option<TicketRejectedRecord>,
    ticketReady: Option<TicketReadyRecord>)

  /** The symbols of the `commandType` and `eventType` enums; a record holds the symbol's text. */
  datatype CommandType = PREPARE_ORDER | CANCEL_TICKET
  datatype EventType = TICKET_ACCEPTED | TICKET_REJECTED | TICKET_READY

  function CommandSymbol(t: CommandType): string {
    match t
    case PREPARE_ORDER => "PREPARE_ORDER"
    case CANCEL_TICKET => "CANCEL_TICKET"
  }

  function EventSymbol(t: EventType): string {
    match t
    case TICKET_ACCEPTED => "TICKET_ACCEPTED"
    case TICKET_REJECTED => "TICKET_REJECTED"
    case TICKET_READY => "TICKET_READY"
  }

  /** The `when` over the discriminator's text: None for any text that is not a symbol. */
  function ParseCommandType(text: string): (r: Option<CommandType>)
    ensures r.Some? ==> CommandSymbol(r.value) == text
  {
    if text == "PREPARE_ORDER" then Some(PREPARE_ORDER)
    else if text == "CANCEL_TICKET" then Some(CANCEL_TICKET)
    else None
  }

  function ParseEventType(text: string): (r: Option<EventType>)
    ensures r.Some? ==> EventSymbol(r.value) == text
  {
    if text == "TICKET_ACCEPTED" then Some(TICKET_ACCEPTED)
    else if text == "TICKET_REJECTED" then Some(TICKET_REJECTED)
    else if text == "TICKET_READY" then Some(TICKET_READY)
    else None
  }

  lemma CommandSymbolsParse(t: CommandType)
    ensures ParseCommandType(CommandSymbol(t)) == Some(t)
  {
  }

  lemma EventSymbolsParse(t: EventType)
    ensures ParseEventType(EventSymbol(t)) == Some(t)
  {
  }

  /** A record as it comes from the schema: every optional sub-record unset. */
  const FreshCommandRecord := KitchenCommandRecord("", "", 0, None, None)
  const FreshEventRecord := KitchenEventRecord("", "", "", 0, None, None, None)

  // ---------------------------------------------------------------- encoding

  function EncodeItem(item: OrderItem): ItemRecord {
    ItemRecord(item.productId, item.productName, item.quantity, ToPlainString(item.unitPrice))
  }

  function EncodeItems(items: seq<OrderItem>): (r: seq<ItemRecord>)
    ensures |r| == |items|
    ensures forall i :: 0 <= i < |items| ==> r[i] == EncodeItem(items[i])
  {
    seq(|items|, i requires 0 <= i < |items| => EncodeItem(items[i]))
  }

  /** The record `toAvro(command)` returns. */
  function EncodeCommand(command: KitchenCommand): KitchenCommandRecord {
    match command
    case PrepareOrder(orderId, items, priority, timestamp) =>
      FreshCommandRecord.(commandType := CommandSymbol(PREPARE_ORDER), orderId := orderId.ToString(), timestamp := timestamp,
                          prepareOrder := Some(PrepareOrderRecord(EncodeItems(items), priority)))
    case CancelTicket(orderId, reason, timestamp) =>
      FreshCommandRecord.(commandType := CommandSymbol(CANCEL_TICKET), orderId := orderId.ToString(), timestamp := timestamp,
                          cancelTicket := Some(CancelTicketRecord(reason)))
  }

  /** The `forEach` of `toAvro(command)` that fills the item array, one item record per item, in order. */
  method ToAvroItems(items: seq<OrderItem>) returns (itemArray: seq<ItemRecord>)
    ensures itemArray == EncodeItems(items)
  {
    itemArray := [];
    var i := 0;
    while i < |items|
      invariant 0 <= i <= |items|
      invariant |itemArray| == i
      invariant forall j :: 0 <= j < i ==> itemArray[j] == EncodeItem(items[j])
    {
      var itemRecord := ItemRecord(items[i].productId, items[i].productName, items[i].quantity,
                                   ToPlainString(items[i].unitPrice));
      itemArray := itemArray + [itemRecord];
      i := i + 1;
    }
  }

  /** `toAvro(command)`: puts the discriminator, the common fields and the variant's sub-record into a fresh record. */
  method ToAvroCommand(command: KitchenCommand) returns (record: KitchenCommandRecord)
    ensures record == EncodeCommand(command)
  {
    record := FreshCommandRecord;
    match command
    case PrepareOrder(orderId, items, priority, timestamp) =>
      record := record.(commandType := CommandSymbol(PREPARE_ORDER));
      record := record.(orderId := orderId.ToString());
      record := record.(timestamp := timestamp);
      var itemArray := ToAvroItems(items);
      record := record.(prepareOrder := Some(PrepareOrderRecord(itemArray, priority)));
    case CancelTicket(orderId, reason, timestamp) =>
      record := record.(commandType := CommandSymbol(CANCEL_TICKET));
      record := record.(orderId := orderId.ToString());
      record := record.(timestamp := timestamp);
      record := record.(cancelTicket := Some(CancelTicketRecord(reason)));
  }

  /** The record `toAvro(event)` returns. */
  function EncodeEvent(event: KitchenEvent): KitchenEventRecord {
    var header := FreshEventRecord.(eventId := event.eventId, orderId := event.orderId.ToString(),
                                    timestamp := event.timestamp);
    match event
    case TicketAccepted(_, _, _, ticketId, minutes) =>
      header.(eventType := EventSymbol(TICKET_ACCEPTED),
              ticketAccepted := Some(TicketAcceptedRecord(ticketId.ToString(), minutes)))
    case TicketRejected(_, _, _, reason) =>
      header.(eventType := EventSymbol(TICKET_REJECTED), ticketRejected := Some(TicketRejectedRecord(reason)))
    case TicketReady(_, _, _, ticketId) =>
      header.(eventType := EventSymbol(TICKET_READY), ticketReady := Some(TicketReadyRecord(ticketId.ToString())))
  }

  /** `toAvro(event)`: the header puts, then the discriminator and the variant's sub-record. */
  method ToAvroEvent(event: KitchenEvent) returns (record: KitchenEventRecord)
    ensures record == EncodeEvent(event)
  {
    record := FreshEventRecord;
    record := record.(eventId := event.eventId);
    record := record.(orderId := event.orderId.ToString());
    record := record.(timestamp := event.timestamp);
    match event
    case TicketAccepted(_, _, _, ticketId, minutes) =>
      record := record.(eventType := EventSymbol(TICKET_ACCEPTED));
      record := record.(ticketAccepted := Some(TicketAcceptedRecord(ticketId.ToString(), minutes)));
    case TicketRejected(_, _, _, reason) =>
      record := record.(eventType := EventSymbol(TICKET_REJECTED));
      record := record.(ticketRejected := Some(TicketRejectedRecord(reason)));
    case TicketReady(_, _, _, ticketId) =>
      record := record.(eventType := EventSymbol(TICKET_READY));
      record := record.(ticketReady := Some(TicketReadyRecord(ticketId.ToString())));
  }

  // ---------------------------------------------------------------- decoding

  /** One element of the item itemArray: ProductId's blank check, then the amount's parse and sign check. */
  function DecodeItem(r: ItemRecord): Result<OrderItem, Error> {
    var productId :- ProductIdOf(r.productId);
    var unitPrice :- AmountOfString(r.unitPrice);
    Success(OrderItem(productId, r.productName, r.quantity, unitPrice))
  }

  /** The itemArray's `map`: elements are decoded front to back and the first failure is raised. */
  function DecodeItems(rs: seq<ItemRecord>): (r: Result<seq<OrderItem>, Error>)
    ensures r.Success? ==> |r.value| == |rs|
  {
    if rs == [] then Success([])
    else
      var head :- DecodeItem(rs[0]);
      var tail :- DecodeItems(rs[1..]);
      Success([head] + tail)
  }

  /** `fromAvroCommand`: the order id is parsed before the discriminator is inspected. */
  function DecodeCommand(record: KitchenCommandRecord): (r: Result<KitchenCommand, Error>)
    ensures r.Success? ==> r.value.timestamp == record.timestamp
    ensures r.Success? ==> ParseCommandType(record.commandType) == Some(if r.value.PrepareOrder? then PREPARE_ORDER else CANCEL_TICKET)
  {
    var orderId :- OrderId.FromString(record.orderId);
    match ParseCommandType(record.commandType)
    case Some(PREPARE_ORDER) =>
      if record.prepareOrder.None? then Failure(NullField("prepareOrder"))
      else
        var items :- DecodeItems(record.prepareOrder.value.items);
        Success(PrepareOrder(orderId, items, record.prepareOrder.value.priority, record.timestamp))
    case Some(CANCEL_TICKET) =>
      if record.cancelTicket.None? then Failure(NullField("cancelTicket"))
      else Success(CancelTicket(orderId, record.cancelTicket.value.reason, record.timestamp))
    case None =>
      Failure(UnknownCommand(record.commandType))
  }

  /** `fromAvroEvent`: header fields first, then the discriminator. */
  function DecodeEvent(record: KitchenEventRecord): (r: Result<KitchenEvent, Error>)
    ensures r.Success? ==> r.value.eventId == record.eventId && r.value.timestamp == record.timestamp
    ensures r.Success? ==> ParseEventType(record.eventType) == Some(
      if r.value.TicketAccepted? then TICKET_ACCEPTED else if r.value.TicketRejected? then TICKET_REJECTED else TICKET_READY)
  {
    var orderId :- OrderId.FromString(record.orderId);
    match ParseEventType(record.eventType)
    case Some(TICKET_ACCEPTED) =>
      if record.ticketAccepted.None? then Failure(NullField("ticketAccepted"))
      else
        var ticketId :- TicketId.FromString(record.ticketAccepted.value.ticketId);
        Success(TicketAccepted(record.eventId, record.timestamp, orderId, ticketId,
                               record.ticketAccepted.value.estimatedPrepTimeMinutes))
    case Some(TICKET_REJECTED) =>
      if record.ticketRejected.None? then Failure(NullField("ticketRejected"))
      else Success(TicketRejected(record.eventId, record.timestamp, orderId, record.ticketRejected.value.reason))
    case Some(TICKET_READY) =>
      if record.ticketReady.None? then Failure(NullField("ticketReady"))
      else
        var ticketId :- TicketId.FromString(record.ticketReady.value.ticketId);
        Success(TicketReady(record.eventId, record.timestamp, orderId, ticketId))
    case None =>
      Failure(UnknownEvent(record.eventType))
  }

  // ---------------------------------------------------------------- properties

  lemma {:induction false} DecodeItemsSucceedsIffEveryItemDoes(rs: seq<ItemRecord>)
    ensures DecodeItems(rs).Success? <==> forall i :: 0 <= i < |rs| ==> DecodeItem(rs[i]).Success?
    ensures DecodeItems(rs).Success? ==> forall i :: 0 <= i < |rs| ==> DecodeItems(rs).value[i] == DecodeItem(rs[i]).value
  {
    if rs != [] {
      var tail := rs[1..];
      DecodeItemsSucceedsIffEveryItemDoes(tail);
      assert forall i :: 1 <= i < |rs| ==> rs[i] == tail[i - 1];
      if DecodeItems(rs).Success? {
        assert DecodeItems(rs).value == [DecodeItem(rs[0]).value] + DecodeItems(tail).value;
      }
    }
  }

  lemma ItemRoundTrip(item: OrderItem)
    ensures DecodeItem(EncodeItem(item)) == Success(item)
  {
    AmountPlainStringRoundTrip(item.unitPrice);
  }

  /** Items survive the codec in order and count, each unit price through its plain decimal string. */
  lemma ItemsRoundTrip(items: seq<OrderItem>)
    ensures DecodeItems(EncodeItems(items)) == Success(items)
  {
    var rs := EncodeItems(items);
    forall i | 0 <= i < |items|
      ensures DecodeItem(rs[i]) == Success(items[i])
    {
      ItemRoundTrip(items[i]);
    }
    DecodeItemsPointwise(rs, items);
  }

  /** A list whose every record decodes to the matching item decodes to the whole list. */
  lemma {:induction false} DecodeItemsPointwise(rs: seq<ItemRecord>, items: seq<OrderItem>)
    requires |rs| == |items|
    requires forall i :: 0 <= i < |rs| ==> DecodeItem(rs[i]) == Success(items[i])
    ensures DecodeItems(rs) == Success(items)
  {
    if rs != [] {
      DecodeItemsPointwise(rs[1..], items[1..]);
      DecodeItemsCons(rs, items[0], items[1..]);
      assert [items[0]] + items[1..] == items;
    }
  }

  /** A non-empty list decodes to its decoded head before its decoded tail. */
  lemma DecodeItemsCons(rs: seq<ItemRecord>, head: OrderItem, tail: seq<OrderItem>)
    requires rs != [] && DecodeItem(rs[0]) == Success(head) && DecodeItems(rs[1..]) == Success(tail)
    ensures DecodeItems(rs) == Success([head] + tail)
  {
  }

  lemma CommandRoundTrip(command: KitchenCommand)
    ensures DecodeCommand(EncodeCommand(command)) == Success(command)
  {
    OrderIdRoundTrip(command.orderId);
    match command
    case PrepareOrder(_, items, _, _) =>
      CommandSymbolsParse(PREPARE_ORDER);
      ItemsRoundTrip(items);
    case CancelTicket(_, _, _) =>
      CommandSymbolsParse(CANCEL_TICKET);
  }

  lemma AcceptedRoundTrip(event: KitchenEvent)
    requires event.TicketAccepted?
    ensures DecodeEvent(EncodeEvent(event)) == Success(event)
  {
    EventSymbolsParse(TICKET_ACCEPTED);
    OrderIdRoundTrip(event.orderId);
    TicketIdRoundTrip(event.ticketId);
  }

  lemma RejectedRoundTrip(event: KitchenEvent)
    requires event.TicketRejected?
    ensures DecodeEvent(EncodeEvent(event)) == Success(event)
  {
    EventSymbolsParse(TICKET_REJECTED);
    OrderIdRoundTrip(event.orderId);
  }

  lemma ReadyRoundTrip(event: KitchenEvent)
    requires event.TicketReady?
    ensures DecodeEvent(EncodeEvent(event)) == Success(event)
  {
    EventSymbolsParse(TICKET_READY);
    OrderIdRoundTrip(event.orderId);
    TicketIdRoundTrip(event.ticketId);
    DecodeReady(EncodeEvent(event), event.orderId, event.ticketId);
  }

  /** A ready record whose ids parse decodes to the ready event built from them. */
  lemma DecodeReady(record: KitchenEventRecord, orderId: OrderId, ticketId: TicketId)
    requires OrderId.FromString(record.orderId) == Success(orderId)
    requires ParseEventType(record.eventType) == Some(TICKET_READY)
    requires record.ticketReady.Some? && TicketId.FromString(record.ticketReady.value.ticketId) == Success(ticketId)
    ensures DecodeEvent(record) == Success(TicketReady(record.eventId, record.timestamp, orderId, ticketId))
  {
  }

  lemma EventRoundTrip(event: KitchenEvent)
    ensures DecodeEvent(EncodeEvent(event)) == Success(event)
  {
    match event
    case TicketAccepted(_, _, _, _, _) => AcceptedRoundTrip(event);
    case TicketRejected(_, _, _, _) => RejectedRoundTrip(event);
    case TicketReady(_, _, _, _) => ReadyRoundTrip(event);
  }

  /** The discriminator names the variant, and only that variant's sub-record is set. */
  lemma CommandRecordShape(command: KitchenCommand)
    ensures ParseCommandType(EncodeCommand(command).commandType) == Some(PREPARE_ORDER) <==> command.PrepareOrder?
    ensures ParseCommandType(EncodeCommand(command).commandType) == Some(CANCEL_TICKET) <==> command.CancelTicket?
    ensures EncodeCommand(command).prepareOrder.Some? <==> command.PrepareOrder?
    ensures EncodeCommand(command).cancelTicket.Some? <==> command.CancelTicket?
    ensures EncodeCommand(command).timestamp == command.timestamp
  {
    CommandSymbolsParse(PREPARE_ORDER);
    CommandSymbolsParse(CANCEL_TICKET);
  }

  lemma EventRecordShape(event: KitchenEvent)
    ensures ParseEventType(EncodeEvent(event).eventType) == Some(TICKET_ACCEPTED) <==> event.TicketAccepted?
    ensures ParseEventType(EncodeEvent(event).eventType) == Some(TICKET_REJECTED) <==> event.TicketRejected?
    ensures ParseEventType(EncodeEvent(event).eventType) == Some(TICKET_READY) <==> event.TicketReady?
    ensures EncodeEvent(event).ticketAccepted.Some? <==> event.TicketAccepted?
    ensures EncodeEvent(event).ticketRejected.Some? <==> event.TicketRejected?
    ensures EncodeEvent(event).ticketReady.Some? <==> event.TicketReady?
    ensures EncodeEvent(event).eventId == event.eventId && EncodeEvent(event).timestamp == event.timestamp
  {
    EventSymbolsParse(TICKET_ACCEPTED);
    EventSymbolsParse(TICKET_REJECTED);
    EventSymbolsParse(TICKET_READY);
  }

  /** An unknown discriminator never yields a command; with a well-formed order id the error names it. */
  lemma UnknownCommandTypeFails(record: KitchenCommandRecord)
    requires ParseCommandType(record.commandType).None?
    ensures DecodeCommand(record).Failure?
    ensures IsCanonicalUuid(record.orderId) ==> DecodeCommand(record) == Failure(UnknownCommand(record.commandType))
  {
  }

  lemma UnknownEventTypeFails(record: KitchenEventRecord)
    requires ParseEventType(record.eventType).None?
    ensures DecodeEvent(record).Failure?
    ensures IsCanonicalUuid(record.orderId) ==> DecodeEvent(record) == Failure(UnknownEvent(record.eventType))
  {
  }
}
