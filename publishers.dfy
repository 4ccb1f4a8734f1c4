/**
 * The order service's outbound side: which message goes to which topic under
 * which key. The Kafka sink is an append-only sequence of sends; the Avro
 * publisher appends the mapper's record where the plain one appends the message.
 */
module Publishing {
  import opened Wrappers
  import opened DomainPrimitives
  import opened CommonDtos
  import opened Events
  import Enums
  import KitchenAvro
  import DeliveryAvro
  import OrderAvro

  /** Anything the order service publishes. */
  datatype Message =
    | KitchenCommandMessage(kitchenCommand: KitchenCommand)
    | DeliveryCommandMessage(deliveryCommand: DeliveryCommand)
    | OrderEventMessage(orderEvent: OrderEvent)

  function MessageOrderId(m: Message): OrderId
  {
    match m
    case KitchenCommandMessage(c) => c.orderId
    case DeliveryCommandMessage(c) => c.orderId
    case OrderEventMessage(e) => e.orderId
  }

  /** The topic each family is sent to. */
  function TopicOf(m: Message): Enums.Topic
  {
    match m
    case KitchenCommandMessage(_) => Enums.KitchenCommands
    case DeliveryCommandMessage(_) => Enums.DeliveryCommands
    case OrderEventMessage(_) => Enums.OrderEvents
  }

  /**
   * One `kafkaTemplate.send(topic, key, value)`. The record key is the
   * string form of `key`; keeping the id itself lets the key be compared
   * without spelling out the string.
   */
  datatype Sent = Sent(topic: Enums.Topic, key: OrderId, message: Message)

  /** The key as it goes on the wire. */
  function KeyText(key: OrderId): string
  {
    key.ToString()
  }

  /** The send every publisher method makes: the family's topic, keyed by the message's order id. */
  function SendOf(m: Message): (s: Sent)
    ensures s.message == m
  {
    Sent(TopicOf(m), MessageOrderId(m), m)
  }

  /** Every send goes to its family's topic, and its key reads back as the message's order id. */
  lemma SendRouting(m: Message)
    ensures SendOf(m).topic == Enums.KitchenCommands <==> m.KitchenCommandMessage?
    ensures SendOf(m).topic == Enums.DeliveryCommands <==> m.DeliveryCommandMessage?
    ensures SendOf(m).topic == Enums.OrderEvents <==> m.OrderEventMessage?
    ensures OrderId.FromString(KeyText(SendOf(m).key)) == Success(MessageOrderId(m))
    ensures Enums.TopicName(SendOf(m).topic) in {"kitchen.commands", "delivery.commands", "order.events"}
  {
    OrderIdRoundTrip(MessageOrderId(m));
  }

  // ---------------------------------------------------------------- Avro payloads

  /** A mapper record as handed to the serializer. */
  datatype Payload =
    | KitchenCommandPayload(kitchenCommand: KitchenAvro.KitchenCommandRecord)
    | DeliveryCommandPayload(deliveryCommand: DeliveryAvro.DeliveryCommandRecord)
    | OrderEventPayload(orderEvent: OrderAvro.OrderEventRecord)

  function Encode(m: Message): Payload
  {
    match m
    case KitchenCommandMessage(c) => KitchenCommandPayload(KitchenAvro.EncodeCommand(c))
    case DeliveryCommandMessage(c) => DeliveryCommandPayload(DeliveryAvro.EncodeCommand(c))
    case OrderEventMessage(e) => OrderEventPayload(OrderAvro.EncodeEvent(e))
  }

  /** What a consumer of the topic reads back with the matching mapper. */
  function Decode(p: Payload): Result<Message, Error>
  {
    match p
    case KitchenCommandPayload(r) =>
      var c :- KitchenAvro.DecodeCommand(r);
      Success(KitchenCommandMessage(c))
    case DeliveryCommandPayload(r) =>
      var c :- DeliveryAvro.DecodeCommand(r);
      Success(DeliveryCommandMessage(c))
    case OrderEventPayload(r) =>
      var e :- OrderAvro.DecodeEvent(r);
      Success(OrderEventMessage(e))
  }

  lemma DecodeEncode(m: Message)
    ensures Decode(Encode(m)) == Success(m)
  {
    match m
    case KitchenCommandMessage(c) => KitchenAvro.CommandRoundTrip(c);
    case DeliveryCommandMessage(c) => DeliveryAvro.CommandRoundTrip(c);
    case OrderEventMessage(e) => OrderAvro.EventRoundTrip(e);
  }

  /** One send of serialized bytes; the bytes are the payload record. */
  datatype Published = Published(topic: Enums.Topic, key: OrderId, payload: Payload)

  function EncodeSent(s: Sent): Published
  {
    Published(s.topic, s.key, Encode(s.message))
  }

  function EncodeAllSent(ss: seq<Sent>): (ps: seq<Published>)
    ensures |ps| == |ss|
    ensures forall i :: 0 <= i < |ss| ==> ps[i] == EncodeSent(ss[i])
  {
    MapSeq(EncodeSent, ss)
  }

  lemma EncodeAllSentAppend(a: seq<Sent>, b: seq<Sent>)
    ensures EncodeAllSent(a + b) == EncodeAllSent(a) + EncodeAllSent(b)
  {
    MapSeqAppend(EncodeSent, a, b);
  }

  /** The encodings of one and of two sends, spelled out. */
  lemma EncodeShortSends(a: Sent, b: Sent)
    ensures EncodeAllSent([]) == []
    ensures EncodeAllSent([a]) == [EncodeSent(a)]
    ensures EncodeAllSent([a, b]) == [EncodeSent(a), EncodeSent(b)]
  {
  }

  /** Each Avro send has the plain send's topic and key, and its payload decodes to the plain send's message. */
  lemma EncodedSendDecodes(s: Sent)
    ensures EncodeSent(s).topic == s.topic && EncodeSent(s).key == s.key
    ensures Decode(EncodeSent(s).payload) == Success(s.message)
  {
    DecodeEncode(s.message);
  }

  // ---------------------------------------------------------------- the publishers

  class OrderEventPublisher {
    var sent: seq<Sent>

    constructor()
      ensures sent == []
    {
      sent := [];
    }

    method SendPrepareOrder(orderId: OrderId, items: seq<OrderItem>, priority: Int32, now: Instant)
      modifies this
      ensures sent == old(sent) + [SendOf(KitchenCommandMessage(PrepareOrder(orderId, items, priority, now)))]
    {
      var command := PrepareOrder(orderId, items, priority, now);
      sent := sent + [Sent(Enums.KitchenCommands, orderId, KitchenCommandMessage(command))];
    }

    method SendCancelTicket(orderId: OrderId, reason: string, now: Instant)
      modifies this
      ensures sent == old(sent) + [SendOf(KitchenCommandMessage(CancelTicket(orderId, reason, now)))]
    {
      var command := CancelTicket(orderId, reason, now);
      sent := sent + [Sent(Enums.KitchenCommands, orderId, KitchenCommandMessage(command))];
    }

    method SendScheduleDelivery(orderId: OrderId, address: Address, estimatedPickupTime: Instant, now: Instant)
      modifies this
      ensures sent == old(sent) + [SendOf(DeliveryCommandMessage(ScheduleDelivery(orderId, address, estimatedPickupTime, now)))]
    {
      var command := ScheduleDelivery(orderId, address, estimatedPickupTime, now);
      sent := sent + [Sent(Enums.DeliveryCommands, orderId, DeliveryCommandMessage(command))];
    }

    method SendCancelDelivery(orderId: OrderId, reason: string, now: Instant)
      modifies this
      ensures sent == old(sent) + [SendOf(DeliveryCommandMessage(CancelDelivery(orderId, reason, now)))]
    {
      var command := CancelDelivery(orderId, reason, now);
      sent := sent + [Sent(Enums.DeliveryCommands, orderId, DeliveryCommandMessage(command))];
    }

    /** The event's random id and the clock are parameters. */
    method PublishOrderCreated(orderId: OrderId, customerId: CustomerId, totalAmount: MonetaryAmount, eventId: string, now: Instant)
      modifies this
      ensures sent == old(sent) + [SendOf(OrderEventMessage(OrderCreated(eventId, now, orderId, customerId, totalAmount)))]
    {
      var event := OrderCreated(eventId, now, orderId, customerId, totalAmount);
      sent := sent + [Sent(Enums.OrderEvents, orderId, OrderEventMessage(event))];
    }

    method PublishOrderCompleted(orderId: OrderId, eventId: string, now: Instant)
      modifies this
      ensures sent == old(sent) + [SendOf(OrderEventMessage(OrderCompleted(eventId, now, orderId, now)))]
    {
      var event := OrderCompleted(eventId, now, orderId, now);
      sent := sent + [Sent(Enums.OrderEvents, orderId, OrderEventMessage(event))];
    }

    method PublishOrderCancelled(orderId: OrderId, reason: string, eventId: string, now: Instant)
      modifies this
      ensures sent == old(sent) + [SendOf(OrderEventMessage(OrderCancelled(eventId, now, orderId, reason)))]
    {
      var event := OrderCancelled(eventId, now, orderId, reason);
      sent := sent + [Sent(Enums.OrderEvents, orderId, OrderEventMessage(event))];
    }
  }

  class AvroOrderEventPublisher {
    var sent: seq<Published>

    constructor()
      ensures sent == []
    {
      sent := [];
    }

    method SendPrepareOrder(orderId: OrderId, items: seq<OrderItem>, priority: Int32, now: Instant)
      modifies this
      ensures sent == old(sent) + EncodeAllSent([SendOf(KitchenCommandMessage(PrepareOrder(orderId, items, priority, now)))])
    {
      var command := PrepareOrder(orderId, items, priority, now);
      var record := KitchenAvro.ToAvroCommand(command);
      sent := sent + [Published(Enums.KitchenCommands, orderId, KitchenCommandPayload(record))];
    }

    method SendCancelTicket(orderId: OrderId, reason: string, now: Instant)
      modifies this
      ensures sent == old(sent) + EncodeAllSent([SendOf(KitchenCommandMessage(CancelTicket(orderId, reason, now)))])
    {
      var command := CancelTicket(orderId, reason, now);
      var record := KitchenAvro.ToAvroCommand(command);
      sent := sent + [Published(Enums.KitchenCommands, orderId, KitchenCommandPayload(record))];
    }

    method SendScheduleDelivery(orderId: OrderId, address: Address, estimatedPickupTime: Instant, now: Instant)
      modifies this
      ensures sent == old(sent) + EncodeAllSent([SendOf(DeliveryCommandMessage(ScheduleDelivery(orderId, address, estimatedPickupTime, now)))])
    {
      var command := ScheduleDelivery(orderId, address, estimatedPickupTime, now);
      var record := DeliveryAvro.ToAvroCommand(command);
      sent := sent + [Published(Enums.DeliveryCommands, orderId, DeliveryCommandPayload(record))];
    }

    method SendCancelDelivery(orderId: OrderId, reason: string, now: Instant)
      modifies this
      ensures sent == old(sent) + EncodeAllSent([SendOf(DeliveryCommandMessage(CancelDelivery(orderId, reason, now)))])
    {
      var command := CancelDelivery(orderId, reason, now);
      var record := DeliveryAvro.ToAvroCommand(command);
      sent := sent + [Published(Enums.DeliveryCommands, orderId, DeliveryCommandPayload(record))];
    }

    method PublishOrderCreated(orderId: OrderId, customerId: CustomerId, totalAmount: MonetaryAmount, eventId: string, now: Instant)
      modifies this
      ensures sent == old(sent) + EncodeAllSent([SendOf(OrderEventMessage(OrderCreated(eventId, now, orderId, customerId, totalAmount)))])
    {
      var event := OrderCreated(eventId, now, orderId, customerId, totalAmount);
      var record := OrderAvro.ToAvroEvent(event);
      sent := sent + [Published(Enums.OrderEvents, orderId, OrderEventPayload(record))];
    }

    method PublishOrderCompleted(orderId: OrderId, eventId: string, now: Instant)
      modifies this
      ensures sent == old(sent) + EncodeAllSent([SendOf(OrderEventMessage(OrderCompleted(eventId, now, orderId, now)))])
    {
      var event := OrderCompleted(eventId, now, orderId, now);
      var record := OrderAvro.ToAvroEvent(event);
      sent := sent + [Published(Enums.OrderEvents, orderId, OrderEventPayload(record))];
    }

    method PublishOrderCancelled(orderId: OrderId, reason: string, eventId: string, now: Instant)
      modifies this
      ensures sent == old(sent) + EncodeAllSent([SendOf(OrderEventMessage(OrderCancelled(eventId, now, orderId, reason)))])
    {
      var event := OrderCancelled(eventId, now, orderId, reason);
      var record := OrderAvro.ToAvroEvent(event);
      sent := sent + [Published(Enums.OrderEvents, orderId, OrderEventPayload(record))];
    }
  }
}
