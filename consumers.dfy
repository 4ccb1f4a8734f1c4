/**
 * The order service's listeners on kitchen.events and delivery.events:
 * which inbound event drives which orchestrator handler. The plain consumer
 * lets a handler's exception escape; the Avro consumer decodes first and
 * swallows any exception, from the decoder or from the handler.
 */
module Consumers {
  import opened Wrappers
  import opened DomainPrimitives
  import opened Events
  import opened Publishing
  import opened SagaSteps
  import opened Orchestration
  import opened AvroOrchestration
  import KitchenAvro
  import DeliveryAvro

  /** The orchestrator call an event leads to, with the event's fields as arguments. */
  datatype HandlerCall =
    | KitchenAcceptedCall(orderId: OrderId, ticketId: TicketId, estimatedMinutes: Int32)
    | KitchenRejectedCall(orderId: OrderId, reason: string)
    | DeliveryScheduledCall(orderId: OrderId, deliveryId: DeliveryId)
    | DeliveryCompletedCall(orderId: OrderId)
    | DeliveryFailedCall(orderId: OrderId, reason: string)
    | NoCall

  /** onKitchenEvent's `when`. */
  function RouteKitchenEvent(event: KitchenEvent): HandlerCall
  {
    match event
    case TicketAccepted(_, _, orderId, ticketId, minutes) => KitchenAcceptedCall(orderId, ticketId, minutes)
    case TicketRejected(_, _, orderId, reason) => KitchenRejectedCall(orderId, reason)
    case TicketReady(_, _, _, _) => NoCall
  }

  /** onDeliveryEvent's `when`. */
  function RouteDeliveryEvent(event: DeliveryEvent): HandlerCall
  {
    match event
    case DeliveryScheduled(_, _, orderId, deliveryId, _) => DeliveryScheduledCall(orderId, deliveryId)
    case DeliveryPickedUp(_, _, _, _) => NoCall
    case DeliveryCompleted(_, _, orderId, _, _) => DeliveryCompletedCall(orderId)
    case DeliveryFailed(_, _, orderId, _, reason) => DeliveryFailedCall(orderId, reason)
  }

  /** A call's effect on the store; `eventId` and `now` feed the event the handler may publish. */
  function ApplyCall(store: Store, call: HandlerCall, eventId: string, now: Instant): Result<Effect, Error>
  {
    match call
    case KitchenAcceptedCall(orderId, ticketId, minutes) => KitchenAcceptedStep(store, orderId, ticketId, minutes, now)
    case KitchenRejectedCall(orderId, reason) => Success(KitchenRejectedStep(store, orderId, reason, eventId, now))
    case DeliveryScheduledCall(orderId, deliveryId) => Success(DeliveryScheduledStep(store, orderId, deliveryId))
    case DeliveryCompletedCall(orderId) => Success(DeliveryCompletedStep(store, orderId, eventId, now))
    case DeliveryFailedCall(orderId, reason) => Success(DeliveryFailedStep(store, orderId, reason, eventId, now))
    case NoCall => Success(NoEffect(store))
  }

  /**
   * Every kitchen event but TicketReady reaches the handler of its kind, for
   * the event's own order, with the event's ticket id, minutes or reason.
   */
  lemma KitchenRouting(event: KitchenEvent)
    ensures var call := RouteKitchenEvent(event);
      && (call.NoCall? <==> event.TicketReady?)
      && (call.KitchenAcceptedCall? <==> event.TicketAccepted?)
      && (call.KitchenRejectedCall? <==> event.TicketRejected?)
      && (!call.NoCall? ==> call.orderId == event.orderId)
      && (event.TicketAccepted? ==> call.ticketId == event.ticketId && call.estimatedMinutes == event.estimatedPrepTimeMinutes)
      && (event.TicketRejected? ==> call.reason == event.reason)
  {
  }

  /** Every delivery event but DeliveryPickedUp reaches the handler of its kind, for the event's own order. */
  lemma DeliveryRouting(event: DeliveryEvent)
    ensures var call := RouteDeliveryEvent(event);
      && (call.NoCall? <==> event.DeliveryPickedUp?)
      && (call.DeliveryScheduledCall? <==> event.DeliveryScheduled?)
      && (call.DeliveryCompletedCall? <==> event.DeliveryCompleted?)
      && (call.DeliveryFailedCall? <==> event.DeliveryFailed?)
      && (!call.NoCall? ==> call.orderId == event.orderId)
      && (event.DeliveryScheduled? ==> call.deliveryId == event.deliveryId)
      && (event.DeliveryFailed? ==> call.reason == event.reason)
  {
  }

  /** TicketReady and DeliveryPickedUp leave the store, the outbox and the refund log as they were. */
  lemma IgnoredEventsChangeNothing(store: Store, kitchenEvent: KitchenEvent, deliveryEvent: DeliveryEvent, eventId: string, now: Instant)
    requires kitchenEvent.TicketReady? && deliveryEvent.DeliveryPickedUp?
    ensures ApplyCall(store, RouteKitchenEvent(kitchenEvent), eventId, now) == Success(Effect(store, [], [], []))
    ensures ApplyCall(store, RouteDeliveryEvent(deliveryEvent), eventId, now) == Success(Effect(store, [], [], []))
  {
  }

  /** Only onKitchenAccepted can fail, on a blank stored address. */
  lemma OnlyKitchenAcceptedFails(store: Store, call: HandlerCall, eventId: string, now: Instant)
    ensures ApplyCall(store, call, eventId, now).Failure? ==>
      call.KitchenAcceptedCall? && call.orderId.value in store && IsBlank(store[call.orderId.value].deliveryAddress)
  {
  }

  // ---------------------------------------------------------------- the Avro consumer's view

  /** An exception caught by the listener: the transaction is rolled back and nothing changes. */
  function Swallowed(store: Store, outcome: Result<Effect, Error>): Effect
  {
    if outcome.Success? then outcome.value else NoEffect(store)
  }

  /** handleKitchenEvent on a decoded record. */
  function ConsumeKitchenRecord(store: Store, record: KitchenAvro.KitchenEventRecord, eventId: string, now: Instant): Effect
  {
    match KitchenAvro.DecodeEvent(record)
    case Failure(_) => NoEffect(store)
    case Success(event) => Swallowed(store, ApplyCall(store, RouteKitchenEvent(event), eventId, now))
  }

  /** handleDeliveryEvent on a decoded record. */
  function ConsumeDeliveryRecord(store: Store, record: DeliveryAvro.DeliveryEventRecord, eventId: string, now: Instant): Effect
  {
    match DeliveryAvro.DecodeEvent(record)
    case Failure(_) => NoEffect(store)
    case Success(event) => Swallowed(store, ApplyCall(store, RouteDeliveryEvent(event), eventId, now))
  }

  /** A record that does not decode (an unknown discriminator, say) calls no handler and changes nothing. */
  lemma UndecodableRecordsAreIgnored(store: Store, kitchen: KitchenAvro.KitchenEventRecord, delivery: DeliveryAvro.DeliveryEventRecord,
                                     eventId: string, now: Instant)
    ensures KitchenAvro.DecodeEvent(kitchen).Failure? ==> ConsumeKitchenRecord(store, kitchen, eventId, now) == Effect(store, [], [], [])
    ensures DeliveryAvro.DecodeEvent(delivery).Failure? ==> ConsumeDeliveryRecord(store, delivery, eventId, now) == Effect(store, [], [], [])
  {
  }

  /** On an encoded event, the Avro consumer does what the plain consumer does, except that a handler failure changes nothing. */
  lemma AvroConsumersRouteLikePlainOnes(store: Store, kitchen: KitchenEvent, delivery: DeliveryEvent, eventId: string, now: Instant)
    ensures ConsumeKitchenRecord(store, KitchenAvro.EncodeEvent(kitchen), eventId, now)
         == Swallowed(store, ApplyCall(store, RouteKitchenEvent(kitchen), eventId, now))
    ensures ConsumeDeliveryRecord(store, DeliveryAvro.EncodeEvent(delivery), eventId, now)
         == Swallowed(store, ApplyCall(store, RouteDeliveryEvent(delivery), eventId, now))
  {
    KitchenAvro.EventRoundTrip(kitchen);
    DeliveryAvro.EventRoundTrip(delivery);
  }

  // ---------------------------------------------------------------- the listeners

  class OrderEventConsumer {
    const orchestrator: OrderSagaOrchestrator

    constructor(orchestrator: OrderSagaOrchestrator)
      ensures this.orchestrator == orchestrator
    {
      this.orchestrator := orchestrator;
    }

    /** Dispatches a handler call; a handler's exception is returned, not caught. */
    method Dispatch(call: HandlerCall, eventId: string, now: Instant) returns (r: Result<(), Error>)
      requires orchestrator.Valid()
      modifies orchestrator.orders.Values, orchestrator.publisher, orchestrator.payments
      ensures orchestrator.Valid() && orchestrator.orders == old(orchestrator.orders)
      ensures orchestrator.payments.authorizations == old(orchestrator.payments.authorizations)
      ensures var e := ApplyCall(old(orchestrator.Store()), call, eventId, now);
        && (r.Success? <==> e.Success?)
        && (e.Failure? ==> r.error == e.error && orchestrator.Store() == old(orchestrator.Store())
                           && orchestrator.publisher.sent == old(orchestrator.publisher.sent)
                           && orchestrator.payments.refunds == old(orchestrator.payments.refunds))
        && (e.Success? ==> orchestrator.Store() == e.value.orders
                           && orchestrator.publisher.sent == old(orchestrator.publisher.sent) + e.value.sends
                           && orchestrator.payments.refunds == old(orchestrator.payments.refunds) + e.value.refunds)
    {
      match call
      case KitchenAcceptedCall(orderId, ticketId, minutes) =>
        r := orchestrator.OnKitchenAccepted(orderId, ticketId, minutes, now);
      case KitchenRejectedCall(orderId, reason) =>
        orchestrator.OnKitchenRejected(orderId, reason, eventId, now);
        r := Success(());
      case DeliveryScheduledCall(orderId, deliveryId) =>
        orchestrator.OnDeliveryScheduled(orderId, deliveryId);
        r := Success(());
      case DeliveryCompletedCall(orderId) =>
        orchestrator.OnDeliveryCompleted(orderId, eventId, now);
        r := Success(());
      case DeliveryFailedCall(orderId, reason) =>
        orchestrator.OnDeliveryFailed(orderId, reason, eventId, now);
        r := Success(());
      case NoCall =>
        r := Success(());
    }

    method OnKitchenEvent(event: KitchenEvent, eventId: string, now: Instant) returns (r: Result<(), Error>)
      requires orchestrator.Valid()
      modifies orchestrator.orders.Values, orchestrator.publisher, orchestrator.payments
      ensures orchestrator.Valid() && orchestrator.orders == old(orchestrator.orders)
      ensures orchestrator.payments.authorizations == old(orchestrator.payments.authorizations)
      ensures var e := ApplyCall(old(orchestrator.Store()), RouteKitchenEvent(event), eventId, now);
        && (r.Success? <==> e.Success?)
        && (e.Failure? ==> r.error == e.error && orchestrator.Store() == old(orchestrator.Store())
                           && orchestrator.publisher.sent == old(orchestrator.publisher.sent)
                           && orchestrator.payments.refunds == old(orchestrator.payments.refunds))
        && (e.Success? ==> orchestrator.Store() == e.value.orders
                           && orchestrator.publisher.sent == old(orchestrator.publisher.sent) + e.value.sends
                           && orchestrator.payments.refunds == old(orchestrator.payments.refunds) + e.value.refunds)
    {
      r := Dispatch(RouteKitchenEvent(event), eventId, now);
    }

    method OnDeliveryEvent(event: DeliveryEvent, eventId: string, now: Instant) returns (r: Result<(), Error>)
      requires orchestrator.Valid()
      modifies orchestrator.orders.Values, orchestrator.publisher, orchestrator.payments
      ensures orchestrator.Valid() && orchestrator.orders == old(orchestrator.orders)
      ensures orchestrator.payments.authorizations == old(orchestrator.payments.authorizations)
      ensures var e := ApplyCall(old(orchestrator.Store()), RouteDeliveryEvent(event), eventId, now);
        && (r.Success? <==> e.Success?)
        && (e.Failure? ==> r.error == e.error && orchestrator.Store() == old(orchestrator.Store())
                           && orchestrator.publisher.sent == old(orchestrator.publisher.sent)
                           && orchestrator.payments.refunds == old(orchestrator.payments.refunds))
        && (e.Success? ==> orchestrator.Store() == e.value.orders
                           && orchestrator.publisher.sent == old(orchestrator.publisher.sent) + e.value.sends
                           && orchestrator.payments.refunds == old(orchestrator.payments.refunds) + e.value.refunds)
    {
      r := Dispatch(RouteDeliveryEvent(event), eventId, now);
    }
  }

  class AvroOrderEventConsumer {
    const orchestrator: AvroOrderSagaOrchestrator

    constructor(orchestrator: AvroOrderSagaOrchestrator)
      ensures this.orchestrator == orchestrator
    {
      this.orchestrator := orchestrator;
    }

    /** Dispatches a handler call inside the listener's try/catch. */
    method Dispatch(call: HandlerCall, eventId: string, now: Instant)
      requires orchestrator.Valid()
      modifies orchestrator.orders.Values, orchestrator.publisher, orchestrator.payments
      ensures orchestrator.Valid() && orchestrator.orders == old(orchestrator.orders)
      ensures orchestrator.payments.authorizations == old(orchestrator.payments.authorizations)
      ensures var e := Swallowed(old(orchestrator.Store()), ApplyCall(old(orchestrator.Store()), call, eventId, now));
        && orchestrator.Store() == e.orders
        && orchestrator.publisher.sent == old(orchestrator.publisher.sent) + EncodeAllSent(e.sends)
        && orchestrator.payments.refunds == old(orchestrator.payments.refunds) + e.refunds
    {
      match call
      case KitchenAcceptedCall(orderId, ticketId, minutes) =>
        var _ := orchestrator.OnKitchenAccepted(orderId, ticketId, minutes, now);
      case KitchenRejectedCall(orderId, reason) =>
        orchestrator.OnKitchenRejected(orderId, reason, eventId, now);
      case DeliveryScheduledCall(orderId, deliveryId) =>
        orchestrator.OnDeliveryScheduled(orderId, deliveryId);
      case DeliveryCompletedCall(orderId) =>
        orchestrator.OnDeliveryCompleted(orderId, eventId, now);
      case DeliveryFailedCall(orderId, reason) =>
        orchestrator.OnDeliveryFailed(orderId, reason, eventId, now);
      case NoCall =>
    }

    /** handleKitchenEvent: decode, route, and swallow any exception. */
    method HandleKitchenEvent(record: KitchenAvro.KitchenEventRecord, eventId: string, now: Instant)
      requires orchestrator.Valid()
      modifies orchestrator.orders.Values, orchestrator.publisher, orchestrator.payments
      ensures orchestrator.Valid() && orchestrator.orders == old(orchestrator.orders)
      ensures orchestrator.payments.authorizations == old(orchestrator.payments.authorizations)
      ensures var e := ConsumeKitchenRecord(old(orchestrator.Store()), record, eventId, now);
        && orchestrator.Store() == e.orders
        && orchestrator.publisher.sent == old(orchestrator.publisher.sent) + EncodeAllSent(e.sends)
        && orchestrator.payments.refunds == old(orchestrator.payments.refunds) + e.refunds
    {
      var decoded := KitchenAvro.DecodeEvent(record);
      if decoded.Failure? {
        return;
      }
      Dispatch(RouteKitchenEvent(decoded.value), eventId, now);
    }

    /** handleDeliveryEvent: decode, route, and swallow any exception. */
    method HandleDeliveryEvent(record: DeliveryAvro.DeliveryEventRecord, eventId: string, now: Instant)
      requires orchestrator.Valid()
      modifies orchestrator.orders.Values, orchestrator.publisher, orchestrator.payments
      ensures orchestrator.Valid() && orchestrator.orders == old(orchestrator.orders)
      ensures orchestrator.payments.authorizations == old(orchestrator.payments.authorizations)
      ensures var e := ConsumeDeliveryRecord(old(orchestrator.Store()), record, eventId, now);
        && orchestrator.Store() == e.orders
        && orchestrator.publisher.sent == old(orchestrator.publisher.sent) + EncodeAllSent(e.sends)
        && orchestrator.payments.refunds == old(orchestrator.payments.refunds) + e.refunds
    {
      var decoded := DeliveryAvro.DecodeEvent(record);
      if decoded.Failure? {
        return;
      }
      Dispatch(RouteDeliveryEvent(decoded.value), eventId, now);
    }
  }
}
