/**
 * The message contract between the services: commands to the kitchen and
 * delivery services and the events of the kitchen, delivery and order
 * services. Every event carries the DomainEvent header (eventId, timestamp,
 * orderId) as fields of the same name in each variant.
 */
module Events {
  import opened DomainPrimitives
  import opened CommonDtos

  datatype KitchenCommand =
    | PrepareOrder(orderId: OrderId, items: seq<OrderItem>, priority: Int32, timestamp: Instant)
    | CancelTicket(orderId: OrderId, reason: string, timestamp: Instant)

  /** PrepareOrder's `priority: Int = 0` default. */
  const DefaultPriority: Int32 := 0

  datatype KitchenEvent =
    | TicketAccepted(eventId: string, timestamp: Instant, orderId: OrderId, ticketId: TicketId, estimatedPrepTimeMinutes: Int32)
    | TicketRejected(eventId: string, timestamp: Instant, orderId: OrderId, reason: string)
    | TicketReady(eventId: string, timestamp: Instant, orderId: OrderId, ticketId: TicketId)

  datatype DeliveryCommand =
    | ScheduleDelivery(orderId: OrderId, deliveryAddress: Address, estimatedPickupTime: Instant, timestamp: Instant)
    | CancelDelivery(orderId: OrderId, reason: string, timestamp: Instant)

  datatype DeliveryEvent =
    | DeliveryScheduled(eventId: string, timestamp: Instant, orderId: OrderId, deliveryId: DeliveryId, estimatedDeliveryTime: Instant)
    | DeliveryPickedUp(eventId: string, timestamp: Instant, orderId: OrderId, deliveryId: DeliveryId)
    | DeliveryCompleted(eventId: string, timestamp: Instant, orderId: OrderId, deliveryId: DeliveryId, completedAt: Instant)
    | DeliveryFailed(eventId: string, timestamp: Instant, orderId: OrderId, deliveryId: DeliveryId, reason: string)

  datatype OrderEvent =
    | OrderCreated(eventId: string, timestamp: Instant, orderId: OrderId, customerId: CustomerId, totalAmount: MonetaryAmount)
    | OrderCompleted(eventId: string, timestamp: Instant, orderId: OrderId, completedAt: Instant)
    | OrderCancelled(eventId: string, timestamp: Instant, orderId: OrderId, reason: string)
}
