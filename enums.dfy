/** The shared enumerations and the Kafka topic names. */
module Enums {
  datatype PaymentMethod = CreditCard | DebitCard | Pix | Wallet

  datatype PaymentStatus = Authorized | Rejected | Pending | Refunded | PaymentFailed

  /** The enum constant's name, as string templates print it. */
  function PaymentStatusName(s: PaymentStatus): string
  {
    match s
    case Authorized => "AUTHORIZED"
    case Rejected => "REJECTED"
    case Pending => "PENDING"
    case Refunded => "REFUNDED"
    case PaymentFailed => "FAILED"
  }

  datatype TicketStatus = TicketPending | Accepted | Preparing | Ready | TicketRejected

  datatype DeliveryStatus = DeliveryPending | Assigned | PickedUp | InTransit | Delivered | DeliveryFailed

  datatype Topic = KitchenCommands | KitchenEvents | DeliveryCommands | DeliveryEvents | OrderEvents

  /** KafkaTopics */
  function TopicName(t: Topic): string
  {
    match t
    case KitchenCommands => "kitchen.commands"
    case KitchenEvents => "kitchen.events"
    case DeliveryCommands => "delivery.commands"
    case DeliveryEvents => "delivery.events"
    case OrderEvents => "order.events"
  }

  lemma TopicNamesDistinct(a: Topic, b: Topic)
    ensures TopicName(a) == TopicName(b) <==> a == b
  {
  }

  lemma PaymentStatusNamesDistinct(a: PaymentStatus, b: PaymentStatus)
    ensures PaymentStatusName(a) == PaymentStatusName(b) <==> a == b
  {
  }
}
