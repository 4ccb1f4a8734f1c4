/** What the three record mappers share: the errors raised for an unrecognised discriminator. */
module AvroCommon {
  import opened DomainPrimitives

  /** The `else` branch of every `fromAvroCommand`. */
  function UnknownCommand(commandType: string): Error
  {
    IllegalArgument("Unknown command type: " + commandType)
  }

  /** The `else` branch of every `fromAvroEvent`. */
  function UnknownEvent(eventType: string): Error
  {
    IllegalArgument("Unknown event type: " + eventType)
  }
}
