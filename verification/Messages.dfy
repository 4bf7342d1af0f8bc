/** One received syslog event, reduced to the fields the engine and the queries look at. */
module Messages {
  import opened Wrappers
  import opened IncidentState

  datatype Message = Message(
    id: string,
    receivedAt: Time,
    transport: string,
    hostname: string,
    tag: string,
    message: string)

  /** JSON decoding of a whole message line; None is a decoding error. */
  type MessageDecoder = string -> Option<Message>
}
