/** The protocol messages that travel between provider and client. */
module Protocol {

  /** The data of event.deliver; the target is already decoded. */
  datatype Delivery = Delivery(
    deliveryId: string,
    eventId: string,
    deviceId: string,
    sessionId: string,
    payload: string)

  datatype AckStatus = AckAccepted | AckCompleted | AckFailed | AckRejected

  /** The data of event.ack. */
  datatype Ack = Ack(deliveryId: string, eventId: string, status: AckStatus)
}
