/**
 * Incremental units (IUs) and the records exchanged with the transport and with
 * the external dialogue processor.
 */
module Iu {
  /** The IU lifecycle operations (RemdisUpdateType). */
  datatype UpdateType = ADD | COMMIT | REVOKE

  /**
   * One IU as it travels on the bus. Timestamps are only compared and copied,
   * never computed with, so a real number stands in for the float seconds.
   */
  datatype IU = IU(id: nat, timestamp: real, updateType: UpdateType, body: string, exchange: string)

  /** The identity and creation time `createIU` gives a new IU; supplied by the caller. */
  datatype Stamp = Stamp(id: nat, timestamp: real)

  /** An IU created by this module with the given stamp. */
  function CreateIU(stamp: Stamp, body: string, exchange: string, updateType: UpdateType): IU
  {
    IU(stamp.id, stamp.timestamp, updateType, body, exchange)
  }

  /** One `publish(iu, channel)`: what the transport receives. */
  datatype Message = Message(channel: string, iu: IU)

  /** The channel the dialogue module publishes on. */
  const DIALOGUE: string := "dialogue"

  /** A request to the dialogue processor: the opening one, or one carrying the user's latest utterance. */
  datatype Request =
    | InitialRequest(userId: string)
    | TurnRequest(userId: string, sessionId: string, userUtterance: string)

  /** The part of the dialogue processor's reply this module reads. */
  datatype Response = Response(systemUtterance: string, sessionId: string)
}
