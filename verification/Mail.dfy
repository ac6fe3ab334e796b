/** Values shared by the session runtime: event identities, mail and errors. */
module Mail {

  datatype Option<+T> = None | Some(value: T)

  datatype Error = ValueError | KeyError | AlreadyExists | StaleActivation

  datatype Result<+T> = Ok(value: T) | Err(error: Error)

  type Id = string

  /** JSON text, as the tables store it. */
  type Json = string

  /** The identity of one mail item. `Sent` is the digest of a sender and its key, taken as
      injective; `Timer` stands for the reserved "timer:<session>:<revision>" identities. */
  datatype EventId = Timer(session: Id, revision: nat) | Sent(sender: Id, key: Key) | External(name: string)

  datatype Key = Plain(text: string) | ReplyTo(request: EventId, name: string)

  datatype Kind = User | Message | Steer | Answer | Request | Cancel | System | ResultMail | Ask | Progress
    | Other(name: string)

  datatype Payload = Body(json: Json) | DeadlineAt(time: real)

  /** `replyTo` is only written by requests. */
  datatype Event = Event(
    id: EventId,
    kind: Kind,
    source: Id,
    requestId: Option<EventId>,
    replyTo: Option<Id>,
    payload: Payload)
}
