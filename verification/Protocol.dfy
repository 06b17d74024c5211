/** The messages of the conversation (src/protocol.rs) and the frames that carry them. */
module Protocol {
  import opened Wrappers

  datatype ClientRequest =
    | Open(wanted: Option<string>, persistent: bool)
    | Run(command: string)
    | DeleteSession(doomed: string)
    | Ping
    | Disconnect

  datatype ServerReply =
    | Hello(signature: string)
    | Opened(session: string)
    | Deleted(session: string)
    | Pong
    | Output(data: string, status: int)
    | Error(message: string)

  datatype Plain = Request(request: ClientRequest) | Reply(reply: ServerReply)

  /** The associated data that separates the two directions of a channel. */
  datatype Aad = ClientToServer | ServerToClient

  /** What a mailbox can hold. `Sealed` is authenticated encryption taken symbolically: it
      opens only under the same key, associated data and counter. */
  datatype Frame =
    | Login(step: nat, session: nat)
    | Sealed(key: nat, aad: Aad, counter: nat, plain: Plain)
    | Garbage(tag: nat)

  function OpenFrame(f: Frame, key: nat, aad: Aad, counter: nat): Option<Plain> {
    if f.Sealed? && f.key == key && f.aad == aad && f.counter == counter then Some(f.plain) else None
  }
}
