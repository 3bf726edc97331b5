/**
 * The entities of the LINE client (line/line.py): messages, contacts, the
 * operations of the long-poll stream, the results of the remote calls the
 * client depends on, the events it emits and the errors it raises.
 */
module LineTypes {

  /** A member identifier: names a user or a group (a conversation). */
  type Mid = string

  /** `LineMessage.TYPE_TEXT` and `LineMessage.TYPE_IMAGE`. */
  const TYPE_TEXT: int := 0
  const TYPE_IMAGE: int := 1

  /**
   * A message as `LineMessage` wraps it. `createdTime` is the server's
   * millisecond timestamp, kept as an opaque integer.
   */
  datatype Message = Message(
    id: string,
    contentType: int,
    text: string,
    contentPreview: seq<bv8>,
    frm: Mid,
    to: Mid,
    createdTime: int)

  /** The message a local send builds: only the recipient and the text are set. */
  datatype OutgoingMessage = OutgoingMessage(to: Mid, text: string)

  /** A contact as `LineContact` wraps it. */
  datatype Contact = Contact(mid: Mid, displayName: string, statusMessage: string)

  /** Where a conversation call accepts either a group id or a `LineContact`. */
  datatype Target = Group(id: Mid) | OfContact(contact: Contact)

  function TargetMid(t: Target): Mid
  {
    match t
    case Group(id) => id
    case OfContact(c) => c.mid
  }

  /**
   * The kind of a server operation. The message-carrying kinds hold their
   * message; every kind the client does not handle is `Unhandled`.
   */
  datatype OpType =
    | EndOfOperation
    | SendMessage(message: Message)
    | ReceiveMessage(message: Message)
    | ReceiveMessageReceipt
    | Unhandled(code: int)
  {
    predicate IsMessage()
    {
      SendMessage? || ReceiveMessage?
    }

    /** The conversation a message operation belongs to: the recipient of a sent message, the sender of a received one. */
    function Key(): Mid
      requires IsMessage()
    {
      if SendMessage? then message.to else message.frm
    }
  }

  datatype Operation = Operation(revision: int, kind: OpType)

  /** What `fetchOperations` produces: a batch, an `EOFError`, or a `TalkException` with its code. */
  datatype FetchResult =
    | Fetched(ops: seq<Operation>)
    | EndOfStream
    | TalkFailure(code: int, reason: string)

  /** The server's `TalkException` code for a session superseded by a login elsewhere. */
  const SESSION_SUPERSEDED: int := 8

  /** The batch size `long_poll` asks `fetchOperations` for. */
  const MAX_FETCH: int := 50

  /** The result of `loginWithIdentityCredentialForCertificate`. */
  datatype LoginResult = LoginResult(resultType: int, authToken: string)

  /** `LineClient.EVENT_NEW_MESSAGE`. */
  const EVENT_NEW_MESSAGE: int := 0

  /** A `(type, conversation, message)` tuple yielded by `long_poll`; the conversation is named by its id. */
  datatype Event = Event(eventType: int, conversation: Mid, message: Message)

  /** The `LineException`s and `KeyError`s the core raises. */
  datatype LineError =
    | LoggedInElsewhere
    | PinRequired
    | LoginFailed(code: int)
    | NotAnImage
    | NotFound(key: Mid)

  /** The `getRecentMessages(group, count)` remote call. */
  type History = (Mid, int) -> seq<Message>
}
