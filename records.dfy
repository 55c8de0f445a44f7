/** Values exchanged between the chat page and the mock socket.

    JavaScript objects here carry optional fields: the page builds messages
    with `type` and `content` (app/chat/page.tsx), while the socket's
    synthesised reply carries only `text` (hooks/useSocket.ts). One record
    type with optional fields holds both, so that a reply can be appended to
    the page's message list exactly as the source appends it. */
module Records {

  datatype Option<+T> = None | Some(value: T)

  /** The `type` tag of a chat message. */
  datatype Kind = Text | Image | Document | Audio | Location

  /** The parsed content of a location file, kept abstract. */
  datatype JsonValue = JsonValue(canonical: string)

  /** The `content` of a message: a string (text or data URL), a document
      descriptor, or a parsed location value. */
  datatype Content =
    | Str(s: string)
    | FileDescriptor(name: string, size: nat, mimeType: string, url: string)
    | Parsed(json: JsonValue)

  /** A message object as the page's list holds it. A field that is `None`
      is absent from the object (reading it yields `undefined`). */
  datatype Message = Message(
    kind: Option<Kind>,
    content: Option<Content>,
    text: Option<string>,
    sender: string,
    timestamp: string)

  /** The `data` argument of `emit`: a message, or the room descriptor the
      page sends when it joins a room. */
  datatype Payload = Msg(m: Message) | Room(roomId: string)

  /** The sender id of the local user. */
  const LocalUser := "user1"
  /** The sender id the mock socket puts on its replies. */
  const RemoteUser := "user2"

  /** A message as the page builds it: every field set except `text`. */
  function PageMessage(kind: Kind, content: Content, now: string): Message
  {
    Message(Some(kind), Some(content), None, LocalUser, now)
  }

  /** The `text` field of an emitted payload, if the object has one. */
  function TextField(p: Payload): Option<string>
  {
    match p
    case Msg(m) => m.text
    case Room(_) => None
  }

  /** A value interpolated into a template literal: `undefined` when absent. */
  function Interpolate(v: Option<string>): string
  {
    match v
    case Some(s) => s
    case None => "undefined"
  }
}
