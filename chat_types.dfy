/** The shapes the chat client exchanges: messages of the log and the
    staged image attachment. */
module ChatTypes {

  datatype Option<+T> = None | Some(value: T)

  datatype Role = User | Model

  /** Message ids are opaque strings (the client derives them from the clock). */
  type MessageId = string

  /** One entry of the message log. An absent `isStreaming` flag reads as false. */
  datatype ChatMessage = ChatMessage(
    id: MessageId,
    role: Role,
    text: string,
    image: Option<string>,
    isStreaming: bool)

  /** An image as encoded data (usually a data URL) plus its media type. */
  datatype Attachment = Attachment(data: string, mimeType: string)

  /** JavaScript truthiness of an optional string: present and not empty. */
  predicate Truthy(s: Option<string>)
  {
    s.Some? && s.value != ""
  }
}
