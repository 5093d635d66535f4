/**
 * The records exchanged between the chat UI and the document store.
 * Timestamps are store timestamps reduced to integers; ordering is the
 * integer order.
 */
module Models {

  datatype Option<+T> = None | Some(value: T)

  /** A participant. Never owned by a message or a chat, only referenced. */
  datatype User = User(id: string, name: string, avatar: string)

  /** One message of a chat's `messages` sub-collection. */
  datatype Message = Message(
    id: string,
    content: string,
    senderId: User,
    timestamp: int,
    readStatus: bool)

  /** The denormalised copy of a chat's newest message kept on the chat document. */
  datatype LatestMessage = LatestMessage(content: string, timestamp: int, senderId: User)

  /** The fields a chat document is written with (the source writes a partial chat: no id, no unread count). */
  datatype ChatDoc = ChatDoc(
    createdAt: int,
    locationId: string,
    chatUser: User,
    latestMessage: LatestMessage)

  /** A chat as the client sees it: the document's fields, its document id and, once annotated, its unread count. */
  datatype Chat = Chat(
    id: string,
    locationId: string,
    createdAt: int,
    latestMessage: LatestMessage,
    chatUser: User,
    unreadCount: Option<nat>)

  /** A document of a query snapshot: the store-assigned id and the stored data. */
  datatype Doc<T> = Doc(id: string, data: T)

  /** The chat read from a chat document, with its `id` set to the document id. */
  function ChatOf(d: Doc<ChatDoc>): Chat
  {
    Chat(d.id, d.data.locationId, d.data.createdAt, d.data.latestMessage, d.data.chatUser, None)
  }

  /** The message read from a message document, with its `id` overwritten by the document id. */
  function MessageOf(d: Doc<Message>): Message
  {
    d.data.(id := d.id)
  }

  /** The `latestMessage` projection of a message. */
  function LatestOf(m: Message): LatestMessage
  {
    LatestMessage(m.content, m.timestamp, m.senderId)
  }
}
