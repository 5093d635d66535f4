/**
 * An abstract document store standing in for the managed store the chat
 * service talks to. Only the parts the service uses are modelled: the chat
 * documents under `locations/{locationId}/chats/{chatId}` and each chat's
 * `messages` sub-collection, keyed by message document id.
 */
module Store {
  import opened Models

  /** The path of one chat document: `locations/{locationId}/chats/{chatId}`. */
  datatype ChatPath = ChatPath(locationId: string, chatId: string)

  datatype Db = Db(
    chats: map<ChatPath, ChatDoc>,
    messages: map<ChatPath, map<string, Message>>)

  /** The message documents under a chat (empty when the sub-collection has none). */
  function MessagesOf(db: Db, path: ChatPath): map<string, Message> {
    if path in db.messages then db.messages[path] else map[]
  }

  /** The ids of the messages in `m` whose `readStatus` is false. */
  function UnreadIn(m: map<string, Message>): set<string> {
    set id | id in m && !m[id].readStatus
  }

  /** The ids of a chat's messages whose `readStatus` is false. */
  function UnreadIds(db: Db, path: ChatPath): set<string> {
    UnreadIn(MessagesOf(db, path))
  }

  /** The size of the answer to "messages of this chat where readStatus == false". */
  function UnreadCount(db: Db, path: ChatPath): nat {
    |UnreadIds(db, path)|
  }

  /** The writes the chat service issues. */
  datatype Write =
    | CreateChat(path: ChatPath, doc: ChatDoc)                 // addDoc or setDoc of a chat document
    | AddMessage(path: ChatPath, id: string, msg: Message)     // addDoc into a chat's messages
    | PatchLatest(path: ChatPath, latest: LatestMessage)       // updateDoc of latestMessage
    | MarkRead(path: ChatPath, id: string)                     // updateDoc of readStatus := true

  /**
   * The effect of one write, or None when the store rejects it: a field
   * update (`updateDoc`) of a document that does not exist fails.
   */
  function ApplyWrite(db: Db, w: Write): (r: Option<Db>)
    ensures r.None? <==> (w.PatchLatest? && w.path !in db.chats) || (w.MarkRead? && w.id !in MessagesOf(db, w.path))
    ensures r.Some? ==> forall p :: p != w.path ==> MessagesOf(r.value, p) == MessagesOf(db, p)
    ensures r.Some? ==> r.value.chats.Keys == db.chats.Keys + (if w.CreateChat? then {w.path} else {})
    ensures r.Some? ==> forall p :: p in db.chats && p != w.path ==> r.value.chats[p] == db.chats[p]
    ensures r.Some? && (w.CreateChat? || w.PatchLatest?) ==> r.value.messages == db.messages
    ensures r.Some? && (w.AddMessage? || w.MarkRead?) ==> r.value.chats == db.chats
    ensures r.Some? && w.CreateChat? ==> r.value.chats[w.path] == w.doc
    ensures r.Some? && w.PatchLatest? ==> r.value.chats[w.path] == db.chats[w.path].(latestMessage := w.latest)
    ensures r.Some? && w.AddMessage? ==> MessagesOf(r.value, w.path) == MessagesOf(db, w.path)[w.id := w.msg]
    ensures r.Some? && w.MarkRead? ==>
      MessagesOf(r.value, w.path) == MessagesOf(db, w.path)[w.id := MessagesOf(db, w.path)[w.id].(readStatus := true)]
  {
    match w
    case CreateChat(p, d) => Some(db.(chats := db.chats[p := d]))
    case AddMessage(p, id, msg) =>
      Some(db.(messages := db.messages[p := MessagesOf(db, p)[id := msg]]))
    case PatchLatest(p, l) =>
      if p in db.chats then Some(db.(chats := db.chats[p := db.chats[p].(latestMessage := l)]))
      else None
    case MarkRead(p, id) =>
      var m := MessagesOf(db, p);
      if id in m then Some(db.(messages := db.messages[p := m[id := m[id].(readStatus := true)]]))
      else None
  }
}
