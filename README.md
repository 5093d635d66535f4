# Chat feed synchronisation, modelled in Dafny

This project models the core of a small Angular chat client backed by a
managed document store. It covers two source files.

- `src/app/service/chat-service.service.ts`, the chat service. It holds
  the roster reducer that folds a batch of chat document changes into a
  list, and the choice of the message query from the pagination cursors.
  It also processes message snapshots, firing read receipts for unread
  messages, adds unread counts to a location's roster, and plans the
  writes of `sendMessage`.
- `src/app/app.component.ts`, the page component. It owns the roster, the
  window of messages of the selected chat, the two cursors
  `firstVisibleMessage` and `lastVisibleMessage`, and the guard flags of
  two-way pagination: `loadingMoreMessages`, `loadingNewMessages` and
  `hasMoreMessages`.

Every answer of the store becomes an input: snapshots, change batches,
generated document ids, clock readings, the order in which the parallel
count queries finish, and which write fails. Timestamps are integers.

Files:

- `models.dfy` (module `Models`): the records `User`, `Message`,
  `LatestMessage` and `Chat`, the stored chat fields `ChatDoc`, and
  snapshot documents `Doc`.
- `js_string.dfy` (module `JsString`): `String.prototype.trim`, used as a
  truthiness test.
- `store.dfy` (module `Store`): an abstract store. It holds chat documents
  and per-chat message collections, computes the unread count, and applies
  the four kinds of write the service issues.
- `chat_service.dfy` (module `ChatService`): the service logic. The roster
  it mutates in place is the class `ChatRoster`.
- `app_component.dfy` (module `App`): the class `AppComponent`. Each
  asynchronous operation is split into a `Begin…` method and an `…Arrived`
  method. `Begin…` checks the guard and returns the request it issues, or
  none. `…Arrived` runs whenever the subscription's callback fires.

The model keeps these behaviours of the code as written, although a
reader might expect otherwise:

- "Up" paging pivots off `lastVisibleMessage`.
- Pages are prepended or appended without dropping duplicates, so the
  window need not be ordered or duplicate-free.
- The initial selection query has no limit.
- The "up" threshold is the literal 10.
- `hasMoreMessages` is never set back to true.
- An added roster chat goes to the end of the list, with no ordering by
  creation time.

## Model

| member | source | states |
|---|---|---|
| `JsString.Trim` | src/app/app.component.ts:125 | `trim()` yields a contiguous slice of the input that neither starts nor ends with white space. Everything before and after the slice is white space, so exactly the leading and trailing white space is removed. The result is empty exactly when every character is ECMAScript white space or a line terminator. |
| `JsString.SkipForward` | src/app/app.component.ts:125 | The forward scan of `trim()` stops at the first character that is not white space, or at the end: everything it passes is white space. |
| `JsString.SkipBackward` | src/app/app.component.ts:125 | The backward scan of `trim()` stops just after the last character that is not white space, without passing the forward scan's stop: everything it passes is white space. |
| `ChatService.FindIndex` | src/app/service/chat-service.service.ts:57 | `findIndex` returns the first index holding the id, or -1 exactly when no entry holds it. |
| `ChatService.RemoveId` | src/app/service/chat-service.service.ts:62 | `filter` keeps no entry with the id and keeps every entry without it. The result is never longer than the input. |
| `ChatService.RemoveIdKeepsOrder` | src/app/service/chat-service.service.ts:62 | Removal distributes over concatenation, so the kept entries keep their relative order. |
| `ChatService.RemoveIdAbsent` | src/app/service/chat-service.service.ts:60-63 | A "removed" change for an id no entry has leaves the list unchanged. |
| `ChatService.ApplyChange` | src/app/service/chat-service.service.ts:47-63 | The chat's id is the document id. An "added" chat is appended and earlier entries are untouched. A "modified" chat replaces the first entry with its id, keeping the length and every other entry; with no such entry the elements are unchanged (index -1 writes a property). A "removed" chat deletes every entry with its id and keeps all others. |
| `ChatService.ApplyChanges` | src/app/service/chat-service.service.ts:46-64 | The `forEach` over a batch's changes, applied in order, adds at most one entry per change. |
| `ChatService.ApplyChangesBounded` | src/app/service/chat-service.service.ts:46-64 | A batch adds at most one entry per change. Every resulting entry was already present or is the chat of an added or modified change of the batch. |
| `ChatService.ReduceBatch` | src/app/service/chat-service.service.ts:43-66 | A roster snapshot folds its batch into a list cleared first, so the emitted list is never longer than the batch. |
| `ChatService.ReduceBatchOnlyNamedChats` | src/app/service/chat-service.service.ts:43-66 | Each snapshot starts from an empty list. So the emitted list is never longer than the batch and holds only chats that the batch added or modified. |
| `ChatService.ChatRoster.ApplyDocChange` | src/app/service/chat-service.service.ts:47-63 | The in-place update of `chatList` for one change equals `ApplyChange` on the old list. |
| `ChatService.ChatRoster.OnChatsSnapshot` | src/app/service/chat-service.service.ts:42-66 | The snapshot callback clears `chatList`, applies the batch in order and emits the list. The result does not depend on the previous list. |
| `ChatService.ChooseQuery` | src/app/service/chat-service.service.ts:167-190 | `lastVisibleMessage` wins over `firstVisibleMessage`. A cursor gives an ascending query starting strictly after the cursor's timestamp, limited to `limitSize`. With no cursor the query is ascending with no limit. |
| `ChatService.UnreadDocIds` | src/app/service/chat-service.service.ts:194-200 | An id is requested for marking exactly when some snapshot document with that id has `readStatus == false`. |
| `ChatService.ProcessMessagesSnapshot` | src/app/service/chat-service.service.ts:192-203 | Emits one message per document in snapshot order, each with `id` overwritten by the document id. Every emitted message keeps its snapshot `readStatus`, so unread ones still read false. The ids handed to `markMessageAsRead` are exactly the unread documents' ids. |
| `ChatService.MarkMessageAsRead` | src/app/service/chat-service.service.ts:246-255 | The only change is `readStatus := true` on the named message. A failed write, or a message that does not exist, leaves the store unchanged and is not reported. |
| `ChatService.MarkReadUnread` | src/app/service/chat-service.service.ts:246-255 | A landed receipt takes exactly that message out of the chat's unread set. The unread count drops by one exactly when the message was unread. |
| `ChatService.MarkReadIdempotent` | src/app/service/chat-service.service.ts:246-255 | Marking the same message twice gives the same store as marking it once. |
| `ChatService.MarkReadCommutes` | src/app/service/chat-service.service.ts:246-255 | Two receipts give the same store in either order. |
| `ChatService.MarkAllRead` | src/app/service/chat-service.service.ts:197-200 | Once every receipt of a snapshot has landed, each named message of that chat has `readStatus` set to true, and every other message keeps the value it had. The chat documents, the other chats' messages and the set of message ids are untouched. |
| `ChatService.MarkAllReadUnread` | src/app/service/chat-service.service.ts:197-200 | Once all receipts of a snapshot have landed, the chat's unread set is the old one minus the ids they named. |
| `ChatService.FullSnapshotClearsUnread` | src/app/service/chat-service.service.ts:183-203 | A snapshot of the unlimited initial query reports every stored message. After its receipts land, the chat has no unread message. |
| `ChatService.AnnotateAll` | src/app/service/chat-service.service.ts:221-234 | Each snapshot chat, in snapshot order, gets its document id and an `unreadCount` equal to the number of its messages with `readStatus == false`. |
| `ChatService.AnnotateUnread` | src/app/service/chat-service.service.ts:218-240 | Nothing is emitted exactly when some chat's count query fails: `Promise.all` rejects and the callback throws before `observer.next`. Otherwise the list is emitted after every count query has finished. Its k-th entry is the chat whose query finished k-th, annotated. The list is a permutation of the snapshot's annotated chats, so each appears as often as in the snapshot. |
| `ChatService.CollectCompleted` | src/app/service/chat-service.service.ts:221-239 | Pushes each chat as its query finishes. It returns nothing exactly when a query in the completion order failed, and otherwise returns the chats in completion order. |
| `Store.ApplyWrite` | src/app/service/chat-service.service.ts:102-151 | A store write fails exactly when it is an `updateDoc` of a missing document: a `latestMessage` patch of a missing chat, or a read receipt for a missing message. A successful write changes only its own path, adds a chat key only when it creates a chat, and leaves messages or chats alone according to its kind. It stores exactly what it carries: a created chat holds the given document, a patched chat differs only in `latestMessage`, an added message is stored under its id, and a receipt sets only that message's `readStatus` to true. |
| `ChatService.SendPlan` | src/app/service/chat-service.service.ts:89-151 | A new chat document is written exactly when `chatId` is null or empty, or its document does not exist. It goes at the generated id or at the given id, with `chatUser = sender`, the location and a `latestMessage` holding the content. Then comes the message with `readStatus = false`. Last comes a `latestMessage` patch copying exactly the message's content, timestamp and sender. |
| `ChatService.RunWrites` | src/app/service/chat-service.service.ts:102-157 | The awaited store calls in sequence, with the catch that re-throws. A failure at any step rejects the send. Without a failure, a run of writes that cannot fail (chat creations and message additions) resolves. |
| `ChatService.SendMessage` | src/app/service/chat-service.service.ts:82-157 | `sendMessage` rejects exactly when one of its steps fails. Without a failure it resolves with every planned write landed. |
| `ChatService.SendMessageDelivers` | src/app/service/chat-service.service.ts:82-151 | A send without a failure resolves. The chat then exists with `latestMessage` equal to the sent message's projection, and the message is stored unread. The chat's messages are exactly the former ones plus the new message under its id, and the only chat key added is the chat's own. An existing chat changes only in `latestMessage`, and no other chat or message collection is touched. With a fresh message id, the chat's unread count grows by one. |
| `ChatService.RunWritesFault` | src/app/service/chat-service.service.ts:154-157 | A failing write rejects the send (the error is re-thrown). Writes issued before it stay in the store. |
| `ChatService.SendMessageFault` | src/app/service/chat-service.service.ts:82-157 | A send whose k-th write fails is rejected. When the first store call fails, the store is unchanged. |
| `App.AppComponent.constructor` | src/app/app.component.ts:11-25 | The initial state: empty roster and window, no cursors, both loading flags down, `hasMoreMessages` true, page size 10, location `location1`. |
| `App.AppComponent.SelectChat` | src/app/app.component.ts:58-60 | Records the selected chat and requests all of its messages, with no cursor and so no limit. |
| `App.AppComponent.ChatsArrived` | src/app/app.component.ts:43-53 | A roster emission replaces `chats`. It selects `chats[0]` exactly when the list is non-empty and `selectChatId` is empty. Otherwise the selection is unchanged. |
| `App.AppComponent.SelectionArrived` | src/app/app.component.ts:60-71 | Replaces `messages` with the page and sets the cursors to its first and last messages, or to none when it is empty. `selectedChatUser` becomes the sender of the second message. `hasMoreMessages` becomes false when fewer than `messagesPageSize` messages arrive and is never set back to true. |
| `App.AppComponent.BeginLoadUp` | src/app/app.component.ts:86-92 | This is a no-op, with no request and no change, exactly when an "up" load is in flight or the history is exhausted. Otherwise it raises `loadingMoreMessages` and requests a page after `lastVisibleMessage`. |
| `App.AppComponent.UpPageArrived` | src/app/app.component.ts:92-104 | Sets `messages = page ++ old`, so the length grows by exactly the page length with no deduplication. A non-empty page's last message becomes `lastVisibleMessage`, and `firstVisibleMessage` is untouched. `hasMoreMessages` stays true only if it was and the page has at least 10 messages. The flag is lowered. |
| `App.AppComponent.BeginLoadDown` | src/app/app.component.ts:105-111 | Guarded only by `loadingNewMessages`, not by `hasMoreMessages`. Requests a page after `firstVisibleMessage`. |
| `App.AppComponent.DownPageArrived` | src/app/app.component.ts:111-117 | Appends the page. A non-empty page's first message becomes `firstVisibleMessage`, and `lastVisibleMessage` is untouched. The flag is lowered. |
| `App.AppComponent.LoadMoreMessages` | src/app/app.component.ts:85-119 | Dispatches by direction, and each direction touches only its own flag. "Up" is a no-op exactly when a load is in flight or the history is exhausted, and otherwise raises `loadingMoreMessages`. "Down" is a no-op exactly when a load is in flight and always leaves `loadingNewMessages` raised. A request goes to the component's location and selected chat with the page size, and uses the query its direction's cursor selects. |
| `App.AppComponent.BeginSend` | src/app/app.component.ts:121-126 | The service is called exactly when the draft has a non-white-space character. The call carries the untrimmed draft, `selectChatId` (which may be empty) and the logged-in user. |
| `App.AppComponent.SendSettled` | src/app/app.component.ts:127-132 | The draft is cleared only when the send resolved. |
| `App.AppComponent.BeginChatSearch` | src/app/app.component.ts:159-163 | The participant search runs exactly when the trimmed term is non-empty. |
| `App.AppComponent.ChatSearchArrived` | src/app/app.component.ts:163-168 | Stores the results and selects the first one exactly when there is one. |
| `App.AppComponent.BeginMessageSearch` | src/app/app.component.ts:171-174 | The message search runs in the selected chat exactly when the trimmed term is non-empty. |
| `App.AppComponent.MessageSearchArrived` | src/app/app.component.ts:174-181 | Non-empty results replace `messages`. Cursors and flags are left untouched. |

## Left out

- The store's own operations (`onSnapshot`, `getDocs`, `getDoc`, `addDoc`, `setDoc`, `updateDoc`) are library code. Their results are inputs. How the store evaluates `startAfter` and `limit` is not modelled; a query is only a descriptor.
- `updateDoc` of a missing document is taken to be rejected by the store. A failing `getDoc` in `sendMessage` is represented as a failure of the first write, since no write has happened by then.
- `searchChatsByUserName` and `searchMessagesInChat` are called by the component but are not defined in the service. Their results are inputs to `ChatSearchArrived` and `MessageSearchArrived`.
- Only the failure of a count query is modelled for roster annotation. Failures of the roster and message subscriptions themselves are left out, because the code registers no error callbacks for them.
- Subscription lifetime is not modelled: unsubscribing, and the fact that each selection or page load opens a live subscription that is never closed. Each callback firing is an `…Arrived` event that may repeat at any time.
- `AnnotateUnread` models the order in which the `Promise.all` count queries finish as an input permutation. The count is the number of unread messages in the store when the model runs, not at a separate query time.
- DOM and UI code is not modelled: `onScroll` (scroll geometry), `scrollToBottom`, `scrollToMessage`, `setTimeout` and highlight classes. The `newMessage` and search-term fields are plain fields that the view writes.
- Wall-clock time (`Timestamp.now()`, `getDateAndTime`) is replaced by integer clock inputs. Firestore timestamps (seconds and nanoseconds) become integers with the same order.
- These parts are not modelled: `addDummyData` (a seed script), `getLocations`, `getChatsForLocation` and `getAllLocations` (copying over I/O), console logging, the unused fields `users`, `locationId` (service) and `currentUserId` (component), and the dependency-injection module `src/app/app.module.ts`.
- Strings are sequences of Unicode scalar values, not UTF-16 code units. `trim` is modelled over the ECMAScript white-space and line-terminator code points.
