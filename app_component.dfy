/**
 * The chat page's component: the roster, the window of messages of the
 * selected chat, and the guard flags of its two-way pagination. Every
 * asynchronous operation is split in two: a `Begin…` method that checks its
 * guard and says which request it issues (or none), and an `…Arrived`
 * method run whenever the request's callback fires. A live subscription may
 * fire any number of times and at any moment, so no `…Arrived` method
 * assumes anything about the flags.
 */
module App {
  import opened Models
  import opened JsString
  import opened ChatService

  /** A message subscription opened through `getMessagesByChat`. */
  datatype MessagesRequest = MessagesRequest(locationId: string, chatId: string, limitSize: nat, query: MessageQuery)

  /** A call of the service's `sendMessage`. */
  datatype SendCall = SendCall(locationId: string, chatId: Option<string>, content: string, sender: User)

  /** A call of the service's message search. */
  datatype MessageSearch = MessageSearch(chatId: string, locationId: string, term: string)

  datatype Direction = Up | Down

  /** The page length below which an "up" page ends the history (a literal, not the page size field). */
  const UpPageThreshold: nat := 10

  class AppComponent {
    var chats: seq<Chat>
    var messages: seq<Message>
    var selectedChatUser: Option<User>
    const currentLoggedUser: User
    var newMessage: string
    var selectChatId: string
    var lastVisibleMessage: Option<Message>
    var firstVisibleMessage: Option<Message>
    const locationId: string
    var loadingMoreMessages: bool
    var loadingNewMessages: bool
    var hasMoreMessages: bool
    const messagesPageSize: nat
    var searchChatTerm: string
    var searchMessageTerm: string
    var foundChats: seq<Chat>
    var foundMessages: seq<Message>

    constructor ()
      ensures chats == [] && messages == [] && selectedChatUser == None
      ensures currentLoggedUser == User("user-4321", "Randy Ortan", "../assets/profile/my-pic.png")
      ensures newMessage == "" && selectChatId == ""
      ensures lastVisibleMessage == None && firstVisibleMessage == None
      ensures locationId == "location1" && messagesPageSize == 10
      ensures !loadingMoreMessages && !loadingNewMessages && hasMoreMessages
      ensures searchChatTerm == "" && searchMessageTerm == "" && foundChats == [] && foundMessages == []
    {
      chats, messages, selectedChatUser := [], [], None;
      currentLoggedUser := User("user-4321", "Randy Ortan", "../assets/profile/my-pic.png");
      newMessage, selectChatId := "", "";
      lastVisibleMessage, firstVisibleMessage := None, None;
      locationId, messagesPageSize := "location1", 10;
      loadingMoreMessages, loadingNewMessages, hasMoreMessages := false, false, true;
      searchChatTerm, searchMessageTerm, foundChats, foundMessages := "", "", [], [];
    }

    /**
     * `selectChat`: remember the chat and open a subscription on all of its
     * messages (no cursor, so the query has no limit).
     */
    method SelectChat(chatId: string) returns (req: MessagesRequest)
      modifies this`selectChatId
      ensures selectChatId == chatId
      ensures req == MessagesRequest(locationId, chatId, messagesPageSize, Initial)
    {
      selectChatId := chatId;
      req := MessagesRequest(locationId, selectChatId, messagesPageSize, ChooseQuery(messagesPageSize, None, None));
    }

    /**
     * The roster callback of `loadInitialChats`: the emitted list replaces
     * `chats`; its first chat is selected only when the list is non-empty
     * and no chat is selected yet (an empty `selectChatId` is falsy).
     */
    method ChatsArrived(emitted: seq<Chat>) returns (req: Option<MessagesRequest>)
      modifies this`chats, this`selectChatId
      ensures chats == emitted
      ensures req.Some? <==> |emitted| > 0 && old(selectChatId) == ""
      ensures req.Some? ==>
        selectChatId == emitted[0].id && req.value == MessagesRequest(locationId, emitted[0].id, messagesPageSize, Initial)
      ensures req.None? ==> selectChatId == old(selectChatId)
    {
      chats := emitted;
      req := None;
      if |chats| > 0 {
        var lastChat := chats[0];
        if selectChatId == "" {
          var r := SelectChat(lastChat.id);
          req := Some(r);
        }
      }
    }

    /**
     * The callback of the selection subscription: the window becomes the
     * page, the cursors its first and last messages (none when it is empty),
     * the chat user the sender of its SECOND message, and the history is
     * marked exhausted when fewer than a page of messages arrived.
     */
    method SelectionArrived(page: seq<Message>)
      modifies this`selectedChatUser, this`messages, this`firstVisibleMessage, this`lastVisibleMessage, this`hasMoreMessages
      ensures selectedChatUser == if |page| > 1 then Some(page[1].senderId) else None
      ensures messages == page
      ensures firstVisibleMessage == if page == [] then None else Some(page[0])
      ensures lastVisibleMessage == if page == [] then None else Some(page[|page| - 1])
      ensures hasMoreMessages == (old(hasMoreMessages) && |page| >= messagesPageSize)
    {
      selectedChatUser := if |page| > 1 then Some(page[1].senderId) else None;
      messages := page;
      firstVisibleMessage := if |page| > 0 then Some(page[0]) else None;
      lastVisibleMessage := if |page| > 0 then Some(page[|page| - 1]) else None;
      if |page| < messagesPageSize {
        hasMoreMessages := false;
      }
    }

    /**
     * The guard of `loadMoreMessages('up')`: nothing happens while an "up"
     * load is in flight or once the history is exhausted; otherwise the flag
     * is raised and a page is requested after `lastVisibleMessage`.
     */
    method BeginLoadUp() returns (req: Option<MessagesRequest>)
      modifies this`loadingMoreMessages
      ensures req.None? <==> old(loadingMoreMessages) || !hasMoreMessages
      ensures req.None? ==> loadingMoreMessages == old(loadingMoreMessages)
      ensures req.Some? ==> loadingMoreMessages
      ensures req.Some? ==>
        req.value == MessagesRequest(locationId, selectChatId, messagesPageSize,
                                     ChooseQuery(messagesPageSize, lastVisibleMessage, None))
      ensures req.Some? && lastVisibleMessage.Some? ==>
        req.value.query == After(lastVisibleMessage.value.timestamp, messagesPageSize)
    {
      if loadingMoreMessages || !hasMoreMessages {
        return None;
      }
      loadingMoreMessages := true;
      req := Some(MessagesRequest(locationId, selectChatId, messagesPageSize,
                                  ChooseQuery(messagesPageSize, lastVisibleMessage, None)));
    }

    /**
     * The callback of an "up" request. A non-empty page is put in front of
     * the window (no duplicate is dropped) and its last message becomes
     * `lastVisibleMessage`; the history is exhausted by an empty page or one
     * shorter than 10. The flag is lowered in every case.
     */
    method UpPageArrived(page: seq<Message>)
      modifies this`messages, this`lastVisibleMessage, this`hasMoreMessages, this`loadingMoreMessages
      ensures messages == page + old(messages)
      ensures |messages| == |old(messages)| + |page|
      ensures lastVisibleMessage == if page == [] then old(lastVisibleMessage) else Some(page[|page| - 1])
      ensures hasMoreMessages == (old(hasMoreMessages) && |page| >= UpPageThreshold)
      ensures !loadingMoreMessages
    {
      if |page| > 0 {
        messages := page + messages;
        lastVisibleMessage := Some(page[|page| - 1]);
        if |page| < 10 {
          hasMoreMessages := false;
        }
      } else {
        hasMoreMessages := false;
      }
      loadingMoreMessages := false;
    }

    /**
     * The guard of `loadMoreMessages('down')`: only an in-flight "down" load
     * blocks it (an exhausted history does not); a page is requested after
     * `firstVisibleMessage`.
     */
    method BeginLoadDown() returns (req: Option<MessagesRequest>)
      modifies this`loadingNewMessages
      ensures req.None? <==> old(loadingNewMessages)
      ensures loadingNewMessages
      ensures req.Some? ==>
        req.value == MessagesRequest(locationId, selectChatId, messagesPageSize,
                                     ChooseQuery(messagesPageSize, None, firstVisibleMessage))
      ensures req.Some? && firstVisibleMessage.Some? ==>
        req.value.query == After(firstVisibleMessage.value.timestamp, messagesPageSize)
    {
      if loadingNewMessages {
        return None;
      }
      loadingNewMessages := true;
      req := Some(MessagesRequest(locationId, selectChatId, messagesPageSize,
                                  ChooseQuery(messagesPageSize, None, firstVisibleMessage)));
    }

    /**
     * The callback of a "down" request: a non-empty page is appended and its
     * first message becomes `firstVisibleMessage`; the flag is lowered.
     */
    method DownPageArrived(page: seq<Message>)
      modifies this`messages, this`firstVisibleMessage, this`loadingNewMessages
      ensures messages == old(messages) + page
      ensures firstVisibleMessage == if page == [] then old(firstVisibleMessage) else Some(page[0])
      ensures !loadingNewMessages
    {
      if |page| > 0 {
        messages := messages + page;
        firstVisibleMessage := Some(page[0]);
      }
      loadingNewMessages := false;
    }

    /** `loadMoreMessages(direction)`: the guard of the chosen direction. */
    method LoadMoreMessages(direction: Direction) returns (req: Option<MessagesRequest>)
      modifies this`loadingMoreMessages, this`loadingNewMessages
      ensures direction == Up ==> loadingNewMessages == old(loadingNewMessages)
      ensures direction == Up ==> (req.None? <==> old(loadingMoreMessages) || !hasMoreMessages)
      ensures direction == Up && req.Some? ==> loadingMoreMessages
      ensures direction == Up && req.None? ==> loadingMoreMessages == old(loadingMoreMessages)
      ensures direction == Down ==> loadingMoreMessages == old(loadingMoreMessages)
      ensures direction == Down ==> (req.None? <==> old(loadingNewMessages))
      ensures direction == Down ==> loadingNewMessages
      ensures req.Some? ==> req.value.locationId == locationId && req.value.chatId == selectChatId
      ensures req.Some? ==> req.value.limitSize == messagesPageSize
      ensures req.Some? ==>
        req.value.query == if direction == Up then ChooseQuery(messagesPageSize, lastVisibleMessage, None)
                           else ChooseQuery(messagesPageSize, None, firstVisibleMessage)
    {
      if direction == Up {
        req := BeginLoadUp();
      } else {
        req := BeginLoadDown();
      }
    }

    /**
     * The guard of `sendMessage`: the service is called only when the draft
     * has text once trimmed, with the draft as it is (untrimmed), the
     * selected chat id (possibly empty) and the logged-in user.
     */
    method BeginSend() returns (call: Option<SendCall>)
      ensures call.Some? <==> exists i :: 0 <= i < |newMessage| && !IsTrimmable(newMessage[i])
      ensures call.Some? ==> call.value == SendCall(locationId, Some(selectChatId), newMessage, currentLoggedUser)
    {
      if HasText(newMessage) {
        call := Some(SendCall(locationId, Some(selectChatId), newMessage, currentLoggedUser));
      } else {
        call := None;
      }
    }

    /** The settlement of a send: the draft is cleared only when the send resolved. */
    method SendSettled(succeeded: bool)
      modifies this`newMessage
      ensures newMessage == if succeeded then "" else old(newMessage)
    {
      if succeeded {
        newMessage := "";
      }
    }

    /** The guard of `onChatSearch`: the participant search runs only for a term with text. */
    method BeginChatSearch() returns (term: Option<string>)
      ensures term.Some? <==> exists i :: 0 <= i < |searchChatTerm| && !IsTrimmable(searchChatTerm[i])
      ensures term.Some? ==> term.value == searchChatTerm
    {
      term := if HasText(searchChatTerm) then Some(searchChatTerm) else None;
    }

    /** The continuation of `onChatSearch`: the first result, if any, is selected. */
    method ChatSearchArrived(found: seq<Chat>) returns (req: Option<MessagesRequest>)
      modifies this`foundChats, this`selectChatId
      ensures foundChats == found
      ensures req.Some? <==> |found| > 0
      ensures req.Some? ==>
        selectChatId == found[0].id && req.value == MessagesRequest(locationId, found[0].id, messagesPageSize, Initial)
      ensures req.None? ==> selectChatId == old(selectChatId)
    {
      foundChats := found;
      req := None;
      if |foundChats| > 0 {
        var r := SelectChat(foundChats[0].id);
        req := Some(r);
      }
    }

    /** The guard of `onMessageSearch`: the search runs in the selected chat, only for a term with text. */
    method BeginMessageSearch() returns (search: Option<MessageSearch>)
      ensures search.Some? <==> exists i :: 0 <= i < |searchMessageTerm| && !IsTrimmable(searchMessageTerm[i])
      ensures search.Some? ==> search.value == MessageSearch(selectChatId, locationId, searchMessageTerm)
    {
      search := if HasText(searchMessageTerm) then Some(MessageSearch(selectChatId, locationId, searchMessageTerm)) else None;
    }

    /**
     * The continuation of `onMessageSearch`: non-empty results replace the
     * displayed messages; cursors and flags are left as they were.
     */
    method MessageSearchArrived(found: seq<Message>)
      modifies this`foundMessages, this`messages
      ensures foundMessages == found
      ensures messages == if found == [] then old(messages) else found
    {
      foundMessages := found;
      if |foundMessages| > 0 {
        messages := foundMessages;
      }
    }
  }

  /**
   * A run of the component through selection and two "up" loads, checked
   * against the contracts alone: a full first page keeps the history open,
   * the request pivots off the newest message, a short page closes the
   * history for good, and later "up" requests are refused. Because "up"
   * pivots off `lastVisibleMessage`, `page2` answers a query for messages
   * after the newest one, yet it is put in front of the window.
   */
  method ScrollBackScenario(first: seq<Message>, page2: seq<Message>, sender: User)
    requires |first| == 25 && |page2| == 5
  {
    var app := new AppComponent();
    var req := app.ChatsArrived([ChatOf(Doc("chat-1", ChatDoc(0, "location1", sender, LatestMessage("hi", 0, sender))))]);
    assert req == Some(MessagesRequest("location1", "chat-1", 10, Initial));
    app.SelectionArrived(first);
    assert app.hasMoreMessages && app.lastVisibleMessage == Some(first[24]);
    var up := app.BeginLoadUp();
    assert up == Some(MessagesRequest("location1", "chat-1", 10, After(first[24].timestamp, 10)));
    var again := app.BeginLoadUp();
    assert again == None;
    app.UpPageArrived(page2);
    assert |app.messages| == 30 && app.messages[..5] == page2;
    assert !app.hasMoreMessages && !app.loadingMoreMessages;
    var refused := app.BeginLoadUp();
    assert refused == None;
    var down := app.BeginLoadDown();
    assert down == Some(MessagesRequest("location1", "chat-1", 10, After(first[0].timestamp, 10)));
  }
}
