/**
 * The data logic of the chat service: the roster reducer fed by chat
 * change batches, the choice of the message query from the pagination
 * cursors, the processing of a message snapshot (and the read receipts it
 * fires), the unread-count annotation of a location's roster, and the
 * writes `sendMessage` performs. Every answer of the store is an input.
 */
module ChatService {
  import opened Models
  import opened Store

  // ---------------------------------------------------------------------
  // Roster reducer (getAllChatsWithLatestMessage)
  // ---------------------------------------------------------------------

  datatype ChangeType = Added | Modified | Removed

  /** One entry of a snapshot's `docChanges()`. */
  datatype DocChange = DocChange(kind: ChangeType, doc: Doc<ChatDoc>)

  /** `list.findIndex(x => x.id === id)`: the first index holding `id`, or -1. */
  function FindIndex(list: seq<Chat>, id: string): (r: int)
    ensures -1 <= r < |list|
    ensures r == -1 <==> forall j :: 0 <= j < |list| ==> list[j].id != id
    ensures r >= 0 ==> list[r].id == id && forall j :: 0 <= j < r ==> list[j].id != id
  {
    if list == [] then -1
    else if list[0].id == id then 0
    else
      var k := FindIndex(list[1..], id);
      if k == -1 then -1 else k + 1
  }

  /** `list.filter(x => x.id !== id)`. */
  function RemoveId(list: seq<Chat>, id: string): (r: seq<Chat>)
    ensures |r| <= |list|
    ensures forall j :: 0 <= j < |r| ==> r[j].id != id && r[j] in list
    ensures forall c :: c in list && c.id != id ==> c in r
  {
    if list == [] then []
    else if list[0].id == id then RemoveId(list[1..], id)
    else [list[0]] + RemoveId(list[1..], id)
  }

  /** Removal keeps the relative order of what it keeps: it distributes over concatenation. */
  lemma {:induction false} RemoveIdKeepsOrder(a: seq<Chat>, b: seq<Chat>, id: string)
    ensures RemoveId(a + b, id) == RemoveId(a, id) + RemoveId(b, id)
  {
    if a == [] {
      assert a + b == b;
    } else {
      assert (a + b)[0] == a[0];
      assert (a + b)[1..] == a[1..] + b;
      RemoveIdKeepsOrder(a[1..], b, id);
      if a[0].id != id {
        assert [a[0]] + (RemoveId(a[1..], id) + RemoveId(b, id)) == ([a[0]] + RemoveId(a[1..], id)) + RemoveId(b, id);
      }
    }
  }

  /** Removal of an id nobody has changes nothing. */
  lemma {:induction false} RemoveIdAbsent(list: seq<Chat>, id: string)
    requires forall j :: 0 <= j < |list| ==> list[j].id != id
    ensures RemoveId(list, id) == list
  {
    if list != [] {
      RemoveIdAbsent(list[1..], id);
    }
  }

  /**
   * One change of a batch applied to the roster. The chat is the document's
   * data with `id` set to the document id. An added chat goes to the end; a
   * modified chat replaces the first entry with its id, and when there is
   * none the elements stay as they are (the source assigns index -1, which
   * sets a property, not an element); a removed chat takes every entry with
   * its id out of the list.
   */
  function ApplyChange(list: seq<Chat>, change: DocChange): (r: seq<Chat>)
    ensures change.kind == Added ==>
      |r| == |list| + 1 && r[..|list|] == list && r[|list|] == ChatOf(change.doc)
    ensures change.kind == Modified ==>
      |r| == |list| &&
      var i := FindIndex(list, change.doc.id);
      forall j :: 0 <= j < |list| ==> r[j] == if j == i then ChatOf(change.doc) else list[j]
    ensures change.kind == Removed ==>
      |r| <= |list| &&
      (forall j :: 0 <= j < |r| ==> r[j].id != change.doc.id && r[j] in list) &&
      (forall c :: c in list && c.id != change.doc.id ==> c in r)
  {
    var chat := ChatOf(change.doc);
    match change.kind
    case Added => list + [chat]
    case Modified =>
      var index := FindIndex(list, chat.id);
      if index == -1 then list else list[index := chat]
    case Removed => RemoveId(list, chat.id)
  }

  /** The changes of a batch applied in order, starting from `list`. */
  function ApplyChanges(list: seq<Chat>, changes: seq<DocChange>): (r: seq<Chat>)
    ensures |r| <= |list| + |changes|
  {
    if changes == [] then list
    else ApplyChange(ApplyChanges(list, changes[..|changes| - 1]), changes[|changes| - 1])
  }

  /** What one roster snapshot emits: its changes applied to an empty list. */
  function ReduceBatch(changes: seq<DocChange>): (r: seq<Chat>)
    ensures |r| <= |changes|
  {
    ApplyChanges([], changes)
  }

  /**
   * Applying a batch adds at most one entry per change, and every entry of
   * the result was already there or is the chat of an added or modified change.
   */
  lemma {:induction false} ApplyChangesBounded(list: seq<Chat>, changes: seq<DocChange>)
    ensures |ApplyChanges(list, changes)| <= |list| + |changes|
    ensures forall c :: c in ApplyChanges(list, changes) ==>
      c in list ||
      exists j :: 0 <= j < |changes| && changes[j].kind != Removed && c == ChatOf(changes[j].doc)
  {
    if changes != [] {
      var n := |changes| - 1;
      var prefix := changes[..n];
      ApplyChangesBounded(list, prefix);
      var before := ApplyChanges(list, prefix);
      var after := ApplyChanges(list, changes);
      assert after == ApplyChange(before, changes[n]);
      forall c | c in after
        ensures c in list ||
          exists j :: 0 <= j < |changes| && changes[j].kind != Removed && c == ChatOf(changes[j].doc)
      {
        var k :| 0 <= k < |after| && after[k] == c;
        if c != ChatOf(changes[n].doc) || changes[n].kind == Removed {
          assert c in before;
          if c !in list {
            var j :| 0 <= j < |prefix| && prefix[j].kind != Removed && c == ChatOf(prefix[j].doc);
            assert changes[j] == prefix[j];
          }
        }
      }
    }
  }

  /**
   * Every roster snapshot starts from an empty list, so what it emits is
   * never longer than its batch and holds only chats the batch added or modified.
   */
  lemma ReduceBatchOnlyNamedChats(changes: seq<DocChange>)
    ensures |ReduceBatch(changes)| <= |changes|
    ensures forall c :: c in ReduceBatch(changes) ==>
      exists j :: 0 <= j < |changes| && changes[j].kind != Removed && c == ChatOf(changes[j].doc)
  {
    ApplyChangesBounded([], changes);
  }

  /** The chat service's in-memory roster, mutated in place by each snapshot. */
  class ChatRoster {
    var chatList: seq<Chat>

    constructor ()
      ensures chatList == []
    {
      chatList := [];
    }

    /** The body of the `forEach` over `docChanges()`. */
    method ApplyDocChange(change: DocChange)
      modifies this`chatList
      ensures chatList == ApplyChange(old(chatList), change)
    {
      var chat := ChatOf(change.doc);
      if change.kind == Added {
        chatList := chatList + [chat];
      }
      if change.kind == Modified {
        var index := FindIndex(chatList, chat.id);
        if index != -1 {
          chatList := chatList[index := chat];
        }
      }
      if change.kind == Removed {
        chatList := RemoveId(chatList, chat.id);
      }
    }

    /** The snapshot callback: clear the list, apply every change, emit the list. */
    method OnChatsSnapshot(changes: seq<DocChange>) returns (emitted: seq<Chat>)
      modifies this`chatList
      ensures chatList == ReduceBatch(changes) && emitted == chatList
    {
      chatList := [];
      for i := 0 to |changes|
        invariant chatList == ApplyChanges([], changes[..i])
      {
        assert changes[..i + 1][..i] == changes[..i];
        ApplyDocChange(changes[i]);
      }
      assert changes[..|changes|] == changes;
      emitted := chatList;
    }
  }

  // ---------------------------------------------------------------------
  // Message query choice (getMessagesByChat)
  // ---------------------------------------------------------------------

  /**
   * The query over a chat's messages. Both forms order by timestamp,
   * ascending. `After` starts strictly after a timestamp (the cursor's
   * timestamp only, not its id) and returns at most `limit` messages;
   * `Initial` has neither a start nor a limit.
   */
  datatype MessageQuery = Initial | After(startAfter: int, limit: nat)

  /** The query built from the optional cursors: `lastVisible` wins over `firstVisible`. */
  function ChooseQuery(limitSize: nat, lastVisible: Option<Message>, firstVisible: Option<Message>): (q: MessageQuery)
    ensures lastVisible.Some? ==> q == After(lastVisible.value.timestamp, limitSize)
    ensures lastVisible.None? && firstVisible.Some? ==> q == After(firstVisible.value.timestamp, limitSize)
    ensures q == Initial <==> lastVisible.None? && firstVisible.None?
  {
    if lastVisible.Some? then After(lastVisible.value.timestamp, limitSize)
    else if firstVisible.Some? then After(firstVisible.value.timestamp, limitSize)
    else Initial
  }

  // ---------------------------------------------------------------------
  // Message snapshot processing and read receipts
  // ---------------------------------------------------------------------

  /**
   * The ids of the snapshot's documents whose stored `readStatus` is false.
   * Only membership is promised: the receipts land to the same store in any
   * order (`MarkReadCommutes`).
   */
  function UnreadDocIds(docs: seq<Doc<Message>>): (ids: seq<string>)
    ensures |ids| <= |docs|
    ensures forall x :: x in ids <==> exists i :: 0 <= i < |docs| && docs[i].id == x && !docs[i].data.readStatus
  {
    if docs == [] then []
    else
      var n := |docs| - 1;
      var rest := UnreadDocIds(docs[..n]);
      assert forall i :: 0 <= i < n ==> docs[..n][i] == docs[i];
      if docs[n].data.readStatus then rest else rest + [docs[n].id]
  }

  /**
   * The snapshot callback of a message subscription: every document becomes
   * a message whose id is the document id, in snapshot order, and the ids of
   * the unread ones are handed to `markMessageAsRead`. The emitted messages
   * keep the `readStatus` the snapshot had.
   */
  method ProcessMessagesSnapshot(docs: seq<Doc<Message>>) returns (messagesList: seq<Message>, toMark: seq<string>)
    ensures |messagesList| == |docs|
    ensures forall i :: 0 <= i < |docs| ==>
      messagesList[i].id == docs[i].id && messagesList[i] == docs[i].data.(id := docs[i].id)
    ensures forall i :: 0 <= i < |docs| ==> messagesList[i].readStatus == docs[i].data.readStatus
    ensures toMark == UnreadDocIds(docs)
  {
    messagesList, toMark := [], [];
    for i := 0 to |docs|
      invariant |messagesList| == i
      invariant forall j :: 0 <= j < i ==> messagesList[j] == MessageOf(docs[j])
      invariant toMark == UnreadDocIds(docs[..i])
    {
      assert docs[..i + 1][..i] == docs[..i];
      var message := MessageOf(docs[i]);
      if !message.readStatus {
        toMark := toMark + [message.id];
      }
      messagesList := messagesList + [message];
    }
    assert docs[..|docs|] == docs;
  }

  /**
   * `markMessageAsRead`: an update of `readStatus` to true. A failed write
   * (`fault`, or a message document that does not exist) is logged and
   * swallowed, so the store is then unchanged and no error reaches the caller.
   */
  function MarkMessageAsRead(db: Db, locationId: string, chatId: string, messageId: string, fault: bool): (r: Db)
    ensures r.chats == db.chats
    ensures forall p :: p != ChatPath(locationId, chatId) ==> MessagesOf(r, p) == MessagesOf(db, p)
    ensures var p := ChatPath(locationId, chatId);
      && MessagesOf(r, p).Keys == MessagesOf(db, p).Keys
      && forall id :: id in MessagesOf(db, p) ==>
           MessagesOf(r, p)[id] ==
             if id == messageId && !fault then MessagesOf(db, p)[id].(readStatus := true)
             else MessagesOf(db, p)[id]
  {
    if fault then db
    else match ApplyWrite(db, MarkRead(ChatPath(locationId, chatId), messageId))
      case Some(d) => d
      case None => db
  }

  /** A landed mark-read takes exactly that message out of the chat's unread set. */
  lemma MarkReadUnread(db: Db, locationId: string, chatId: string, messageId: string)
    ensures var p := ChatPath(locationId, chatId);
      UnreadIds(MarkMessageAsRead(db, locationId, chatId, messageId, false), p) == UnreadIds(db, p) - {messageId}
    ensures var p := ChatPath(locationId, chatId);
      UnreadCount(MarkMessageAsRead(db, locationId, chatId, messageId, false), p)
        == if messageId in UnreadIds(db, p) then UnreadCount(db, p) - 1 else UnreadCount(db, p)
  {
    var p := ChatPath(locationId, chatId);
    var r := MarkMessageAsRead(db, locationId, chatId, messageId, false);
    MarkedUnreadIn(MessagesOf(db, p), MessagesOf(r, p), messageId);
  }

  /** Setting `readStatus` on the message `id` of `m` takes `id` out of the unread ids. */
  lemma MarkedUnreadIn(m: map<string, Message>, marked: map<string, Message>, id: string)
    requires marked.Keys == m.Keys
    requires forall x :: x in m ==> marked[x] == if x == id then m[x].(readStatus := true) else m[x]
    ensures UnreadIn(marked) == UnreadIn(m) - {id}
    ensures |UnreadIn(marked)| == if id in UnreadIn(m) then |UnreadIn(m)| - 1 else |UnreadIn(m)|
  {
    assert UnreadIn(marked) == UnreadIn(m) - {id};
  }

  /** Marking a message read twice leaves the store as marking it once. */
  lemma MarkReadIdempotent(db: Db, locationId: string, chatId: string, messageId: string)
    ensures var once := MarkMessageAsRead(db, locationId, chatId, messageId, false);
      MarkMessageAsRead(once, locationId, chatId, messageId, false) == once
  {
    var p := ChatPath(locationId, chatId);
    var once := MarkMessageAsRead(db, locationId, chatId, messageId, false);
    var twice := MarkMessageAsRead(once, locationId, chatId, messageId, false);
    if messageId in MessagesOf(db, p) {
      assert MessagesOf(twice, p) == MessagesOf(once, p);
      assert twice.messages == once.messages;
    }
  }

  /** Two read receipts land to the same store in either order. */
  lemma MarkReadCommutes(db: Db, locationId: string, chatId: string, a: string, b: string)
    ensures
      MarkMessageAsRead(MarkMessageAsRead(db, locationId, chatId, a, false), locationId, chatId, b, false)
      == MarkMessageAsRead(MarkMessageAsRead(db, locationId, chatId, b, false), locationId, chatId, a, false)
  {
    var p := ChatPath(locationId, chatId);
    var m := MessagesOf(db, p);
    var da, db' := MarkMessageAsRead(db, locationId, chatId, a, false), MarkMessageAsRead(db, locationId, chatId, b, false);
    MarkReadStore(db, p, a);
    MarkReadStore(db, p, b);
    MarkReadStore(da, p, b);
    MarkReadStore(db', p, a);
    if a != b && a in m && b in m {
      var both := m[a := m[a].(readStatus := true)][b := m[b].(readStatus := true)];
      assert m[b := m[b].(readStatus := true)][a := m[a].(readStatus := true)] == both;
    }
  }

  /** The store a landed mark-read of `id` at `p` leaves. */
  lemma MarkReadStore(db: Db, p: ChatPath, id: string)
    ensures var m := MessagesOf(db, p);
      MarkMessageAsRead(db, p.locationId, p.chatId, id, false)
      == if id in m then db.(messages := db.messages[p := m[id := m[id].(readStatus := true)]]) else db
  {
  }

  /** Every read receipt a snapshot fires, each landing in turn. */
  function MarkAllRead(db: Db, locationId: string, chatId: string, ids: seq<string>): (r: Db)
    ensures r.chats == db.chats
    ensures forall p :: p != ChatPath(locationId, chatId) ==> MessagesOf(r, p) == MessagesOf(db, p)
    ensures var p := ChatPath(locationId, chatId);
      && MessagesOf(r, p).Keys == MessagesOf(db, p).Keys
      && forall id :: id in MessagesOf(db, p) ==>
           MessagesOf(r, p)[id] ==
             if id in ids then MessagesOf(db, p)[id].(readStatus := true) else MessagesOf(db, p)[id]
  {
    if ids == [] then db
    else MarkMessageAsRead(MarkAllRead(db, locationId, chatId, ids[..|ids| - 1]), locationId, chatId, ids[|ids| - 1], false)
  }

  /** After the receipts land, the chat's unread messages are the former ones not named in `ids`. */
  lemma {:induction false} MarkAllReadUnread(db: Db, locationId: string, chatId: string, ids: seq<string>)
    ensures var p := ChatPath(locationId, chatId);
      UnreadIds(MarkAllRead(db, locationId, chatId, ids), p) == UnreadIds(db, p) - Elements(ids)
  {
    if ids != [] {
      var p := ChatPath(locationId, chatId);
      var n := |ids| - 1;
      MarkAllReadUnread(db, locationId, chatId, ids[..n]);
      MarkAllReadStep(db, locationId, chatId, ids);
      ElementsSnoc(ids);
      var u, named, namedBefore := UnreadIds(db, p), Elements(ids), Elements(ids[..n]);
      assert (u - namedBefore) - {ids[n]} == u - named;
    }
  }

  lemma MarkAllReadStep(db: Db, locationId: string, chatId: string, ids: seq<string>)
    requires ids != []
    ensures var p := ChatPath(locationId, chatId);
      UnreadIds(MarkAllRead(db, locationId, chatId, ids), p)
        == UnreadIds(MarkAllRead(db, locationId, chatId, ids[..|ids| - 1]), p) - {ids[|ids| - 1]}
  {
    MarkReadUnread(MarkAllRead(db, locationId, chatId, ids[..|ids| - 1]), locationId, chatId, ids[|ids| - 1]);
  }

  /** The ids a sequence names. */
  function Elements(ids: seq<string>): set<string> {
    set x | x in ids
  }

  lemma ElementsSnoc(ids: seq<string>)
    requires ids != []
    ensures Elements(ids) == Elements(ids[..|ids| - 1]) + {ids[|ids| - 1]}
  {
    assert ids == ids[..|ids| - 1] + [ids[|ids| - 1]];
  }

  /**
   * When a snapshot reports every stored message of a chat (the initial
   * query has no limit), the receipts it fires leave the chat with no
   * unread message once they have all landed.
   */
  lemma FullSnapshotClearsUnread(db: Db, locationId: string, chatId: string, docs: seq<Doc<Message>>)
    requires var m := MessagesOf(db, ChatPath(locationId, chatId));
      forall id :: id in m ==> Doc(id, m[id]) in docs
    ensures UnreadCount(MarkAllRead(db, locationId, chatId, UnreadDocIds(docs)), ChatPath(locationId, chatId)) == 0
  {
    var p := ChatPath(locationId, chatId);
    var m := MessagesOf(db, p);
    var ids := UnreadDocIds(docs);
    MarkAllReadUnread(db, locationId, chatId, ids);
    forall id | id in UnreadIds(db, p) ensures id in ids {
      var i :| 0 <= i < |docs| && docs[i] == Doc(id, m[id]);
    }
    assert UnreadIds(MarkAllRead(db, locationId, chatId, ids), p) == {};
  }

  // ---------------------------------------------------------------------
  // Unread-count annotation (getChatsByLocation)
  // ---------------------------------------------------------------------

  /** A roster document as emitted: its chat with the unread count of its messages. */
  function Annotated(db: Db, locationId: string, d: Doc<ChatDoc>): Chat {
    ChatOf(d).(unreadCount := Some(UnreadCount(db, ChatPath(locationId, d.id))))
  }

  /** The snapshot's chats, annotated, in snapshot order. */
  function AnnotateAll(db: Db, locationId: string, docs: seq<Doc<ChatDoc>>): (r: seq<Chat>)
    ensures |r| == |docs|
    ensures forall i :: 0 <= i < |docs| ==> r[i] == Annotated(db, locationId, docs[i])
  {
    if docs == [] then []
    else AnnotateAll(db, locationId, docs[..|docs| - 1]) + [Annotated(db, locationId, docs[|docs| - 1])]
  }

  /** The indices 0, 1, ..., n - 1. */
  function Indices(n: nat): (r: seq<nat>)
    ensures |r| == n && forall i :: 0 <= i < n ==> r[i] == i
  {
    if n == 0 then [] else Indices(n - 1) + [n - 1]
  }

  /** The elements of `s` at the positions listed in `order`. */
  function Pick<T>(s: seq<T>, order: seq<nat>): (r: seq<T>)
    requires forall k :: 0 <= k < |order| ==> order[k] < |s|
    ensures |r| == |order| && forall k :: 0 <= k < |order| ==> r[k] == s[order[k]]
  {
    if order == [] then [] else Pick(s, order[..|order| - 1]) + [s[order[|order| - 1]]]
  }

  lemma {:induction false} PickAppend<T>(s: seq<T>, a: seq<nat>, b: seq<nat>)
    requires forall k :: 0 <= k < |a| ==> a[k] < |s|
    requires forall k :: 0 <= k < |b| ==> b[k] < |s|
    ensures forall k :: 0 <= k < |a + b| ==> (a + b)[k] < |s|
    ensures Pick(s, a + b) == Pick(s, a) + Pick(s, b)
  {
  }

  /** Picking by two orders that list the same positions gives the same multiset of elements. */
  lemma {:induction false} PickPermutation<T>(s: seq<T>, a: seq<nat>, b: seq<nat>)
    requires forall k :: 0 <= k < |a| ==> a[k] < |s|
    requires multiset(a) == multiset(b)
    ensures forall k :: 0 <= k < |b| ==> b[k] < |s|
    ensures multiset(Pick(s, a)) == multiset(Pick(s, b))
    decreases |a|
  {
    PermutedInRange(a, b, |s|);
    if a != [] {
      var n := |a| - 1;
      var x := a[n];
      var m := RemoveOne(a, b);
      PickPermutation(s, a[..n], Without(b, m));
      PickAround(s, b, m);
    }
  }

  /** Positions listed by a reordering of in-range positions are in range. */
  lemma PermutedInRange(a: seq<nat>, b: seq<nat>, bound: nat)
    requires forall k :: 0 <= k < |a| ==> a[k] < bound
    requires multiset(a) == multiset(b)
    ensures forall k :: 0 <= k < |b| ==> b[k] < bound
  {
    forall k | 0 <= k < |b| ensures b[k] < bound {
      assert b[k] in multiset(b);
      var j :| 0 <= j < |a| && a[j] == b[k];
    }
  }

  /** `b` without its element at position `m`. */
  function Without(b: seq<nat>, m: nat): (r: seq<nat>)
    requires m < |b|
    ensures |r| == |b| - 1
  {
    b[..m] + b[m + 1..]
  }

  /** Picking around position `m` of `b` leaves out exactly the element picked at `m`. */
  lemma PickAround<T>(s: seq<T>, b: seq<nat>, m: nat)
    requires m < |b|
    requires forall k :: 0 <= k < |b| ==> b[k] < |s|
    ensures forall k :: 0 <= k < |Without(b, m)| ==> Without(b, m)[k] < |s|
    ensures multiset(Pick(s, b)) == multiset(Pick(s, Without(b, m))) + multiset{s[b[m]]}
  {
    var p, q := Pick(s, b), Pick(s, Without(b, m));
    forall k | 0 <= k < |q|
      ensures q[k] == if k < m then p[k] else p[k + 1]
    {
      assert Without(b, m)[k] == if k < m then b[k] else b[k + 1];
    }
    MultisetAround(p, q, m);
  }

  /** Removing position `m` of `p` removes one occurrence of `p[m]` from its multiset. */
  lemma MultisetAround<T>(p: seq<T>, q: seq<T>, m: nat)
    requires m < |p| && |q| == |p| - 1
    requires forall k :: 0 <= k < m ==> q[k] == p[k]
    requires forall k :: m <= k < |q| ==> q[k] == p[k + 1]
    ensures multiset(p) == multiset(q) + multiset{p[m]}
  {
    var w := p[..m] + p[m + 1..];
    forall k | 0 <= k < |q|
      ensures q[k] == w[k]
    {
      if k < m {
        assert w[k] == p[..m][k] == p[k];
      } else {
        assert w[k] == p[m + 1..][k - m] == p[k + 1];
      }
    }
    assert q == w;
    assert p == p[..m] + [p[m]] + p[m + 1..];
  }

  /**
   * A position of `b` holding the last element of `a`; without those two
   * elements the multisets still agree.
   */
  lemma RemoveOne(a: seq<nat>, b: seq<nat>) returns (m: nat)
    requires a != []
    requires multiset(a) == multiset(b)
    ensures m < |b| && b[m] == a[|a| - 1]
    ensures multiset(a[..|a| - 1]) == multiset(Without(b, m))
  {
    var x := a[|a| - 1];
    assert a == a[..|a| - 1] + [x];
    assert x in multiset(b);
    m :| 0 <= m < |b| && b[m] == x;
    assert b == b[..m] + [x] + b[m + 1..];
    assert multiset(a[..|a| - 1]) == multiset(a) - multiset{x};
    assert multiset(b[..m] + b[m + 1..]) == multiset(b) - multiset{x};
  }

  /** The order in which the per-chat count queries finish: some ordering of the snapshot's positions. */
  predicate IsCompletionOrder(order: seq<nat>, n: nat) {
    multiset(order) == multiset(Indices(n))
  }

  /** A completion order lists every position once, so picking by it permutes `s`. */
  lemma CompletionOrderInRange<T>(s: seq<T>, order: seq<nat>)
    requires IsCompletionOrder(order, |s|)
    ensures |order| == |s|
    ensures forall k :: 0 <= k < |order| ==> order[k] < |s|
    ensures multiset(Pick(s, order)) == multiset(s)
  {
    var idx := Indices(|s|);
    assert |order| == |s| by {
      calc {
        |order|;
        |multiset(order)|;
        |multiset(idx)|;
        |idx|;
      }
    }
    PickPermutation(s, idx, order);
    assert Pick(s, idx) == s;
  }

  /** A completion order names every position of the snapshot. */
  lemma CompletionOrderCovers(order: seq<nat>, n: nat, i: nat)
    requires IsCompletionOrder(order, n)
    requires i < n
    ensures i in order
  {
    var idx := Indices(n);
    assert idx[i] == i;
    assert i in multiset(idx);
  }

  /**
   * The snapshot callback of `getChatsByLocation`: each chat is pushed, with
   * its unread count, when its count query finishes, and the list is emitted
   * once all have finished. The emitted list is a permutation of the
   * snapshot's annotated chats: each appears exactly as often as in the
   * snapshot. When a count query fails (`failedQueries` holds its snapshot
   * position), `Promise.all` rejects, the callback throws before emitting,
   * and that snapshot emits nothing.
   */
  method AnnotateUnread(db: Db, locationId: string, docs: seq<Doc<ChatDoc>>, order: seq<nat>, failedQueries: set<nat>)
    returns (emitted: Option<seq<Chat>>)
    requires IsCompletionOrder(order, |docs|)
    ensures emitted.None? <==> exists i :: i in failedQueries && i < |docs|
    ensures emitted.Some? ==> |emitted.value| == |docs| == |order|
    ensures emitted.Some? ==> forall k :: 0 <= k < |order| ==>
      order[k] < |docs| && emitted.value[k] == Annotated(db, locationId, docs[order[k]])
    ensures emitted.Some? ==> multiset(emitted.value) == multiset(AnnotateAll(db, locationId, docs))
  {
    var all := AnnotateAll(db, locationId, docs);
    AnnotatedInCompletionOrder(db, locationId, docs, order);
    emitted := CollectCompleted(all, order, failedQueries);
    if emitted.None? {
      var k :| 0 <= k < |order| && order[k] in failedQueries;
      assert order[k] < |docs|;
    } else {
      forall i | i in failedQueries && i < |docs|
        ensures false
      {
        CompletionOrderCovers(order, |docs|, i);
      }
    }
  }

  /**
   * The queries finishing in `order`: each finished chat is pushed; the
   * first failure rejects the whole wait, so nothing is returned.
   */
  method CollectCompleted(all: seq<Chat>, order: seq<nat>, failedQueries: set<nat>) returns (r: Option<seq<Chat>>)
    requires forall k :: 0 <= k < |order| ==> order[k] < |all|
    ensures r.None? <==> exists k :: 0 <= k < |order| && order[k] in failedQueries
    ensures r.Some? ==> r.value == Pick(all, order)
  {
    var chatList := [];
    for k := 0 to |order|
      invariant chatList == Pick(all, order[..k])
      invariant forall j :: 0 <= j < k ==> order[j] !in failedQueries
    {
      if order[k] in failedQueries {
        return None;
      }
      assert order[..k + 1][..k] == order[..k];
      chatList := chatList + [all[order[k]]];
    }
    assert order[..|order|] == order;
    r := Some(chatList);
  }

  /** The annotated chats picked in completion order: one per position, a permutation of the snapshot's. */
  lemma AnnotatedInCompletionOrder(db: Db, locationId: string, docs: seq<Doc<ChatDoc>>, order: seq<nat>)
    requires IsCompletionOrder(order, |docs|)
    ensures forall k :: 0 <= k < |order| ==> order[k] < |docs|
    ensures var all := AnnotateAll(db, locationId, docs);
      var chatList := Pick(all, order);
      && |chatList| == |docs| == |order|
      && (forall k :: 0 <= k < |order| ==> chatList[k] == Annotated(db, locationId, docs[order[k]]))
      && multiset(chatList) == multiset(all)
  {
    CompletionOrderInRange(AnnotateAll(db, locationId, docs), order);
  }

  // ---------------------------------------------------------------------
  // sendMessage
  // ---------------------------------------------------------------------

  /** The ids `addDoc` assigns to a new chat and to the new message. */
  datatype GeneratedIds = GeneratedIds(chatId: string, messageId: string)

  /** The three clock readings of a send: chat creation, the new chat's latest message, the message. */
  datatype SendClock = SendClock(chatCreatedAt: int, chatLatestAt: int, messageAt: int)

  /** JavaScript falsiness of the `chatId` argument: null or the empty string. */
  predicate IsFalsy(chatId: Option<string>) {
    chatId.None? || chatId.value == ""
  }

  /** The chat the message goes to: the generated id when none was given, else the given one. */
  function SendPath(locationId: string, chatId: Option<string>, ids: GeneratedIds): ChatPath {
    ChatPath(locationId, if IsFalsy(chatId) then ids.chatId else chatId.value)
  }

  /** The message record written by a send. */
  function NewMessage(content: string, sender: User, clock: SendClock): Message {
    Message("", content, sender, clock.messageAt, false)
  }

  /**
   * The writes of `sendMessage`, in order: a new chat document when no id
   * was given or the given one does not exist, the message, then the patch
   * of the chat's `latestMessage`.
   */
  function SendPlan(db: Db, locationId: string, chatId: Option<string>, content: string, sender: User,
                    ids: GeneratedIds, clock: SendClock): (plan: seq<Write>)
    ensures var path := SendPath(locationId, chatId, ids);
      var creates := IsFalsy(chatId) || path !in db.chats;
      && |plan| == (if creates then 3 else 2)
      && (creates ==> plan[0] == CreateChat(path, ChatDoc(clock.chatCreatedAt, locationId, sender,
                                                           LatestMessage(content, clock.chatLatestAt, sender))))
      && plan[|plan| - 2] == AddMessage(path, ids.messageId, NewMessage(content, sender, clock))
      && plan[|plan| - 1] == PatchLatest(path, LatestOf(NewMessage(content, sender, clock)))
  {
    var path := SendPath(locationId, chatId, ids);
    var newChat := ChatDoc(clock.chatCreatedAt, locationId, sender, LatestMessage(content, clock.chatLatestAt, sender));
    var message := NewMessage(content, sender, clock);
    var create := if IsFalsy(chatId) || path !in db.chats then [CreateChat(path, newChat)] else [];
    create + [AddMessage(path, ids.messageId, message), PatchLatest(path, LatestOf(message))]
  }

  /** How a send ends: resolved, or rejected with the error re-thrown; either way the store as it is left. */
  datatype SendResult = Sent(db: Db) | Rejected(db: Db)

  /** Issue the writes one after another; `fault == Some(k)` makes the k-th write fail. */
  function RunWrites(db: Db, writes: seq<Write>, fault: Option<nat>): (r: SendResult)
    ensures fault.Some? && fault.value < |writes| ==> r.Rejected?
    ensures fault.None? && (forall j :: 0 <= j < |writes| ==> writes[j].CreateChat? || writes[j].AddMessage?) ==> r.Sent?
    decreases |writes|
  {
    if writes == [] then Sent(db)
    else if fault == Some(0) then Rejected(db)
    else match ApplyWrite(db, writes[0])
      case None => Rejected(db)
      case Some(d) => RunWrites(d, writes[1..], if fault.Some? then Some(fault.value - 1) else None)
  }

  /**
   * `sendMessage`: the write plan run against the store. It rejects exactly
   * when one of its steps fails; without a failure every write lands.
   */
  function SendMessage(db: Db, locationId: string, chatId: Option<string>, content: string, sender: User,
                       ids: GeneratedIds, clock: SendClock, fault: Option<nat>): (r: SendResult)
    ensures r.Rejected? <==> fault.Some? && fault.value < |SendPlan(db, locationId, chatId, content, sender, ids, clock)|
    ensures fault.None? ==> r == Sent(Delivered(db, locationId, chatId, content, sender, ids, clock))
  {
    var plan := SendPlan(db, locationId, chatId, content, sender, ids, clock);
    SendReachesDelivered(db, locationId, chatId, content, sender, ids, clock);
    FaultPastEndIsNoFault(db, plan, fault);
    RunWrites(db, plan, fault)
  }

  /** A failure scheduled after the last write never happens. */
  lemma {:induction false} FaultPastEndIsNoFault(db: Db, writes: seq<Write>, fault: Option<nat>)
    ensures fault.Some? && fault.value >= |writes| ==> RunWrites(db, writes, fault) == RunWrites(db, writes, None)
    decreases |writes|
  {
    if fault.Some? && fault.value >= |writes| && writes != [] && ApplyWrite(db, writes[0]).Some? {
      FaultPastEndIsNoFault(ApplyWrite(db, writes[0]).value, writes[1..], Some(fault.value - 1));
    }
  }

  /**
   * A send without a fault resolves. The chat exists afterwards with its
   * `latestMessage` equal to the projection of the sent message, the message
   * is stored unread, no other chat is touched, and (the new id being fresh)
   * the chat's unread count grows by one.
   */
  lemma SendMessageDelivers(db: Db, locationId: string, chatId: Option<string>, content: string, sender: User,
                            ids: GeneratedIds, clock: SendClock)
    ensures var path := SendPath(locationId, chatId, ids);
      var r := SendMessage(db, locationId, chatId, content, sender, ids, clock, None);
      && r.Sent?
      && path in r.db.chats
      && r.db.chats[path].latestMessage == LatestMessage(content, clock.messageAt, sender)
      && (IsFalsy(chatId) || path !in db.chats ==>
            r.db.chats[path].createdAt == clock.chatCreatedAt && r.db.chats[path].chatUser == sender
            && r.db.chats[path].locationId == locationId)
      && (!IsFalsy(chatId) && path in db.chats ==>
            r.db.chats[path] == db.chats[path].(latestMessage := LatestMessage(content, clock.messageAt, sender)))
      && ids.messageId in MessagesOf(r.db, path)
      && MessagesOf(r.db, path)[ids.messageId] == Message("", content, sender, clock.messageAt, false)
      && MessagesOf(r.db, path) == MessagesOf(db, path)[ids.messageId := NewMessage(content, sender, clock)]
      && r.db.chats.Keys == db.chats.Keys + {path}
      && (forall p :: p != path ==> MessagesOf(r.db, p) == MessagesOf(db, p))
      && (forall p :: p != path && p in db.chats ==> p in r.db.chats && r.db.chats[p] == db.chats[p])
      && (ids.messageId !in MessagesOf(db, path) ==> UnreadCount(r.db, path) == UnreadCount(db, path) + 1)
  {
    DeliveredChats(db, locationId, chatId, content, sender, ids, clock);
    DeliveredMessages(db, locationId, chatId, content, sender, ids, clock);
  }

  /** The chat documents once every write of a send has landed. */
  lemma DeliveredChats(db: Db, locationId: string, chatId: Option<string>, content: string, sender: User,
                       ids: GeneratedIds, clock: SendClock)
    ensures var path := SendPath(locationId, chatId, ids);
      var d := Delivered(db, locationId, chatId, content, sender, ids, clock);
      && path in d.chats
      && d.chats[path].latestMessage == LatestMessage(content, clock.messageAt, sender)
      && (IsFalsy(chatId) || path !in db.chats ==>
            d.chats[path].createdAt == clock.chatCreatedAt && d.chats[path].chatUser == sender
            && d.chats[path].locationId == locationId)
      && (!IsFalsy(chatId) && path in db.chats ==>
            d.chats[path] == db.chats[path].(latestMessage := LatestMessage(content, clock.messageAt, sender)))
      && d.chats.Keys == db.chats.Keys + {path}
      && (forall p :: p != path && p in db.chats ==> p in d.chats && d.chats[p] == db.chats[p])
  {
  }

  /** The message collections once every write of a send has landed. */
  lemma DeliveredMessages(db: Db, locationId: string, chatId: Option<string>, content: string, sender: User,
                          ids: GeneratedIds, clock: SendClock)
    ensures var path := SendPath(locationId, chatId, ids);
      var d := Delivered(db, locationId, chatId, content, sender, ids, clock);
      && ids.messageId in MessagesOf(d, path)
      && MessagesOf(d, path)[ids.messageId] == Message("", content, sender, clock.messageAt, false)
      && MessagesOf(d, path) == MessagesOf(db, path)[ids.messageId := NewMessage(content, sender, clock)]
      && (forall p :: p != path ==> MessagesOf(d, p) == MessagesOf(db, p))
      && (ids.messageId !in MessagesOf(db, path) ==> UnreadCount(d, path) == UnreadCount(db, path) + 1)
  {
    var path := SendPath(locationId, chatId, ids);
    var msg := NewMessage(content, sender, clock);
    var d := Delivered(db, locationId, chatId, content, sender, ids, clock);
    assert d.messages == db.messages[path := MessagesOf(db, path)[ids.messageId := msg]];
    MessageStored(db, d, path, ids.messageId, msg);
  }

  /**
   * A store whose only change to the message collections is `msg` stored
   * under `id` at `path`: the other chats keep their messages, and a fresh
   * unread message adds one to the chat's unread count.
   */
  lemma MessageStored(db: Db, d: Db, path: ChatPath, id: string, msg: Message)
    requires d.messages == db.messages[path := MessagesOf(db, path)[id := msg]]
    requires !msg.readStatus
    ensures MessagesOf(d, path) == MessagesOf(db, path)[id := msg]
    ensures forall p :: p != path ==> MessagesOf(d, p) == MessagesOf(db, p)
    ensures id !in MessagesOf(db, path) ==> UnreadCount(d, path) == UnreadCount(db, path) + 1
  {
    if id !in MessagesOf(db, path) {
      AddedMessageUnread(MessagesOf(db, path), id, msg);
      assert UnreadIds(d, path) == UnreadIds(db, path) + {id};
    }
  }

  /** The store after the optional chat creation of a send. */
  function CreatedStore(db: Db, locationId: string, chatId: Option<string>, content: string, sender: User,
                        ids: GeneratedIds, clock: SendClock): Db {
    var path := SendPath(locationId, chatId, ids);
    if IsFalsy(chatId) || path !in db.chats then
      db.(chats := db.chats[path := ChatDoc(clock.chatCreatedAt, locationId, sender,
                                            LatestMessage(content, clock.chatLatestAt, sender))])
    else db
  }

  /** The store after every write of a send has landed. */
  function Delivered(db: Db, locationId: string, chatId: Option<string>, content: string, sender: User,
                     ids: GeneratedIds, clock: SendClock): Db {
    var path := SendPath(locationId, chatId, ids);
    var msg := NewMessage(content, sender, clock);
    var d1 := CreatedStore(db, locationId, chatId, content, sender, ids, clock);
    var d2 := d1.(messages := d1.messages[path := MessagesOf(d1, path)[ids.messageId := msg]]);
    d2.(chats := d2.chats[path := d2.chats[path].(latestMessage := LatestOf(msg))])
  }

  lemma SendReachesDelivered(db: Db, locationId: string, chatId: Option<string>, content: string, sender: User,
                             ids: GeneratedIds, clock: SendClock)
    ensures RunWrites(db, SendPlan(db, locationId, chatId, content, sender, ids, clock), None)
      == Sent(Delivered(db, locationId, chatId, content, sender, ids, clock))
  {
    var path := SendPath(locationId, chatId, ids);
    var plan := SendPlan(db, locationId, chatId, content, sender, ids, clock);
    var msg := NewMessage(content, sender, clock);
    var d := CreatedStore(db, locationId, chatId, content, sender, ids, clock);
    var w2, w3 := AddMessage(path, ids.messageId, msg), PatchLatest(path, LatestOf(msg));
    if IsFalsy(chatId) || path !in db.chats {
      assert plan == [plan[0], w2, w3];
      assert ApplyWrite(db, plan[0]) == Some(d);
      assert RunWrites(db, plan, None) == RunWrites(d, plan[1..], None);
      assert plan[1..] == [w2, w3];
    } else {
      assert plan == [w2, w3];
    }
    var d2 := ApplyWrite(d, w2).value;
    assert RunWrites(d, [w2, w3], None) == RunWrites(d2, [w3], None);
    assert RunWrites(d2, [w3], None) == RunWrites(ApplyWrite(d2, w3).value, [], None);
  }

  /** A new unread message joins the unread set of its chat. */
  lemma AddedMessageUnread(m: map<string, Message>, id: string, msg: Message)
    requires id !in m && !msg.readStatus
    ensures UnreadIn(m[id := msg]) == UnreadIn(m) + {id}
  {
  }

  /**
   * A send whose k-th write fails is rejected (the caller sees the error),
   * and the writes before it stay in the store: nothing is rolled back.
   */
  lemma {:induction false} RunWritesFault(db: Db, writes: seq<Write>, k: nat)
    requires k < |writes|
    requires forall j :: 0 <= j < k ==> !writes[j].PatchLatest? && !writes[j].MarkRead?
    ensures RunWrites(db, writes, Some(k)).Rejected?
    ensures RunWrites(db, writes, Some(k)).db == RunWrites(db, writes[..k], None).db
    decreases k
  {
    if k > 0 {
      var d := ApplyWrite(db, writes[0]).value;
      assert writes[..k][1..] == writes[1..][..k - 1];
      RunWritesFault(d, writes[1..], k - 1);
    }
  }

  /** A faulty send is rejected, and a failing message write leaves at most the new chat behind. */
  lemma SendMessageFault(db: Db, locationId: string, chatId: Option<string>, content: string, sender: User,
                         ids: GeneratedIds, clock: SendClock, k: nat)
    requires k < |SendPlan(db, locationId, chatId, content, sender, ids, clock)|
    ensures SendMessage(db, locationId, chatId, content, sender, ids, clock, Some(k)).Rejected?
    ensures k == 0 ==> SendMessage(db, locationId, chatId, content, sender, ids, clock, Some(k)).db == db
  {
    var plan := SendPlan(db, locationId, chatId, content, sender, ids, clock);
    var create := IsFalsy(chatId) || SendPath(locationId, chatId, ids) !in db.chats;
    if k == |plan| - 1 {
      var d := if create then ApplyWrite(db, plan[0]).value else db;
      var d2 := ApplyWrite(d, plan[|plan| - 2]).value;
      if create {
        assert RunWrites(db, plan, Some(k)) == RunWrites(d, plan[1..], Some(k - 1));
        assert RunWrites(d, plan[1..], Some(k - 1)) == RunWrites(d2, plan[2..], Some(k - 2));
      } else {
        assert RunWrites(db, plan, Some(k)) == RunWrites(d2, plan[1..], Some(k - 1));
      }
    } else {
      RunWritesFault(db, plan, k);
    }
  }
}
