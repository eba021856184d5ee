/** The `useMessages` hook: the user's message list, the conversation view
    with one other user, the unread count, and how loading, receiving,
    sending and marking as read change the list. */
module Messages {
  import opened Common
  import opened Seqs
  import opened Schema

  const LoadLimit := 100

  datatype MessageKind = Text | Location | Image | AlertMessage

  datatype Message = Message(id: RowId, senderId: UserId, receiverId: UserId, content: string,
                             kind: MessageKind, isRead: bool, createdAt: int)

  function Involves(other: UserId): Message -> bool {
    (m: Message) => m.senderId == other || m.receiverId == other
  }

  function CreatedAt(m: Message): int {
    m.createdAt
  }

  /** `getConversation(other)`: the messages sent by or to `other`, oldest
      first — a reordering of exactly those messages. */
  function Conversation(messages: seq<Message>, other: UserId): (r: seq<Message>)
    ensures forall i, j :: 0 <= i < j < |r| ==> r[i].createdAt <= r[j].createdAt
    ensures multiset(r) == multiset(Filter(Involves(other), messages))
  {
    SortBy(CreatedAt, Filter(Involves(other), messages))
  }

  /** The conversation holds exactly the messages that involve `other`. */
  lemma ConversationIsThatUsersMessages(messages: seq<Message>, other: UserId, m: Message)
    ensures m in Conversation(messages, other) <==>
      m in messages && (m.senderId == other || m.receiverId == other)
  {
    var mine := Filter(Involves(other), messages);
    assert m in Conversation(messages, other) <==> m in multiset(mine);
    if m in messages && Involves(other)(m) {
      var i :| 0 <= i < |messages| && messages[i] == m;
      assert m in mine;
    }
  }

  function Unread(): Message -> bool {
    (m: Message) => !m.isRead
  }

  /** `getUnreadCount`: every unread message counts, sent ones included. */
  function UnreadCount(messages: seq<Message>): (r: nat)
    ensures r <= |messages|
    ensures r == 0 <==> forall i :: 0 <= i < |messages| ==> messages[i].isRead
  {
    var unread := Filter(Unread(), messages);
    if |unread| > 0 then
      assert !unread[0].isRead && unread[0] in messages;
      |unread|
    else
      |unread|
  }

  lemma UnreadCountCountsUnreadRows(messages: seq<Message>)
    ensures UnreadCount(messages) == |set i | 0 <= i < |messages| && !messages[i].isRead|
  {
    FilterLengthIsIndexCount(Unread(), messages);
    assert IndicesWhere(Unread(), messages) == set i | 0 <= i < |messages| && !messages[i].isRead;
  }

  /** The local update after a successful `markAsRead(id)`. */
  function MarkRead(messages: seq<Message>, id: RowId): (r: seq<Message>)
    ensures |r| == |messages|
    ensures forall i :: 0 <= i < |messages| && messages[i].id == id ==> r[i] == messages[i].(isRead := true)
    ensures forall i :: 0 <= i < |messages| && messages[i].id != id ==> r[i] == messages[i]
  {
    if messages == [] then []
    else [if messages[0].id == id then messages[0].(isRead := true) else messages[0]] + MarkRead(messages[1..], id)
  }

  /** Marking a message read never raises the unread count, and leaves it
      alone when no message has that id. */
  lemma {:induction false} MarkReadLowersUnread(messages: seq<Message>, id: RowId)
    ensures UnreadCount(MarkRead(messages, id)) <= UnreadCount(messages)
    ensures (forall i :: 0 <= i < |messages| ==> messages[i].id != id) ==>
      UnreadCount(MarkRead(messages, id)) == UnreadCount(messages)
  {
    if messages != [] {
      var rest := messages[1..];
      MarkReadLowersUnread(rest, id);
      assert messages == [messages[0]] + rest;
    }
  }

  /** `.or(sender, receiver).order('created_at', {ascending: false}).limit(100)`. */
  function Newest(m: Message): int {
    -m.createdAt
  }

  function InitialLoad(rows: seq<Message>, me: UserId): (r: seq<Message>)
    ensures |r| == if |Filter(Involves(me), rows)| < LoadLimit then |Filter(Involves(me), rows)| else LoadLimit
    ensures forall i, j :: 0 <= i < j < |r| ==> r[i].createdAt >= r[j].createdAt
    ensures multiset(r) <= multiset(Filter(Involves(me), rows))
  {
    var r := FirstByKey(Newest, Filter(Involves(me), rows), LoadLimit);
    assert forall i, j :: 0 <= i < j < |r| ==> Newest(r[i]) <= Newest(r[j]);
    r
  }

  /** Every loaded message was sent by or to the user. */
  lemma InitialLoadIsTheUsersMessages(rows: seq<Message>, me: UserId)
    ensures forall i :: 0 <= i < |InitialLoad(rows, me)| ==>
      InitialLoad(rows, me)[i] in rows && (InitialLoad(rows, me)[i].senderId == me || InitialLoad(rows, me)[i].receiverId == me)
  {
    var r, mine := InitialLoad(rows, me), Filter(Involves(me), rows);
    forall i | 0 <= i < |r| ensures r[i] in mine {
      assert r[i] in multiset(r);
    }
  }

  /** The load keeps the user's 100 newest messages: together with the
      messages cut off it is all of the user's messages, and every message
      cut off is no newer than any message kept. */
  lemma InitialLoadKeepsNewest(rows: seq<Message>, me: UserId)
    ensures multiset(InitialLoad(rows, me)) + multiset(RestByKey(Newest, Filter(Involves(me), rows), LoadLimit))
      == multiset(Filter(Involves(me), rows))
    ensures forall i, j :: 0 <= i < |InitialLoad(rows, me)| && 0 <= j < |RestByKey(Newest, Filter(Involves(me), rows), LoadLimit)| ==>
      InitialLoad(rows, me)[i].createdAt >= RestByKey(Newest, Filter(Involves(me), rows), LoadLimit)[j].createdAt
  {
    var mine := Filter(Involves(me), rows);
    FirstByKeyKeepsSmallest(Newest, mine, LoadLimit);
    var kept, cut := InitialLoad(rows, me), RestByKey(Newest, mine, LoadLimit);
    forall i, j | 0 <= i < |kept| && 0 <= j < |cut| ensures kept[i].createdAt >= cut[j].createdAt {
      assert Newest(kept[i]) <= Newest(cut[j]);
    }
  }

  /** The hook's state for one user (or none). */
  class MessagesView {
    const userId: Option<UserId>
    var messages: seq<Message>
    var loading: bool
    var failed: bool

    constructor (userId: Option<UserId>)
      ensures this.userId == userId && messages == [] && loading && !failed
    {
      this.userId := userId;
      messages, loading, failed := [], true, false;
    }

    /** The mount effect: with no user nothing loads and loading ends; with
        one, the newest rows of `table` involving the user are loaded. */
    method Mount(table: Outcome<seq<Message>>)
      modifies this
      ensures !loading
      ensures userId.None? ==> messages == old(messages) && failed == old(failed)
      ensures userId.Some? && table.Ok? ==> messages == InitialLoad(table.value, userId.value) && failed == old(failed)
      ensures userId.Some? && table.Err? ==> messages == old(messages) && failed
    {
      if userId.None? {
        loading := false;
        return;
      }
      loading := true;
      if table.Ok? {
        messages := InitialLoad(table.value, userId.value);
      } else {
        failed := true;
      }
      loading := false;
    }

    /** A row inserted into the messages table. The realtime channel exists
        only for a signed-in user and delivers only rows addressed to that
        user; a delivered row is put at the front. */
    method Receive(m: Message)
      modifies this`messages
      ensures userId.Some? && m.receiverId == userId.value ==> messages == [m] + old(messages)
      ensures !(userId.Some? && m.receiverId == userId.value) ==> messages == old(messages)
    {
      if userId.Some? && m.receiverId == userId.value {
        messages := [m] + messages;
      }
    }

    /** `sendMessage`: without a signed-in user `me` the call fails; otherwise
        the row is inserted with the user as sender and the given receiver,
        content and type, and the store fills in the id, the read flag and
        the creation time (`stored`). The stored row is put at the front
        and returned; a failed insert leaves the list and records the error. */
    method Send(me: Option<UserId>, receiverId: UserId, content: string, kind: MessageKind,
                stored: Outcome<(RowId, bool, int)>)
      returns (r: Outcome<Message>)
      modifies this`messages, this`failed
      ensures me.Some? && stored.Ok? ==>
        r.Ok? && r.value.senderId == me.value && r.value.receiverId == receiverId &&
        r.value.content == content && r.value.kind == kind &&
        r.value.id == stored.value.0 && r.value.isRead == stored.value.1 && r.value.createdAt == stored.value.2 &&
        messages == [r.value] + old(messages) && failed == old(failed)
      ensures me.None? || stored.Err? ==> r.Err? && messages == old(messages) && failed
    {
      if me.None? {
        failed := true;
        return Err("Not authenticated");
      }
      if stored.Err? {
        failed := true;
        return Err(stored.message);
      }
      var (id, isRead, createdAt) := stored.value;
      var m := Message(id, me.value, receiverId, content, kind, isRead, createdAt);
      messages := [m] + messages;
      r := Ok(m);
    }

    /** On a store error the list is left as it was. */
    method MarkAsRead(id: RowId, storeFails: bool)
      modifies this`messages, this`failed
      ensures storeFails ==> messages == old(messages) && failed
      ensures !storeFails ==> messages == MarkRead(old(messages), id) && failed == old(failed)
    {
      if storeFails {
        failed := true;
        return;
      }
      messages := MarkRead(messages, id);
    }
  }
}
