/**
 * lib/chat.ts: the message log kept under "vozes_chat", one conversation view per user,
 * and the read flags.
 */
module Chat {

  import opened Records
  import opened Storage
  import opened Sorting

  const ChatKey: string := "vozes_chat"

  /** The whole stored log, or none. */
  function StoredMessages(st: LocalStorage): seq<ChatMessage>
    reads st
  {
    if ChatKey in st.items && st.items[ChatKey].MessageList? then st.items[ChatKey].messages else []
  }

  /** The user sent or receives the message. */
  predicate Involves(m: ChatMessage, userId: string)
  {
    m.senderId == userId || m.recipientId == userId
  }

  /** `allMessages.filter((m) => m.senderId === userId || m.recipientId === userId)`. */
  function MessagesOf(all: seq<ChatMessage>, userId: string): (r: seq<ChatMessage>)
    ensures forall m :: m in r <==> m in all && Involves(m, userId)
  {
    if all == [] then []
    else (if Involves(all[0], userId) then [all[0]] else []) + MessagesOf(all[1..], userId)
  }

  /** The comparator of the conversation sort: earlier timestamps first. */
  predicate NotLater(a: ChatMessage, b: ChatMessage)
  {
    a.timestamp <= b.timestamp
  }

  lemma NotLaterIsTotalPreorder()
    ensures TotalPreorder(NotLater)
  {
  }

  /**
   * `getChatMessages`: the messages the user sent or receives, oldest first; a permutation
   * of the filtered log.
   */
  function GetChatMessages(st: LocalStorage, userId: string): (r: seq<ChatMessage>)
    reads st
    ensures multiset(r) == multiset(MessagesOf(StoredMessages(st), userId))
    ensures forall m :: m in r <==> m in StoredMessages(st) && Involves(m, userId)
    ensures forall i, j :: 0 <= i < j < |r| ==> r[i].timestamp <= r[j].timestamp
  {
    NotLaterIsTotalPreorder();
    var r := SortBy(MessagesOf(StoredMessages(st), userId), NotLater);
    assert forall m :: m in r <==> m in multiset(r);
    r
  }

  /** `sendChatMessage`: exactly one message is appended to the log. */
  method SendChatMessage(st: LocalStorage, message: ChatMessage)
    requires st.Valid()
    modifies st
    ensures st.Valid()
    ensures StoredMessages(st) == old(StoredMessages(st)) + [message]
    ensures st.items == old(st.items)[ChatKey := MessageList(StoredMessages(st))]
  {
    var allMessages := StoredMessages(st);
    allMessages := allMessages + [message];
    st.SetItem(ChatKey, MessageList(allMessages));
  }

  /** The message as `markMessagesAsRead(userId, senderId)` leaves it. */
  function MarkOne(m: ChatMessage, userId: string, senderId: string): (r: ChatMessage)
    ensures r == m.(read := r.read)
    ensures r.read <==> m.read || (m.recipientId == userId && m.senderId == senderId)
  {
    if m.recipientId == userId && m.senderId == senderId then m.(read := true) else m
  }

  /** The log after the read flags of the messages from `senderId` to `userId` are set. */
  function MarkedRead(all: seq<ChatMessage>, userId: string, senderId: string): (r: seq<ChatMessage>)
    ensures |r| == |all|
  {
    seq(|all|, i requires 0 <= i < |all| => MarkOne(all[i], userId, senderId))
  }

  /**
   * `markMessagesAsRead`: with a stored log, every message from `senderId` to `userId` is marked
   * read in place and the log written back; with none, nothing happens.
   */
  method MarkMessagesAsRead(st: LocalStorage, userId: string, senderId: string)
    requires st.Valid()
    modifies st
    ensures st.Valid()
    ensures ChatKey !in old(st.items) ==> st.items == old(st.items) && st.keys == old(st.keys)
    ensures ChatKey in old(st.items) ==>
              st.items == old(st.items)[ChatKey := MessageList(MarkedRead(old(StoredMessages(st)), userId, senderId))]
  {
    if ChatKey in st.items {
      var allMessages := StoredMessages(st);
      ghost var before := allMessages;
      for i := 0 to |allMessages|
        invariant |allMessages| == |before|
        invariant forall j :: 0 <= j < i ==> allMessages[j] == MarkOne(before[j], userId, senderId)
        invariant forall j :: i <= j < |before| ==> allMessages[j] == before[j]
      {
        var msg := allMessages[i];
        if msg.recipientId == userId && msg.senderId == senderId {
          allMessages := allMessages[i := msg.(read := true)];
        }
      }
      assert allMessages == MarkedRead(before, userId, senderId);
      st.SetItem(ChatKey, MessageList(allMessages));
    }
  }

  /**
   * Marking sets the flag on exactly the messages from `senderId` to `userId`, keeps their
   * order, and changes no other message and no other field.
   */
  lemma MarkedReadSpec(all: seq<ChatMessage>, userId: string, senderId: string)
    ensures var r := MarkedRead(all, userId, senderId);
            forall i :: 0 <= i < |all| ==>
              && r[i] == all[i].(read := r[i].read)
              && (r[i].read <==> all[i].read || (all[i].recipientId == userId && all[i].senderId == senderId))
  {
  }

  /** Marking twice is marking once. */
  lemma MarkedReadIdempotent(all: seq<ChatMessage>, userId: string, senderId: string)
    ensures MarkedRead(MarkedRead(all, userId, senderId), userId, senderId) == MarkedRead(all, userId, senderId)
  {
    var once := MarkedRead(all, userId, senderId);
    var twice := MarkedRead(once, userId, senderId);
    assert forall i :: 0 <= i < |all| ==> twice[i] == once[i];
  }

  /** Marking a log piece by piece is marking it whole. */
  lemma MarkedReadAppend(a: seq<ChatMessage>, b: seq<ChatMessage>, userId: string, senderId: string)
    ensures MarkedRead(a + b, userId, senderId) == MarkedRead(a, userId, senderId) + MarkedRead(b, userId, senderId)
  {
    var whole := MarkedRead(a + b, userId, senderId);
    var parts := MarkedRead(a, userId, senderId) + MarkedRead(b, userId, senderId);
    assert forall i :: 0 <= i < |whole| ==> whole[i] == parts[i];
  }

  /**
   * Marking does not change who takes part in which message: any viewer's conversation list after
   * marking is that list before marking, marked the same way, so no conversation gains or loses
   * a message and the order is kept.
   */
  lemma {:induction false} MarkedReadKeepsConversations(all: seq<ChatMessage>, userId: string, senderId: string, viewer: string)
    ensures MessagesOf(MarkedRead(all, userId, senderId), viewer) == MarkedRead(MessagesOf(all, viewer), userId, senderId)
    ensures |MessagesOf(MarkedRead(all, userId, senderId), viewer)| == |MessagesOf(all, viewer)|
    decreases |all|
  {
    if all != [] {
      var r := MarkedRead(all, userId, senderId);
      assert r[1..] == MarkedRead(all[1..], userId, senderId);
      MarkedReadKeepsConversations(all[1..], userId, senderId, viewer);
      var head := if Involves(all[0], viewer) then [all[0]] else [];
      assert MessagesOf(all, viewer) == head + MessagesOf(all[1..], viewer);
      MarkedReadAppend(head, MessagesOf(all[1..], viewer), userId, senderId);
      assert Involves(r[0], viewer) == Involves(all[0], viewer);
      assert MarkedRead(head, userId, senderId) == if Involves(r[0], viewer) then [r[0]] else [];
    }
  }
}
