/**
 * The persistence the chat handlers use: conversation and message records
 * (backend/db/db.go) and the store they live in, as the handlers query and
 * insert them.
 *
 * Record identifiers are auto-incremented from 1, per table. `created_at` is a
 * logical clock that every insert advances, so creation order and timestamp
 * order agree. Deleting a conversation is gorm's soft delete: the row drops
 * out of every query, and its messages are left where they are.
 */
module ChatStore {
  import opened Wrappers

  const UserRole := "user"
  const AssistantRole := "assistant"

  datatype Conversation = Conversation(id: nat, title: string, userId: nat, createdAt: nat)

  /** A stored turn. `tokenCount` is 0 for the user's messages and the
      provider's total for the assistant's. */
  datatype Message = Message(
    id: nat,
    role: string,
    content: string,
    modelName: string,
    tokenCount: nat,
    conversationId: nat,
    createdAt: nat)

  /** The visible contents of the store, in insertion order, with the next
      identifiers and the clock. */
  datatype StoreState = StoreState(
    conversations: seq<Conversation>,
    messages: seq<Message>,
    nextConversationId: nat,
    nextMessageId: nat,
    clock: nat)

  const EmptyStore := StoreState([], [], 1, 1, 0)

  /** Conversations in strictly increasing identifier and creation order. */
  predicate ConversationsOrdered(convs: seq<Conversation>) {
    forall i, j :: 0 <= i < j < |convs| ==> convs[i].id < convs[j].id && convs[i].createdAt < convs[j].createdAt
  }

  /** Messages in strictly increasing identifier and creation order. */
  predicate MessagesOrdered(msgs: seq<Message>) {
    forall i, j :: 0 <= i < j < |msgs| ==> msgs[i].id < msgs[j].id && msgs[i].createdAt < msgs[j].createdAt
  }

  /** The store invariant: records are ordered, every identifier and
      timestamp was handed out before, and every message names a conversation
      identifier that was handed out before. */
  predicate WellFormed(s: StoreState) {
    && ConversationsOrdered(s.conversations)
    && MessagesOrdered(s.messages)
    && (forall i :: 0 <= i < |s.conversations| ==>
          s.conversations[i].id < s.nextConversationId && s.conversations[i].createdAt < s.clock)
    && (forall i :: 0 <= i < |s.messages| ==>
          s.messages[i].id < s.nextMessageId && s.messages[i].createdAt < s.clock
          && s.messages[i].conversationId < s.nextConversationId)
  }

  /** Insert a conversation (`db.DB.Create(&conversation)`). */
  function InsertConversation(s: StoreState, title: string, userId: nat): (StoreState, Conversation) {
    var c := Conversation(s.nextConversationId, title, userId, s.clock);
    (s.(conversations := s.conversations + [c], nextConversationId := s.nextConversationId + 1, clock := s.clock + 1), c)
  }

  /** Insert a message (`db.DB.Create(&message)`). */
  function InsertMessage(s: StoreState, role: string, content: string, modelName: string, tokenCount: nat, conversationId: nat)
    : (StoreState, Message)
  {
    var m := Message(s.nextMessageId, role, content, modelName, tokenCount, conversationId, s.clock);
    (s.(messages := s.messages + [m], nextMessageId := s.nextMessageId + 1, clock := s.clock + 1), m)
  }

  lemma InsertConversationWellFormed(s: StoreState, title: string, userId: nat)
    requires WellFormed(s)
    ensures WellFormed(InsertConversation(s, title, userId).0)
  {
  }

  lemma InsertMessageWellFormed(s: StoreState, role: string, content: string, modelName: string, tokenCount: nat, conversationId: nat)
    requires WellFormed(s)
    requires conversationId < s.nextConversationId
    ensures WellFormed(InsertMessage(s, role, content, modelName, tokenCount, conversationId).0)
  {
  }

  /** The conversation `WHERE user_id = ? ORDER BY created_at DESC` yields
      first: one of the user's with no later creation time, or nothing when
      the user owns none. */
  function LatestOwned(convs: seq<Conversation>, userId: nat): (r: Option<Conversation>)
    ensures r.None? <==> forall i :: 0 <= i < |convs| ==> convs[i].userId != userId
    ensures r.Some? ==> r.value in convs && r.value.userId == userId
    ensures r.Some? ==> forall i :: 0 <= i < |convs| && convs[i].userId == userId ==> convs[i].createdAt <= r.value.createdAt
  {
    if convs == [] then None
    else
      var last := convs[|convs| - 1];
      var earlier := LatestOwned(convs[..|convs| - 1], userId);
      if last.userId != userId then earlier
      else if earlier.Some? && earlier.value.createdAt > last.createdAt then earlier
      else Some(last)
  }

  /** The user owns a visible conversation with this identifier. */
  predicate OwnedBy(convs: seq<Conversation>, id: nat, userId: nat) {
    exists i :: 0 <= i < |convs| && convs[i].id == id && convs[i].userId == userId
  }

  /** The ownership-checked lookup `WHERE id = ? AND user_id = ?`. */
  function FindOwned(convs: seq<Conversation>, id: nat, userId: nat): (r: Option<Conversation>)
    ensures r.Some? <==> OwnedBy(convs, id, userId)
    ensures r.Some? ==> r.value in convs && r.value.id == id && r.value.userId == userId
  {
    if convs == [] then None
    else if convs[0].id == id && convs[0].userId == userId then Some(convs[0])
    else
      var r := FindOwned(convs[1..], id, userId);
      assert OwnedBy(convs[1..], id, userId) ==> OwnedBy(convs, id, userId) by {
        if OwnedBy(convs[1..], id, userId) {
          var i :| 0 <= i < |convs[1..]| && convs[1..][i].id == id && convs[1..][i].userId == userId;
          assert convs[i + 1] == convs[1..][i];
        }
      }
      r
  }

  /** Soft delete of conversation `id`: it leaves every query; the order of the
      rest is kept. */
  function RemoveConversation(convs: seq<Conversation>, id: nat): (r: seq<Conversation>)
    ensures |r| <= |convs|
    ensures forall c :: c in r <==> c in convs && c.id != id
    ensures ConversationsOrdered(convs) ==> ConversationsOrdered(r)
  {
    if convs == [] then []
    else
      var rest := RemoveConversation(convs[1..], id);
      assert ConversationsOrdered(convs) ==> ConversationsOrdered(convs[1..]);
      if convs[0].id == id then rest
      else
        assert ConversationsOrdered(convs) ==> forall c :: c in rest ==> convs[0].id < c.id && convs[0].createdAt < c.createdAt;
        [convs[0]] + rest
  }

  /** The messages of one conversation, `ORDER BY created_at ASC`: the
      store's messages with that conversation identifier, in store order. */
  function History(msgs: seq<Message>, conversationId: nat): (h: seq<Message>)
    ensures |h| <= |msgs|
    ensures forall m :: m in h <==> m in msgs && m.conversationId == conversationId
  {
    if msgs == [] then []
    else (if msgs[0].conversationId == conversationId then [msgs[0]] else []) + History(msgs[1..], conversationId)
  }

  /** Storing a message extends its own conversation's history by exactly that
      message, at the end, and leaves every other history alone. */
  lemma {:induction false} HistoryAppend(msgs: seq<Message>, m: Message, conversationId: nat)
    ensures History(msgs + [m], conversationId)
            == History(msgs, conversationId) + (if m.conversationId == conversationId then [m] else [])
  {
    if msgs == [] {
      assert msgs + [m] == [m];
    } else {
      assert (msgs + [m])[0] == msgs[0];
      assert (msgs + [m])[1..] == msgs[1..] + [m];
      HistoryAppend(msgs[1..], m, conversationId);
    }
  }

  /** Store order is timestamp order: the history of a well-formed store is
      strictly increasing in `created_at`, so it is the ascending query's answer. */
  lemma {:induction false} HistoryChronological(msgs: seq<Message>, conversationId: nat)
    requires MessagesOrdered(msgs)
    ensures MessagesOrdered(History(msgs, conversationId))
  {
    if msgs != [] {
      assert MessagesOrdered(msgs[1..]);
      HistoryChronological(msgs[1..], conversationId);
      var rest := History(msgs[1..], conversationId);
      forall m | m in rest
        ensures msgs[0].id < m.id && msgs[0].createdAt < m.createdAt
      {
        var k :| 0 <= k < |msgs[1..]| && msgs[1..][k] == m;
        assert msgs[k + 1] == m;
      }
    }
  }

  /** A conversation identifier no message carries has an empty history. */
  lemma HistoryOfUnused(msgs: seq<Message>, conversationId: nat)
    requires forall i :: 0 <= i < |msgs| ==> msgs[i].conversationId != conversationId
    ensures History(msgs, conversationId) == []
  {
  }

  /** The store, updated in place by the handlers. */
  class Store {
    var conversations: seq<Conversation>
    var messages: seq<Message>
    var nextConversationId: nat
    var nextMessageId: nat
    var clock: nat

    function State(): StoreState
      reads this
    {
      StoreState(conversations, messages, nextConversationId, nextMessageId, clock)
    }

    predicate Valid()
      reads this
    {
      WellFormed(State())
    }

    constructor ()
      ensures Valid() && State() == EmptyStore
    {
      conversations, messages := [], [];
      nextConversationId, nextMessageId, clock := 1, 1, 0;
    }

    method CreateConversation(title: string, userId: nat) returns (c: Conversation)
      requires Valid()
      modifies this
      ensures Valid()
      ensures (State(), c) == InsertConversation(old(State()), title, userId)
    {
      c := Conversation(nextConversationId, title, userId, clock);
      conversations := conversations + [c];
      nextConversationId := nextConversationId + 1;
      clock := clock + 1;
    }

    method CreateMessage(role: string, content: string, modelName: string, tokenCount: nat, conversationId: nat)
      returns (m: Message)
      requires Valid()
      requires conversationId < nextConversationId
      modifies this
      ensures Valid()
      ensures (State(), m) == InsertMessage(old(State()), role, content, modelName, tokenCount, conversationId)
    {
      m := Message(nextMessageId, role, content, modelName, tokenCount, conversationId, clock);
      messages := messages + [m];
      nextMessageId := nextMessageId + 1;
      clock := clock + 1;
    }

    method DeleteConversation(id: nat)
      requires Valid()
      modifies this
      ensures Valid()
      ensures State() == old(State()).(conversations := RemoveConversation(old(conversations), id))
    {
      conversations := RemoveConversation(conversations, id);
    }
  }
}
