/**
 * The chat handlers of backend/api/handlers.go: one chat turn (`SendMessage`)
 * and the two ownership-checked conversation operations.
 *
 * A turn resolves the caller's newest conversation (creating one if there is
 * none), stores the user's message, re-reads the conversation's history,
 * converts it to provider messages, keeps the last `MaxContextMessages` of
 * them, asks the provider, and stores the assistant's reply only when the
 * provider succeeded. `Turn` states the whole effect of one turn on the store
 * and the reply; `SendMessage` performs it step by step on a `Store`.
 */
module Handlers {
  import opened Wrappers
  import opened AiService
  import opened ChatStore

  const MaxContextMessages := 10
  const DefaultTitle := "新对话"

  const StatusBadRequest := 400
  const StatusNotFound := 404
  const StatusOKReply := 200
  const StatusInternalServerError := 500

  const InvalidRequestError := "无效的请求参数"
  const AiFailureError := "获取AI响应失败"
  const NotFoundError := "会话不存在"
  const DeletedNotice := "会话已删除"

  /** The JSON body of a send: both fields are `binding:"required"`. */
  datatype SendMessageRequest = SendMessageRequest(model: string, message: string)

  datatype ReplyBody =
    | ErrorBody(error: string)
    | CompletionBody(content: string, tokenCount: nat)
    | NoticeBody(message: string)
    | MessagesBody(messages: seq<Message>)

  /** An HTTP status with its JSON body. */
  datatype Reply = Reply(status: nat, body: ReplyBody)

  /** Request binding succeeds: a required string field is rejected when empty. */
  predicate RequestBinds(req: SendMessageRequest) {
    req.model != "" && req.message != ""
  }

  /** The stored messages as provider messages: same length, same order, role
      and content only (entry by entry: `ChatViewAt`). */
  function ChatView(msgs: seq<Message>): (chat: seq<ChatMessage>)
    ensures |chat| == |msgs|
  {
    if msgs == [] then []
    else [ChatMessage(msgs[0].role, msgs[0].content)] + ChatView(msgs[1..])
  }

  /** Entry `i` of the conversion carries exactly message `i`'s role and content. */
  lemma {:induction false} ChatViewAt(msgs: seq<Message>, i: nat)
    requires i < |msgs|
    ensures ChatView(msgs)[i] == ChatMessage(msgs[i].role, msgs[i].content)
  {
    if i > 0 {
      ChatViewAt(msgs[1..], i - 1);
    }
  }

  /** The context window: the whole history when it has at most
      `MaxContextMessages` entries, otherwise exactly the last
      `MaxContextMessages` of them; order is kept either way. */
  function ContextWindow<T>(history: seq<T>): (w: seq<T>)
    ensures |history| <= MaxContextMessages ==> w == history
    ensures |history| > MaxContextMessages ==> |w| == MaxContextMessages
    ensures forall i :: 0 <= i < |w| ==> w[i] == history[|history| - |w| + i]
  {
    if |history| > MaxContextMessages then history[|history| - MaxContextMessages..] else history
  }

  /** Conversation resolution: the caller's newest conversation, or a new
      one with the default title when the caller has none. */
  function Resolve(s: StoreState, userId: nat): (StoreState, Conversation) {
    match LatestOwned(s.conversations, userId)
    case Some(c) => (s, c)
    case None => InsertConversation(s, DefaultTitle, userId)
  }

  /** The store after resolution and the stored user message, with the
      conversation and that message. */
  function RecordUserTurn(s: StoreState, userId: nat, req: SendMessageRequest): (StoreState, Conversation, Message) {
    var (s1, conv) := Resolve(s, userId);
    var (s2, m) := InsertMessage(s1, UserRole, req.message, req.model, 0, conv.id);
    (s2, conv, m)
  }

  /** The messages a turn hands to the provider. */
  function TurnWindow(s: StoreState, userId: nat, req: SendMessageRequest): seq<ChatMessage> {
    var (s2, conv, _) := RecordUserTurn(s, userId, req);
    ContextWindow(ChatView(History(s2.messages, conv.id)))
  }

  /** One whole turn: the store afterwards and the reply. */
  function Turn(s: StoreState, userId: nat, req: SendMessageRequest, keys: ApiKeys, net: Network): (StoreState, Reply) {
    if !RequestBinds(req) then (s, Reply(StatusBadRequest, ErrorBody(InvalidRequestError)))
    else
      var (s2, conv, _) := RecordUserTurn(s, userId, req);
      match GetAIResponse(req.model, TurnWindow(s, userId, req), keys, net)
      case Err(_) => (s2, Reply(StatusInternalServerError, ErrorBody(AiFailureError)))
      case Ok(resp) =>
        var (s3, _) := InsertMessage(s2, AssistantRole, resp.content, req.model, resp.tokenCount, conv.id);
        (s3, Reply(StatusOKReply, CompletionBody(resp.content, resp.tokenCount)))
  }

  /** Find the caller's newest conversation, or create one. */
  method ResolveConversation(store: Store, userId: nat) returns (conv: Conversation)
    requires store.Valid()
    modifies store
    ensures store.Valid()
    ensures (store.State(), conv) == Resolve(old(store.State()), userId)
    ensures conv.id < store.nextConversationId
  {
    var latest := LatestOwned(store.conversations, userId);
    if latest.Some? {
      conv := latest.value;
      ghost var k :| 0 <= k < |store.conversations| && store.conversations[k] == conv;
    } else {
      conv := store.CreateConversation(DefaultTitle, userId);
    }
  }

  /** The conversion loop: one provider message per stored message. */
  method ToChatMessages(msgs: seq<Message>) returns (chat: seq<ChatMessage>)
    ensures chat == ChatView(msgs)
  {
    chat := [];
    for i := 0 to |msgs|
      invariant |chat| == i
      invariant forall j :: 0 <= j < i ==> chat[j] == ChatMessage(msgs[j].role, msgs[j].content)
    {
      chat := chat + [ChatMessage(msgs[i].role, msgs[i].content)];
    }
    forall j | 0 <= j < |msgs|
      ensures chat[j] == ChatView(msgs)[j]
    {
      ChatViewAt(msgs, j);
    }
  }

  /** One chat turn, performed on the store. */
  method SendMessage(store: Store, userId: nat, req: SendMessageRequest, keys: ApiKeys, net: Network)
    returns (reply: Reply)
    requires store.Valid()
    modifies store
    ensures store.Valid()
    ensures (store.State(), reply) == Turn(old(store.State()), userId, req, keys, net)
  {
    if req.model == "" || req.message == "" {
      return Reply(StatusBadRequest, ErrorBody(InvalidRequestError));
    }
    ghost var before := store.State();
    var conversation := ResolveConversation(store, userId);
    var userMessage := store.CreateMessage(UserRole, req.message, req.model, 0, conversation.id);
    assert (store.State(), conversation, userMessage) == RecordUserTurn(before, userId, req);

    var history := History(store.messages, conversation.id);
    var chatMessages := ToChatMessages(history);
    if |chatMessages| > MaxContextMessages {
      chatMessages := chatMessages[|chatMessages| - MaxContextMessages..];
    }
    assert chatMessages == ContextWindow(ChatView(history)) == TurnWindow(before, userId, req);

    var response := GetAIResponse(req.model, chatMessages, keys, net);
    if response.Err? {
      return Reply(StatusInternalServerError, ErrorBody(AiFailureError));
    }
    var aiMessage := store.CreateMessage(AssistantRole, response.response.content, req.model,
                                         response.response.tokenCount, conversation.id);
    reply := Reply(StatusOKReply, CompletionBody(response.response.content, response.response.tokenCount));
  }

  /** Delete a conversation the caller owns; anything else is 404 and changes nothing. */
  method DeleteConversation(store: Store, userId: nat, conversationId: nat) returns (reply: Reply)
    requires store.Valid()
    modifies store
    ensures store.Valid()
    ensures !OwnedBy(old(store.conversations), conversationId, userId) ==>
              reply == Reply(StatusNotFound, ErrorBody(NotFoundError)) && store.State() == old(store.State())
    ensures OwnedBy(old(store.conversations), conversationId, userId) ==>
              && reply == Reply(StatusOKReply, NoticeBody(DeletedNotice))
              && store.State() == old(store.State()).(conversations := RemoveConversation(old(store.conversations), conversationId))
              && !OwnedBy(store.conversations, conversationId, userId)
              && store.messages == old(store.messages)
  {
    var conversation := FindOwned(store.conversations, conversationId, userId);
    if conversation.None? {
      return Reply(StatusNotFound, ErrorBody(NotFoundError));
    }
    store.DeleteConversation(conversation.value.id);
    reply := Reply(StatusOKReply, NoticeBody(DeletedNotice));
  }

  /** Read the history of a conversation the caller owns; anything else is 404. */
  method GetConversationMessages(store: Store, userId: nat, conversationId: nat) returns (reply: Reply)
    requires store.Valid()
    ensures reply.status == StatusNotFound <==> !OwnedBy(store.conversations, conversationId, userId)
    ensures !OwnedBy(store.conversations, conversationId, userId) ==> reply.body == ErrorBody(NotFoundError)
    ensures OwnedBy(store.conversations, conversationId, userId) ==>
              && reply.status == StatusOKReply
              && reply.body.MessagesBody?
              && (forall m :: m in reply.body.messages <==> m in store.messages && m.conversationId == conversationId)
              && reply.body.messages == History(store.messages, conversationId)
              && MessagesOrdered(reply.body.messages)
  {
    var conversation := FindOwned(store.conversations, conversationId, userId);
    if conversation.None? {
      return Reply(StatusNotFound, ErrorBody(NotFoundError));
    }
    HistoryChronological(store.messages, conversationId);
    reply := Reply(StatusOKReply, MessagesBody(History(store.messages, conversation.value.id)));
  }
}
