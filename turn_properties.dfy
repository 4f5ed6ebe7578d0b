/**
 * What one chat turn guarantees, stated over the `Turn` specification that
 * `Handlers.SendMessage` is proved to implement.
 */
module TurnProperties {
  import opened Wrappers
  import opened AiService
  import opened ChatStore
  import opened Handlers

  /** Resolution reuses the caller's newest conversation and changes nothing;
      a caller without one gets exactly one new conversation, owned by them,
      with the default title and a fresh identifier. */
  lemma ResolveSpec(s: StoreState, userId: nat)
    requires WellFormed(s)
    ensures var (s1, conv) := Resolve(s, userId);
            && WellFormed(s1)
            && conv.id < s1.nextConversationId
            && s1.messages == s.messages
            && conv.userId == userId
            && conv in s1.conversations
    ensures var (s1, conv) := Resolve(s, userId);
            (exists i :: 0 <= i < |s.conversations| && s.conversations[i].userId == userId) ==>
              && s1 == s
              && conv in s.conversations
              && (forall i :: 0 <= i < |s.conversations| && s.conversations[i].userId == userId && s.conversations[i] != conv ==>
                    s.conversations[i].createdAt < conv.createdAt)
    ensures var (s1, conv) := Resolve(s, userId);
            (forall i :: 0 <= i < |s.conversations| ==> s.conversations[i].userId != userId) ==>
              && s1.conversations == s.conversations + [conv]
              && conv.title == DefaultTitle
              && (forall i :: 0 <= i < |s.conversations| ==> s.conversations[i].id != conv.id)
  {
    var (s1, conv) := Resolve(s, userId);
    match LatestOwned(s.conversations, userId)
    case Some(c) =>
      var k :| 0 <= k < |s.conversations| && s.conversations[k] == c;
      assert OwnedBy(s.conversations, c.id, userId);
      forall i | 0 <= i < |s.conversations| && s.conversations[i].userId == userId && s.conversations[i] != c
        ensures s.conversations[i].createdAt < c.createdAt
      {
        assert i != k;
      }
    case None =>
      InsertConversationWellFormed(s, DefaultTitle, userId);
  }

  /** Converting a history extended by one message extends the conversion
      by that message's role and content. */
  lemma {:induction false} ChatViewAppend(h: seq<Message>, m: Message)
    ensures ChatView(h + [m]) == ChatView(h) + [ChatMessage(m.role, m.content)]
  {
    if h != [] {
      assert (h + [m])[1..] == h[1..] + [m];
      ChatViewAppend(h[1..], m);
    }
  }

  /** A window taken right after appending `x` is never empty, never longer
      than `MaxContextMessages`, and ends with `x`. */
  lemma WindowEndsWith<T>(h: seq<T>, x: T)
    ensures var w := ContextWindow(h + [x]);
            && 1 <= |w| <= MaxContextMessages
            && w[|w| - 1] == x
  {
  }

  /** The window always ends with the message just sent and is never empty:
      it is the window of the conversation's earlier history followed by the
      new user message. */
  lemma TurnWindowShape(s: StoreState, userId: nat, req: SendMessageRequest)
    ensures TurnWindow(s, userId, req)
            == ContextWindow(ChatView(History(s.messages, Resolve(s, userId).1.id)) + [ChatMessage(UserRole, req.message)])
    ensures var w := TurnWindow(s, userId, req);
            && 1 <= |w| <= MaxContextMessages
            && w[|w| - 1] == ChatMessage(UserRole, req.message)
  {
    var (s1, conv) := Resolve(s, userId);
    assert s1.messages == s.messages;
    var (s2, m) := InsertMessage(s1, UserRole, req.message, req.model, 0, conv.id);
    var h := History(s.messages, conv.id);
    var u := ChatMessage(UserRole, req.message);
    HistoryAppend(s.messages, m, conv.id);
    ChatViewAppend(h, m);
    assert ChatView(History(s2.messages, conv.id)) == ChatView(h) + [u];
    WindowEndsWith(ChatView(h), u);
  }

  /** First message of a caller who has no conversation: the window is that
      message alone. */
  lemma FirstTurnWindow(s: StoreState, userId: nat, req: SendMessageRequest)
    requires WellFormed(s)
    requires forall i :: 0 <= i < |s.conversations| ==> s.conversations[i].userId != userId
    ensures TurnWindow(s, userId, req) == [ChatMessage(UserRole, req.message)]
  {
    TurnWindowShape(s, userId, req);
    var (_, conv) := Resolve(s, userId);
    assert conv.id == s.nextConversationId;
    HistoryOfUnused(s.messages, conv.id);
  }

  /** Appending to a history that already fills the window drops its oldest
      entries so that exactly `MaxContextMessages` remain: the newest
      `MaxContextMessages - 1` earlier entries, in order, then the new one.
      With `TurnWindowShape` this is the window of a turn in a conversation
      that already holds at least `MaxContextMessages` messages. */
  lemma WindowAfterAppend<T>(h: seq<T>, x: T)
    requires |h| >= MaxContextMessages
    ensures ContextWindow(h + [x]) == h[|h| - (MaxContextMessages - 1)..] + [x]
  {
    var k := |h| - (MaxContextMessages - 1);
    assert ContextWindow(h + [x]) == (h + [x])[k..];
    assert (h + [x])[k..] == h[k..] + [x];
  }

  /** A request that fails binding is answered 400 and changes nothing. */
  lemma TurnRejectsUnboundRequest(s: StoreState, userId: nat, req: SendMessageRequest, keys: ApiKeys, net: Network)
    requires !RequestBinds(req)
    ensures Turn(s, userId, req, keys, net) == (s, Reply(StatusBadRequest, ErrorBody(InvalidRequestError)))
  {
  }

  /** The user's message as stored: role "user", the request's content and
      model name, token count 0, in the resolved conversation, after every
      earlier message. */
  predicate StoredUserMessage(s: StoreState, s2: StoreState, userId: nat, req: SendMessageRequest) {
    var (_, conv) := Resolve(s, userId);
    && |s2.messages| > |s.messages|
    && s2.messages[..|s.messages|] == s.messages
    && var m := s2.messages[|s.messages|];
       m.role == UserRole && m.content == req.message && m.modelName == req.model
       && m.tokenCount == 0 && m.conversationId == conv.id
  }

  /** A failed provider call is answered 500; the user's message stays stored
      and no assistant message is added. */
  lemma TurnOnProviderFailure(s: StoreState, userId: nat, req: SendMessageRequest, keys: ApiKeys, net: Network)
    requires RequestBinds(req)
    requires GetAIResponse(req.model, TurnWindow(s, userId, req), keys, net).Err?
    ensures var (s2, reply) := Turn(s, userId, req, keys, net);
            && reply == Reply(StatusInternalServerError, ErrorBody(AiFailureError))
            && |s2.messages| == |s.messages| + 1
            && StoredUserMessage(s, s2, userId, req)
            && s2.conversations == Resolve(s, userId).0.conversations
  {
  }

  /** A successful turn adds exactly two messages, the user's and then the
      assistant's with the provider's content and token count, and answers 200
      with that same content and count. */
  lemma TurnOnProviderSuccess(s: StoreState, userId: nat, req: SendMessageRequest, keys: ApiKeys, net: Network)
    requires RequestBinds(req)
    requires GetAIResponse(req.model, TurnWindow(s, userId, req), keys, net).Ok?
    ensures var resp := GetAIResponse(req.model, TurnWindow(s, userId, req), keys, net).response;
            var (s3, reply) := Turn(s, userId, req, keys, net);
            && reply == Reply(StatusOKReply, CompletionBody(resp.content, resp.tokenCount))
            && |s3.messages| == |s.messages| + 2
            && StoredUserMessage(s, s3, userId, req)
            && s3.conversations == Resolve(s, userId).0.conversations
            && s3.messages[|s.messages| + 1].role == AssistantRole
            && s3.messages[|s.messages| + 1].content == resp.content
            && s3.messages[|s.messages| + 1].tokenCount == resp.tokenCount
            && s3.messages[|s.messages| + 1].modelName == req.model
            && s3.messages[|s.messages| + 1].conversationId == Resolve(s, userId).1.id
  {
  }

  /** Every turn keeps the store well formed. */
  lemma TurnPreservesWellFormed(s: StoreState, userId: nat, req: SendMessageRequest, keys: ApiKeys, net: Network)
    requires WellFormed(s)
    ensures WellFormed(Turn(s, userId, req, keys, net).0)
  {
    if RequestBinds(req) {
      ResolveSpec(s, userId);
      var (s1, conv) := Resolve(s, userId);
      InsertMessageWellFormed(s1, UserRole, req.message, req.model, 0, conv.id);
      var (s2, _) := InsertMessage(s1, UserRole, req.message, req.model, 0, conv.id);
      match GetAIResponse(req.model, TurnWindow(s, userId, req), keys, net)
      case Err(_) =>
      case Ok(resp) =>
        InsertMessageWellFormed(s2, AssistantRole, resp.content, req.model, resp.tokenCount, conv.id);
    }
  }

  /** The first exchange of a new caller: "hello" to a configured Deepseek
      whose answer to that request is "hi there" with 7 tokens yields that
      answer, one conversation and two messages. */
  lemma FirstExchangeScenario(net: Network)
    requires net(DeepseekCall([ChatMessage(UserRole, "hello")], "key"))
             == Received(200, Some(OpenAIResponse([Choice("hi there")], Usage(3, 4, 7))))
    ensures var (s, reply) := Turn(EmptyStore, 1, SendMessageRequest("deepseek", "hello"), ApiKeys("", "key"), net);
            && reply == Reply(StatusOKReply, CompletionBody("hi there", 7))
            && |s.conversations| == 1
            && |s.messages| == 2
  {
    var req := SendMessageRequest("deepseek", "hello");
    var keys := ApiKeys("", "key");
    FirstTurnWindow(EmptyStore, 1, req);
    var w := TurnWindow(EmptyStore, 1, req);
    assert w == [ChatMessage(UserRole, "hello")];
    assert GetAIResponse(req.model, w, keys, net) == Ok(AIResponse("hi there", 7));
    TurnOnProviderSuccess(EmptyStore, 1, req, keys, net);
    ResolveSpec(EmptyStore, 1);
  }
}
