# WebChat chat-turn pipeline in Dafny

This project models the part of the WebChat Go backend that runs one chat turn. It also models the provider dispatch that the turn calls.

- `SendMessage` (backend/api/handlers.go) finds the caller's newest conversation, or creates one titled "新对话". It stores the user's message, then re-reads the conversation's history in `created_at` order. It converts that history to provider messages (role and content only) and keeps the last `MAX_CONTEXT_MESSAGES` (10) of them. It then asks the provider. Only when the provider succeeds does it store an assistant message with the provider's content and token count. A provider failure is answered 500 and leaves the user's message stored.
- `DeleteConversation` and `GetConversationMessages` look a conversation up by identifier *and* owner. A conversation that is missing or owned by someone else gets 404 and nothing changes.
- `GetAIResponse` (backend/services/ai.go) replaces an empty model name with "deepseek". It sends "gpt-4" and "gpt-3.5-turbo" to OpenAI and "deepseek" to Deepseek, and fails when the chosen provider's key is empty or the model is unknown. `callOpenAI` and `callDeepseek` send an OpenAI-shaped request: the OpenAI request carries the caller's model name, the Deepseek request always carries "deepseek-chat". Both read the reply the same way. A non-200 status, an undecodable body and zero choices are errors. Otherwise the answer is the first choice's content, and its token count is `usage.total_tokens`.

Layout:
- `wrappers.dfy`: `Option`.
- `ai_service.dfy` (module `AiService`): the wire types, the reading of a reply, the routing. The network is a parameter `net: HttpCall -> CallOutcome`, an oracle mapping the outbound call (endpoint, bearer key, body) to a transport failure or to a status plus a body that either decodes or does not.
- `chat_store.dfy` (module `ChatStore`): conversation and message records and the queries the handlers run. It also holds the `Store` class, whose sequence fields the handlers change in place. Identifiers auto-increment from 1. `created_at` is a logical clock advanced by every insert.
- `handlers.dfy` (module `Handlers`): the specification `Turn` of one whole turn, as a function from the old store to the new store and the reply. Also the methods `SendMessage`, `DeleteConversation` and `GetConversationMessages` acting on a `Store`. `SendMessage` is proved to leave the store and reply exactly as `Turn` says.
- `turn_properties.dfy` (module `TurnProperties`): what a turn guarantees, proved about `Turn`.

Points where the code does something other than its own comments or record declarations suggest; the model follows the code:
- Deleting a conversation. The comment at handlers.go:228 reads "删除会话及其消息" ("delete the conversation and its messages"). But conversations embed `gorm.Model`, so `db.DB.Delete(&conversation)` (handlers.go:229) is a soft delete. The conversation drops out of every later query, but its messages stay stored.
- The empty-model default. `GetAIResponse` replaces an empty model name with "deepseek" (ai.go:44-47). But the handler's model field is `binding:"required"` (handlers.go:127), so `SendMessage` answers an empty model name with 400 and never reaches that default. The default is still modelled and proved for `GetAIResponse` itself.
- Token counts. `db.Message` (db.go:75-82) declares no `TokenCount` field, yet the handler sets one (handlers.go:160, 196). The model gives the message record a non-negative `tokenCount`, as the handler uses it.

With eleven earlier messages in a conversation, the twelfth send's window holds the newest nine of them plus the new message, so the two oldest are left out (`TurnWindowShape` with `WindowAfterAppend`).

## Model

| member | source | states |
|---|---|---|
| `AiService.ReadResponse` | backend/services/ai.go:94-110 | Both providers read a reply the same way (lines 142-159 repeat it for Deepseek). A transport failure is a transport error. A non-200 status is an error carrying that status and provider. A body that does not decode is a decode error. Zero choices is an empty-response error. Success happens exactly when none of these holds, and then gives the first choice's content and `usage.total_tokens`. |
| `AiService.GetAIResponse` | backend/services/ai.go:43-65 | The routing table. "gpt-4"/"gpt-3.5-turbo" with an empty OpenAI key fail with a missing-key error. With a key they give the reply to one OpenAI call with that key, the caller's model name and the messages unchanged. ""/"deepseek" likewise go to Deepseek with model "deepseek-chat". Any other name fails as unsupported, naming the model. |
| `AiService.EmptyModelIsDefault` | backend/services/ai.go:45-47 | An empty model name gives the same result as "deepseek", for every message list, key pair and network. |
| `AiService.NoCallOnConfigurationError` | backend/services/ai.go:49-64 | A missing key for the routed provider, or an unknown model, is an error whatever the network would answer: no call is made. |
| `AiService.SuccessForwardsMessages` | backend/services/ai.go:68-160 | Models `callOpenAI` (lines 68-111) and `callDeepseek` (lines 114-160) as `CallOpenAI` and `CallDeepseek`. Every success comes from one call to the routed provider: OpenAI exactly when the model is an OpenAI model, otherwise Deepseek. The call goes to that provider's endpoint with its key. The call carries the messages unchanged under the caller's model (OpenAI) or "deepseek-chat" (Deepseek, lines 116-119). |
| `ChatStore.LatestOwned` | backend/api/handlers.go:145 | The newest-conversation query finds nothing exactly when the caller owns no conversation. Otherwise it finds a conversation the caller owns whose `created_at` is not below that of any other conversation of theirs. |
| `ChatStore.FindOwned` | backend/api/handlers.go:221-222 | The ownership-checked lookup finds a conversation exactly when one with that identifier is owned by the caller, and what it finds has that identifier and owner. |
| `ChatStore.RemoveConversation` | backend/api/handlers.go:229 | After the delete, the visible conversations are the earlier ones minus those with that identifier. Their order (identifier and time) is kept. |
| `ChatStore.History` | backend/api/handlers.go:166-167 | A conversation's history contains exactly the stored messages of that conversation. |
| `ChatStore.HistoryAppend` | backend/api/handlers.go:163-167 | Storing a message extends its own conversation's history by exactly that message, at the end. Every other history is unchanged. |
| `ChatStore.HistoryChronological` | backend/api/handlers.go:167 | In a well-formed store a history is strictly increasing in `created_at`, so store order is the `ORDER BY created_at ASC` order. |
| `ChatStore.Store.CreateConversation` | backend/api/handlers.go:148-152 | Appends one conversation with the next identifier, the clock's time, the given owner and title. Nothing else changes; the store invariant is kept. |
| `ChatStore.Store.CreateMessage` | backend/api/handlers.go:156-163 | Appends one message with the next identifier and the given fields. Nothing else changes; the store invariant is kept. |
| `ChatStore.Store.DeleteConversation` | backend/api/handlers.go:229 | Removes that conversation from the visible ones. Messages, counters and clock are unchanged. |
| `Handlers.ChatView` | backend/api/handlers.go:170-176 | The conversion of stored messages has the same length as the history. |
| `Handlers.ChatViewAt` | backend/api/handlers.go:170-176 | The i-th entry of the conversion carries exactly the i-th stored message's role and content, so order is kept and nothing else is forwarded. |
| `Handlers.ToChatMessages` | backend/api/handlers.go:170-176 | The `append` loop builds exactly that conversion. |
| `Handlers.ContextWindow` | backend/api/handlers.go:178-182 | A history of at most 10 entries is sent unchanged. A longer one is cut to exactly 10. Either way the window is the history's suffix, order preserved. |
| `Handlers.ResolveConversation` | backend/api/handlers.go:143-153 | Reuses the newest conversation or creates one, exactly as `Resolve` says. The returned conversation's identifier has been handed out. |
| `Handlers.SendMessage` | backend/api/handlers.go:134-205 | The store afterwards and the reply are exactly those of `Turn`: 400 and no change for an empty field; otherwise resolve, store the user turn, window, call, and store the assistant turn only on success. The store invariant is kept. |
| `Handlers.DeleteConversation` | backend/api/handlers.go:216-232 | Not owned (or missing): 404 with "会话不存在" and the store unchanged. Owned: 200, the conversation is no longer visible or owned, and its messages stay. |
| `Handlers.GetConversationMessages` | backend/api/handlers.go:234-251 | The status is 404 exactly when the caller owns no conversation with that identifier. Otherwise it is 200 with exactly that conversation's messages, in store order, which in a well-formed store is strictly increasing `created_at` order. |
| `TurnProperties.ResolveSpec` | backend/api/handlers.go:144-153 | When the caller owns a conversation, resolution changes nothing (no conversation is created) and returns one of the caller's existing conversations, with a strictly later `created_at` than every other of theirs. When they own none, exactly one conversation is appended: owned by them, titled "新对话", with an identifier no earlier conversation has. |
| `TurnProperties.TurnWindowShape` | backend/api/handlers.go:155-182 | The user message is stored before the history is read. So the window is the window of the earlier history followed by the new user message: it is never empty, has at most 10 entries, and ends with ("user", the request's message). |
| `TurnProperties.FirstTurnWindow` | backend/api/handlers.go:145-182 | For a caller with no conversation, the window is the new user message alone. |
| `TurnProperties.WindowAfterAppend` | backend/api/handlers.go:179-182 | Appending one entry to a history of at least 10 entries gives a window of the newest 9 earlier entries, in order, followed by the new one. Everything older is excluded. |
| `TurnProperties.WindowEndsWith` | backend/api/handlers.go:179-182 | A window taken right after appending an entry has between 1 and 10 entries and ends with that entry. |
| `TurnProperties.ChatViewAppend` | backend/api/handlers.go:170-176 | Converting a history extended by one message extends the conversion by exactly that message's role and content. |
| `TurnProperties.TurnRejectsUnboundRequest` | backend/api/handlers.go:126-141 | A request with an empty model or message is answered 400 "无效的请求参数" and the store is untouched. |
| `TurnProperties.TurnOnProviderFailure` | backend/api/handlers.go:184-189 | If the provider call fails, the reply is 500 "获取AI响应失败". Exactly one message was added: role "user", the request's content and model, token count 0, in the resolved conversation, after all earlier messages. No assistant message is added. |
| `TurnProperties.TurnOnProviderSuccess` | backend/api/handlers.go:191-204 | On success exactly two messages are added: the user message as above, then an assistant message with the provider's content, token count and the request's model, in the same conversation. The reply is 200 with that same content and token count. |
| `TurnProperties.TurnPreservesWellFormed` | backend/api/handlers.go:143-199 | Every turn keeps the store well formed: identifiers and `created_at` strictly increasing, and every message naming a conversation identifier already handed out. |
| `TurnProperties.FirstExchangeScenario` | backend/api/handlers.go:134-204 | A new caller sends "hello" with model "deepseek" and a Deepseek key. Deepseek answers "hi there" with `total_tokens` 7. The reply is 200 ("hi there", 7), and the store then holds one conversation and two messages. |

## Left out

- `Login`, `Register`, `GetCurrentUser`, `Logout` and `GetConversations` in backend/api/handlers.go. They are password hashing, token issuance and plain lookups, outside the chat-turn core.
- Request binding beyond required fields. A malformed JSON body also gets 400 in the source; the model receives already-decoded fields and checks only that the required strings are non-empty. Writing the JSON response is represented by the `Reply` value.
- Storage failures. The source ignores the result of every `db.DB.Create` in `SendMessage`; for example, a failed conversation insert leaves identifier 0 in use. In the model the store never fails.
- The `:id` path parameter is taken as a number. A non-numeric parameter makes the source's lookup fail and answer 404; that case is not modelled.
- JSON marshalling, request construction, header setting and the HTTP client (ai.go:74-92, 121-140). They are replaced by the `HttpCall` value and the network oracle. Marshalling and request construction cannot fail in the model.
- The exact error texts of ai.go. These errors never reach the client, which always sees "获取AI响应失败". They are structured `AiError` values; the status error carries the status code.
- `ReadResponse`: negative token counts in a provider's `usage` are not modelled (`Usage` holds naturals). Neither is Go's 64-bit `int` width.
- `created_at` is a logical clock that every insert advances, not wall-clock time. Equal timestamps therefore never occur. The source's tie-break among equal `created_at` values is not modelled.
- Configuration loading (backend/config/config.go): the two API keys are plain parameters. Database and Redis setup (backend/db/db.go) and server start-up (backend/main.go) are not part of this model.
- The frontend (frontend/src): network calls, local storage and UI wiring.
- The race between two concurrent first messages of one user, which can create two conversations, and the missing timeout on provider calls. Both are concurrency and real-time concerns outside a sequential model.
