/**
 * Provider dispatch of the chat backend (backend/services/ai.go): the model
 * name is defaulted, the credential for the chosen provider is checked, an
 * OpenAI-shaped chat-completions request is built and the provider's reply is
 * turned into either an answer with a token count or an error.
 *
 * The network is an oracle: a total function from the outbound call (endpoint,
 * bearer credential, request body) to what came back, so that every property
 * below holds whatever the provider does.
 */
module AiService {
  import opened Wrappers

  /** One entry of the list sent to a provider: role and content, nothing else. */
  datatype ChatMessage = ChatMessage(role: string, content: string)

  /** Body of a chat-completions request; the Deepseek call reuses this shape. */
  datatype ChatRequest = ChatRequest(model: string, messages: seq<ChatMessage>)

  datatype Provider = OpenAI | Deepseek

  /** An outbound POST: endpoint, bearer credential, JSON body. */
  datatype HttpCall = HttpCall(url: string, bearer: string, body: ChatRequest)

  /** `choices[k].message.content` of a reply. */
  datatype Choice = Choice(content: string)

  datatype Usage = Usage(promptTokens: nat, completionTokens: nat, totalTokens: nat)

  /** A decoded reply body; both providers are read with this one shape. */
  datatype OpenAIResponse = OpenAIResponse(choices: seq<Choice>, usage: Usage)

  /** What one call gives back: a transport failure, or a status and a body that
      either decodes (Some) or does not (None). */
  datatype CallOutcome =
    | TransportFailure
    | Received(status: int, body: Option<OpenAIResponse>)

  type Network = HttpCall -> CallOutcome

  /** The two credentials read from the configuration. */
  datatype ApiKeys = ApiKeys(openAI: string, deepseek: string)

  /** The normalised answer: content and provider-reported total token count. */
  datatype AIResponse = AIResponse(content: string, tokenCount: nat)

  datatype AiError =
    | MissingApiKey(provider: Provider)
    | UnsupportedModel(model: string)
    | TransportError
    | StatusError(provider: Provider, status: int)
    | DecodeError
    | EmptyResponse(provider: Provider)

  datatype AiResult = Ok(response: AIResponse) | Err(error: AiError)

  const DefaultModel := "deepseek"
  const DeepseekModel := "deepseek-chat"
  const StatusOK := 200
  const OpenAIUrl := "https://api.openai.com/v1/chat/completions"
  const DeepseekUrl := "https://api.deepseek.com/v1/chat/completions"

  predicate IsOpenAIModel(model: string) {
    model == "gpt-4" || model == "gpt-3.5-turbo"
  }

  /** Model identifiers routed to Deepseek once the default is applied. */
  predicate IsDeepseekModel(model: string) {
    model == "" || model == DefaultModel
  }

  /** The request callOpenAI sends: the caller's model name and the messages as given. */
  function OpenAICall(model: string, messages: seq<ChatMessage>, key: string): HttpCall {
    HttpCall(OpenAIUrl, key, ChatRequest(model, messages))
  }

  /** The request callDeepseek sends: always the Deepseek model name, the messages as given. */
  function DeepseekCall(messages: seq<ChatMessage>, key: string): HttpCall {
    HttpCall(DeepseekUrl, key, ChatRequest(DeepseekModel, messages))
  }

  /** How both call functions read what came back: a non-200 status, an
      undecodable body and an empty choice list are errors, checked in that
      order; otherwise the first choice's content and `usage.total_tokens`. */
  function ReadResponse(provider: Provider, outcome: CallOutcome): (r: AiResult)
    ensures r.Ok? <==> outcome.Received? && outcome.status == StatusOK
                       && outcome.body.Some? && |outcome.body.value.choices| > 0
    ensures outcome.TransportFailure? ==> r == Err(TransportError)
    ensures outcome.Received? && outcome.status != StatusOK ==> r == Err(StatusError(provider, outcome.status))
    ensures outcome.Received? && outcome.status == StatusOK && outcome.body.None? ==> r == Err(DecodeError)
    ensures (outcome.Received? && outcome.status == StatusOK && outcome.body.Some? && outcome.body.value.choices == [])
            ==> r == Err(EmptyResponse(provider))
    ensures r.Ok? ==> r.response.content == outcome.body.value.choices[0].content
                      && r.response.tokenCount == outcome.body.value.usage.totalTokens
  {
    match outcome
    case TransportFailure => Err(TransportError)
    case Received(status, body) =>
      if status != StatusOK then Err(StatusError(provider, status))
      else if body.None? then Err(DecodeError)
      else if |body.value.choices| == 0 then Err(EmptyResponse(provider))
      else Ok(AIResponse(body.value.choices[0].content, body.value.usage.totalTokens))
  }

  /** One chat-completion request to OpenAI under the caller's model name. */
  function CallOpenAI(model: string, messages: seq<ChatMessage>, key: string, net: Network): AiResult {
    ReadResponse(OpenAI, net(OpenAICall(model, messages, key)))
  }

  /** One chat-completion request to Deepseek, always as "deepseek-chat". */
  function CallDeepseek(messages: seq<ChatMessage>, key: string, net: Network): AiResult {
    ReadResponse(Deepseek, net(DeepseekCall(messages, key)))
  }

  /** The routing table: which provider a model identifier reaches, and the
      configuration errors that stop a call from being made at all. */
  function GetAIResponse(model: string, messages: seq<ChatMessage>, keys: ApiKeys, net: Network): (r: AiResult)
    ensures IsOpenAIModel(model) && keys.openAI == "" ==> r == Err(MissingApiKey(OpenAI))
    ensures IsOpenAIModel(model) && keys.openAI != "" ==>
              r == ReadResponse(OpenAI, net(HttpCall(OpenAIUrl, keys.openAI, ChatRequest(model, messages))))
    ensures IsDeepseekModel(model) && keys.deepseek == "" ==> r == Err(MissingApiKey(Deepseek))
    ensures IsDeepseekModel(model) && keys.deepseek != "" ==>
              r == ReadResponse(Deepseek, net(HttpCall(DeepseekUrl, keys.deepseek, ChatRequest(DeepseekModel, messages))))
    ensures !IsOpenAIModel(model) && !IsDeepseekModel(model) ==> r == Err(UnsupportedModel(model))
  {
    var m := if model == "" then DefaultModel else model;
    if IsOpenAIModel(m) then
      if keys.openAI == "" then Err(MissingApiKey(OpenAI)) else CallOpenAI(m, messages, keys.openAI, net)
    else if m == DefaultModel then
      if keys.deepseek == "" then Err(MissingApiKey(Deepseek)) else CallDeepseek(messages, keys.deepseek, net)
    else Err(UnsupportedModel(m))
  }

  /** An empty model identifier is served exactly as "deepseek" is. */
  lemma EmptyModelIsDefault(messages: seq<ChatMessage>, keys: ApiKeys, net: Network)
    ensures GetAIResponse("", messages, keys, net) == GetAIResponse(DefaultModel, messages, keys, net)
  {
  }

  /** A missing credential or an unknown model fails before any call: the
      result does not depend on the network at all. */
  lemma NoCallOnConfigurationError(model: string, messages: seq<ChatMessage>, keys: ApiKeys, net1: Network, net2: Network)
    requires (IsOpenAIModel(model) && keys.openAI == "")
          || (IsDeepseekModel(model) && keys.deepseek == "")
          || (!IsOpenAIModel(model) && !IsDeepseekModel(model))
    ensures GetAIResponse(model, messages, keys, net1) == GetAIResponse(model, messages, keys, net2)
    ensures GetAIResponse(model, messages, keys, net1).Err?
  {
  }

  /** Whenever a provider answers successfully, exactly one call was made: to
      the provider the model routes to (OpenAI exactly for the OpenAI models),
      at that provider's endpoint, with its credential, carrying the messages
      unchanged under the caller's model name (OpenAI) or "deepseek-chat"
      (Deepseek), and the answer is read from that call's reply. */
  lemma SuccessForwardsMessages(model: string, messages: seq<ChatMessage>, keys: ApiKeys, net: Network)
    requires GetAIResponse(model, messages, keys, net).Ok?
    ensures exists p: Provider, call: HttpCall ::
              && (p == OpenAI <==> IsOpenAIModel(model))
              && call.body.messages == messages
              && (p == OpenAI ==> call.url == OpenAIUrl && call.bearer == keys.openAI && call.body.model == model)
              && (p == Deepseek ==> call.url == DeepseekUrl && call.bearer == keys.deepseek && call.body.model == DeepseekModel)
              && GetAIResponse(model, messages, keys, net) == ReadResponse(p, net(call))
  {
    if IsOpenAIModel(model) {
      var call := OpenAICall(model, messages, keys.openAI);
      assert GetAIResponse(model, messages, keys, net) == ReadResponse(OpenAI, net(call));
    } else {
      var call := DeepseekCall(messages, keys.deepseek);
      assert GetAIResponse(model, messages, keys, net) == ReadResponse(Deepseek, net(call));
    }
  }
}
