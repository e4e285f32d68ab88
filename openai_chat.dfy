/**
 * The chat wire types of the OpenAI back end (`hell_mod_llm::openai::chat`):
 * messages, the request with its token-limit check, the success response,
 * the error response, and the conversions to and from the provider-neutral
 * types.
 */
module OpenaiChat {
  import opened Wrappers
  import opened HellErrors
  import Llm
  import opened OpenaiRoles
  import opened OpenaiModels

  datatype OpenaiChatMessage = OpenaiChatMessage(role: OpenaiChatRole, content: string)

  /** `From<OpenaiChatMessage> for LlmChatMsg`: same content, role converted. */
  function MessageToLlm(m: OpenaiChatMessage): (l: Llm.LlmChatMsg)
    ensures l.content == m.content && l.role == ToLlm(m.role)
  {
    Llm.LlmChatMsg(ToLlm(m.role), m.content)
  }

  /** `From<LlmChatMsg> for OpenaiChatMessage`: same content, role converted. */
  function MessageFromLlm(l: Llm.LlmChatMsg): (m: OpenaiChatMessage)
    ensures m.content == l.content && m.role == FromLlm(l.role)
  {
    OpenaiChatMessage(FromLlm(l.role), l.content)
  }

  /** The message conversions are inverse to each other. */
  lemma MessageConversionsInverse(m: OpenaiChatMessage, l: Llm.LlmChatMsg)
    ensures MessageFromLlm(MessageToLlm(m)) == m
    ensures MessageToLlm(MessageFromLlm(l)) == l
  {
    RoleConversionsInverse(m.role, l.role);
  }

  /** The request body; `max_tokens` is a `u32` and the `f32` temperature a real. */
  datatype OpenaiChatRequest = OpenaiChatRequest(
    model: string, messages: seq<OpenaiChatMessage>, maxTokens: Option<nat>, temperature: real)

  const MAX_TOKENS_MSG: string := "Max tokens must be less than or equal to the model's token limit"

  /**
   * `OpenaiChatRequest::new`: refuses a token budget above the model's limit
   * with a request error; otherwise stores the model's name and the other
   * arguments as given.
   */
  function NewRequest(model: OpenaiLangModel, messages: seq<OpenaiChatMessage>, maxTokens: Option<nat>, temperature: real)
    : (r: HellResult<OpenaiChatRequest>)
    requires maxTokens.Some? ==> maxTokens.value <= U32_MAX
    ensures r.Err? <==> maxTokens.Some? && maxTokens.value > TokenLimit(model)
    ensures r.Err? ==> r.error.kind == RequestError && r.error.content == Message(MAX_TOKENS_MSG)
    ensures r.Ok? ==> r.value == OpenaiChatRequest(ModelToString(model), messages, maxTokens, temperature)
  {
    if maxTokens.Some? && maxTokens.value > TokenLimit(model) then
      Err(RequestMsgErr(MAX_TOKENS_MSG))
    else
      Ok(OpenaiChatRequest(ModelToString(model), messages, maxTokens, temperature))
  }

  /** For the one model there is, a budget of 4096 tokens is accepted and 4097 refused. */
  lemma TokenLimitBoundary(messages: seq<OpenaiChatMessage>, temperature: real)
    ensures NewRequest(Gpt35Turbo, messages, Some(4096), temperature).Ok?
    ensures NewRequest(Gpt35Turbo, messages, Some(4097), temperature).Err?
    ensures NewRequest(Gpt35Turbo, messages, None, temperature).value.model == "gpt-3.5-turbo"
  {
  }

  /** `From<LlmChatRequest> for OpenaiChatRequest`: same model and temperature, messages converted in order, no token budget. */
  function RequestFromLlm(l: Llm.LlmChatRequest): (r: OpenaiChatRequest)
    ensures r.model == l.model && r.temperature == l.temperature && r.maxTokens == None
    ensures |r.messages| == |l.messages|
    ensures forall i :: 0 <= i < |l.messages| ==> r.messages[i] == MessageFromLlm(l.messages[i])
  {
    OpenaiChatRequest(l.model, seq(|l.messages|, i requires 0 <= i < |l.messages| => MessageFromLlm(l.messages[i])), None, l.temperature)
  }

  /** Converting a neutral request loses nothing of its messages: converting each back gives the originals. */
  lemma RequestFromLlmKeepsMessages(l: Llm.LlmChatRequest)
    ensures var r := RequestFromLlm(l);
      Llm.LlmChatRequest(r.model, seq(|r.messages|, i requires 0 <= i < |r.messages| => MessageToLlm(r.messages[i])), r.temperature) == l
  {
    var r := RequestFromLlm(l);
    forall i | 0 <= i < |l.messages|
      ensures MessageToLlm(r.messages[i]) == l.messages[i]
    {
      MessageConversionsInverse(r.messages[i], l.messages[i]);
    }
  }

  datatype ChatUsageInfo = ChatUsageInfo(promptTokens: nat, completionTokens: nat, totalTokens: nat)

  datatype ChatChoice = ChatChoice(message: OpenaiChatMessage, finishReason: string, index: nat)

  datatype OpenaiChatSuccessResponse = OpenaiChatSuccessResponse(
    id: string, object: string, created: nat, model: string, usage: ChatUsageInfo, choices: seq<ChatChoice>)

  /** `From<OpenaiChatSuccessResponse> for LlmChatSuccessResponse`: the choices' messages, converted, in order. */
  function ResponseToLlm(resp: OpenaiChatSuccessResponse): (l: Llm.LlmChatSuccessResponse)
    ensures |l.messages| == |resp.choices|
    ensures forall i :: 0 <= i < |resp.choices| ==>
      l.messages[i].content == resp.choices[i].message.content && l.messages[i].role == ToLlm(resp.choices[i].message.role)
  {
    Llm.LlmChatSuccessResponse(seq(|resp.choices|, i requires 0 <= i < |resp.choices| => MessageToLlm(resp.choices[i].message)))
  }

  /** The error body the API returns (data only). */
  datatype ChatError = ChatError(message: string, errorType: string, param: Option<string>, code: Option<string>)

  datatype ChatErrorResponse = ChatErrorResponse(error: ChatError)
}
