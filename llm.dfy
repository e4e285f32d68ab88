/**
 * The provider-neutral chat types of the language-model module
 * (`hell_mod_llm::llm`): roles, messages, requests, responses and the model
 * list. Provider back ends convert their wire types to and from these.
 */
module Llm {

  datatype LlmChatRole = System | Assistant | User

  /** `ToString for LlmChatRole`. */
  function RoleToString(r: LlmChatRole): (s: string)
    ensures s == "system" <==> r == System
    ensures s == "assistant" <==> r == Assistant
    ensures s == "user" <==> r == User
  {
    match r
    case System => "system"
    case Assistant => "assistant"
    case User => "user"
  }

  datatype LlmChatMsg = LlmChatMsg(role: LlmChatRole, content: string)

  datatype LlmChatSuccessResponse = LlmChatSuccessResponse(messages: seq<LlmChatMsg>)

  /** A chat request; the `f32` temperature is modelled as a real. */
  datatype LlmChatRequest = LlmChatRequest(model: string, messages: seq<LlmChatMsg>, temperature: real)

  datatype LlmModelData = LlmModelData(id: string)

  datatype LlmModelList = LlmModelList(models: seq<LlmModelData>)
}
