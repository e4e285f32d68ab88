/**
 * The chat roles of the OpenAI back end (`hell_mod_llm::openai::role`): the
 * three roles, the names they carry on the wire, and the conversions to and
 * from the provider-neutral roles.
 */
module OpenaiRoles {
  import opened Wrappers
  import Llm

  datatype OpenaiChatRole = System | Assistant | User

  /** The `#[serde(rename = ...)]` name of each role: the text it is sent and received as. */
  function SerdeName(r: OpenaiChatRole): string
  {
    match r
    case System => "system"
    case Assistant => "assistant"
    case User => "user"
  }

  /** Deserialising a role: exactly the three rename names are accepted. */
  function FromSerdeName(s: string): (r: Option<OpenaiChatRole>)
    ensures r.Some? ==> SerdeName(r.value) == s
  {
    if s == "system" then Some(System)
    else if s == "assistant" then Some(Assistant)
    else if s == "user" then Some(User)
    else None
  }

  /** `ToString for OpenaiChatRole`. */
  function RoleToString(r: OpenaiChatRole): (s: string)
    ensures s == SerdeName(r)
  {
    match r
    case System => "system"
    case Assistant => "assistant"
    case User => "user"
  }

  /** A role serialises to its `to_string` text and deserialises back to itself. */
  lemma SerdeRoundTrip(r: OpenaiChatRole)
    ensures FromSerdeName(RoleToString(r)) == Some(r)
  {
  }

  /** `From<OpenaiChatRole> for LlmChatRole`. */
  function ToLlm(r: OpenaiChatRole): (l: Llm.LlmChatRole)
    ensures Llm.RoleToString(l) == RoleToString(r)
  {
    match r
    case System => Llm.System
    case Assistant => Llm.Assistant
    case User => Llm.User
  }

  /** `From<LlmChatRole> for OpenaiChatRole`. */
  function FromLlm(l: Llm.LlmChatRole): (r: OpenaiChatRole)
    ensures RoleToString(r) == Llm.RoleToString(l)
  {
    match l
    case System => System
    case Assistant => Assistant
    case User => User
  }

  /** The two conversions are inverse to each other. */
  lemma RoleConversionsInverse(r: OpenaiChatRole, l: Llm.LlmChatRole)
    ensures FromLlm(ToLlm(r)) == r
    ensures ToLlm(FromLlm(l)) == l
  {
  }
}
