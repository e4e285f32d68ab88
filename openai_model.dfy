/**
 * The OpenAI language models and model listings
 * (`hell_mod_llm::openai::model`).
 */
module OpenaiModels {
  import opened Wrappers
  import Llm

  datatype OpenaiLangModel = Gpt35Turbo

  /** `ToString for OpenaiLangModel`, which `From<OpenaiLangModel> for String` also uses. */
  function ModelToString(m: OpenaiLangModel): (s: string)
    ensures m == Gpt35Turbo ==> s == "gpt-3.5-turbo"
    ensures |s| > 0
  {
    match m
    case Gpt35Turbo => "gpt-3.5-turbo"
  }

  /** `OpenaiLangModel::token_limit`. */
  function TokenLimit(m: OpenaiLangModel): (n: nat)
    ensures m == Gpt35Turbo ==> n == 4096
  {
    match m
    case Gpt35Turbo => 4096
  }

  /** An entry of a model's permission list (data only). */
  datatype OpenaiModelPermission = OpenaiModelPermission(
    id: string, object: string, created: nat,
    allowSampling: bool, allowCreateEngine: bool, allowLogprobs: bool,
    allowSearchIndices: bool, allowView: bool, allowFineTuning: bool,
    organization: string, group: Option<string>, isBlocking: bool)

  datatype OpenaiModelData = OpenaiModelData(
    id: string, object: string, created: nat, ownedBy: string,
    permission: seq<OpenaiModelPermission>, root: string, parent: Option<string>)

  datatype OpenaiModelList = OpenaiModelList(object: string, data: seq<OpenaiModelData>)

  /** `From<OpenaiModelData> for LlmModelData`: only the id is kept. */
  function DataToLlm(d: OpenaiModelData): (l: Llm.LlmModelData)
    ensures l.id == d.id
  {
    Llm.LlmModelData(d.id)
  }

  /** `From<OpenaiModelList> for LlmModelList`: one model per datum, in order. */
  function ListToLlm(list: OpenaiModelList): (l: Llm.LlmModelList)
    ensures |l.models| == |list.data|
    ensures forall i :: 0 <= i < |list.data| ==> l.models[i].id == list.data[i].id
  {
    Llm.LlmModelList(seq(|list.data|, i requires 0 <= i < |list.data| => DataToLlm(list.data[i])))
  }
}
