/**
 * `get_llm` of `backend/app/llm_provider.py`: the chat model chosen by name,
 * and the streaming callback handler that exists exactly when the model
 * streams. The API key read from the environment is not modelled.
 */
module LlmProvider {
  import opened Wrappers

  datatype Provider = OpenAI | Ollama

  /** The `AsyncIteratorCallbackHandler` a streaming model writes its tokens to. */
  datatype Callback = AsyncIteratorCallback

  /** The configuration of a `ChatOpenAI` or `ChatOllama` object. */
  datatype ChatModel = ChatModel(
    provider: Provider,
    model: string,
    temperature: Option<int>,
    streaming: bool,
    callbacks: seq<Callback>)

  datatype ConfigError = UnsupportedModel(message: string)

  /** The model names the application accepts. */
  const SupportedModels: set<string> := {"openai", "ollama"}

  const UnsupportedModelMessage: string := "Unsupported model"

  /** `get_llm(model_name, stream)`: the model and, when streaming, its callback. */
  function GetLlm(modelName: string := "openai", stream: bool := false)
    : (r: Result<(ChatModel, Option<Callback>), ConfigError>)
    ensures r.Failure? <==> modelName !in SupportedModels
    ensures r.Failure? ==> r.error == UnsupportedModel(UnsupportedModelMessage)
    ensures r.Success? ==> (r.value.1.Some? <==> stream)
    ensures r.Success? ==> r.value.0.streaming == stream
    ensures r.Success? ==> r.value.0.callbacks == if stream then [r.value.1.value] else []
    ensures r.Success? && modelName == "openai" ==>
      r.value.0.provider == OpenAI && r.value.0.model == "gpt-4o-mini" && r.value.0.temperature == Some(0)
    ensures r.Success? && modelName == "ollama" ==>
      r.value.0.provider == Ollama && r.value.0.model == "llama3.2" && r.value.0.temperature == None
  {
    if modelName == "openai" then
      if stream then
        var callback := AsyncIteratorCallback;
        Success((ChatModel(OpenAI, "gpt-4o-mini", Some(0), true, [callback]), Some(callback)))
      else
        Success((ChatModel(OpenAI, "gpt-4o-mini", Some(0), false, []), None))
    else if modelName == "ollama" then
      if stream then
        var callback := AsyncIteratorCallback;
        Success((ChatModel(Ollama, "llama3.2", None, true, [callback]), Some(callback)))
      else
        Success((ChatModel(Ollama, "llama3.2", None, false, []), None))
    else
      Failure(UnsupportedModel(UnsupportedModelMessage))
  }

  /** Without arguments `get_llm` returns the non-streaming OpenAI model and no callback. */
  lemma GetLlmDefaults()
    ensures GetLlm().Success?
    ensures GetLlm().value.0.provider == OpenAI && GetLlm().value.1 == None
  {
  }

  /** The streaming flag changes only the streaming fields: the model chosen is the same. */
  lemma {:induction false} StreamingKeepsModel(modelName: string)
    requires modelName in SupportedModels
    ensures GetLlm(modelName, true).value.0
         == GetLlm(modelName, false).value.0.(streaming := true, callbacks := [AsyncIteratorCallback])
  {
  }
}
