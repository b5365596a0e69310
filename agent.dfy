/**
 * The `/agent` route of `backend/app/routes/agent.py`. It checks the model
 * name, picks the tools of the enabled plugins from the registry, optionally
 * prefixes the question with passages retrieved from the selected files, and
 * streams the agent's final outputs, one stripped paragraph per output.
 *
 * The ReAct agent itself, the vector index and the retriever are functions
 * in `AgentBackend`.
 */
module Agent {
  import opened Wrappers
  import opened Text
  import opened Schema
  import opened RagPrompt
  import opened LlmProvider
  import opened SessionMemory
  import Loader
  import Ask

  /** The JSON body; a missing field takes its default, a `null` one reads as `None`. */
  datatype AgentBody = AgentBody(
    question: string,
    model: Field<string> := Absent,
    useRag: Field<bool> := Absent,
    useCot: Field<bool> := Absent,
    pluginDetail: Field<seq<PluginDetail>> := Absent,
    selectedFiles: Field<seq<string>> := Absent)

  /** One chunk of the agent's stream: only some of them carry an `output`. */
  datatype Chunk = Chunk(output: Option<string>)

  /** The model and tools the agent runs with. */
  datatype AgentSetup = AgentSetup(model: ChatModel, tools: seq<string>)

  datatype AgentBackend = AgentBackend(
    disk: Loader.Disk,
    /** Splitting, embedding and indexing the documents for a model name, then `as_retriever()`. */
    index: (string, seq<Document>) -> Retriever,
    /** The agent executor's stream for its setup, its input and the session's history. */
    run: (AgentSetup, string, seq<Message>) -> seq<Chunk>)

  /**
   * `ValueError("Unsupported model")`, the `TypeError` of iterating a `null`
   * field, or a loader error.
   */
  datatype AgentError = ConfigFailed(config: ConfigError) | NotIterable(field: string) | LoadFailed(load: Loader.LoadError)

  /** The names `TOOL_REGISTRY` has a tool for. */
  const Registry: set<string> := {"web_search", "code_interpreter", "wikipedia", "arxiv"}

  const RagIntro: string := "以下是相關資料：\n"
  const QuestionLabel: string := "\n\n問題："

  // ---------------------------------------------------------------------------
  // Model check

  /** Step 1: a streaming model for the name, or `ValueError("Unsupported model")`. */
  function AgentModel(modelName: string): (r: Result<ChatModel, ConfigError>)
    ensures r.Failure? <==> modelName !in SupportedModels
    ensures r.Failure? ==> r.error == UnsupportedModel(UnsupportedModelMessage)
    ensures r.Success? ==> r.value.streaming && r.value.callbacks == []
  {
    if modelName == "openai" then Success(ChatModel(OpenAI, "gpt-4o-mini", Some(0), true, []))
    else if modelName == "ollama" then Success(ChatModel(Ollama, "llama3.2", None, true, []))
    else Failure(UnsupportedModel(UnsupportedModelMessage))
  }

  /** The agent accepts the same names as `get_llm` and picks the same model, without a callback. */
  lemma AgentModelAgreesWithProvider(modelName: string)
    ensures AgentModel(modelName).Success? <==> GetLlm(modelName, true).Success?
    ensures AgentModel(modelName).Success? ==>
      AgentModel(modelName).value == GetLlm(modelName, true).value.0.(callbacks := [])
  {
  }

  // ---------------------------------------------------------------------------
  // Tool selection

  /** The registry tools of the enabled plugins, in `plugin_detail` order. */
  function SelectedTools(items: seq<PluginDetail>): seq<string>
    decreases |items|
  {
    if |items| == 0 then []
    else
      var n := |items| - 1;
      var item := items[n];
      SelectedTools(items[..n]) + if item.enable && item.toolName in Registry then [item.toolName] else []
  }

  /** A tool is selected exactly when some enabled plugin names it and the registry has it. */
  lemma {:induction false} SelectedToolsMembership(items: seq<PluginDetail>, tool: string)
    ensures tool in SelectedTools(items)
      <==> tool in Registry && exists i :: 0 <= i < |items| && items[i].enable && items[i].toolName == tool
    decreases |items|
  {
    if |items| > 0 {
      var n := |items| - 1;
      SelectedToolsMembership(items[..n], tool);
      assert forall i :: 0 <= i < n ==> items[..n][i] == items[i];
      if tool in Registry && items[n].enable && items[n].toolName == tool {
        assert tool in SelectedTools(items);
      }
    }
  }

  /** Every selected tool is registered, and there are no more tools than plugins. */
  lemma {:induction false} SelectedToolsBounds(items: seq<PluginDetail>)
    ensures |SelectedTools(items)| <= |items|
    ensures forall t :: t in SelectedTools(items) ==> t in Registry
    decreases |items|
  {
    if |items| > 0 {
      SelectedToolsBounds(items[..|items| - 1]);
    }
  }

  /** Step 2: the loop that appends each enabled plugin's registered tool. */
  method SelectTools(items: seq<PluginDetail>) returns (selected: seq<string>)
    ensures selected == SelectedTools(items)
  {
    selected := [];
    for i := 0 to |items|
      invariant selected == SelectedTools(items[..i])
    {
      assert items[..i + 1][..i] == items[..i];
      var item := items[i];
      if item.enable {
        if item.toolName in Registry {
          selected := selected + [item.toolName];
        }
      }
    }
    assert items[..|items|] == items;
  }

  // ---------------------------------------------------------------------------
  // Agent input

  /** The question, prefixed with the retrieved passages when there are any. */
  function AgentInput(question: string, context: string): (r: string)
    ensures context == "" ==> r == question
    ensures context != "" ==> IsPrefix(RagIntro + context, r) && IsSuffix(QuestionLabel + question, r)
  {
    if context != "" then
      var r := RagIntro + context + QuestionLabel + question;
      assert r[..|RagIntro + context|] == RagIntro + context;
      assert r[|r| - |QuestionLabel + question|..] == QuestionLabel + question;
      r
    else question
  }

  /** The prefixed input can be taken apart again: the context and question are recovered. */
  lemma AgentInputDecomposes(question: string, context: string)
    requires context != ""
    ensures var r := AgentInput(question, context);
      r[|RagIntro|..|RagIntro| + |context|] == context
      && r[|r| - |question|..] == question
  {
    var r := AgentInput(question, context);
    assert r == RagIntro + context + QuestionLabel + question;
  }

  // ---------------------------------------------------------------------------
  // Stream filter

  /** The paragraphs `format_stream` yields: each chunk's stripped output, in order. */
  function StreamedOutputs(chunks: seq<Chunk>): seq<string>
    decreases |chunks|
  {
    if |chunks| == 0 then []
    else
      var n := |chunks| - 1;
      StreamedOutputs(chunks[..n]) + if chunks[n].output.Some? then [Strip(Python, chunks[n].output.value) + "\n\n"] else []
  }

  /** The number of chunks that carry an output. */
  function CountOutputs(chunks: seq<Chunk>): nat
    decreases |chunks|
  {
    if |chunks| == 0 then 0
    else CountOutputs(chunks[..|chunks| - 1]) + if chunks[|chunks| - 1].output.Some? then 1 else 0
  }

  /**
   * One paragraph per chunk with an output: it ends in a blank line and has no
   * whitespace just before it or at its start.
   */
  lemma {:induction false} StreamedOutputsShape(chunks: seq<Chunk>)
    ensures |StreamedOutputs(chunks)| == CountOutputs(chunks)
    ensures forall k :: 0 <= k < |StreamedOutputs(chunks)| ==>
      var p := StreamedOutputs(chunks)[k];
      IsSuffix("\n\n", p) && (|p| == 2 || (!IsSpace(Python, p[0]) && !IsSpace(Python, p[|p| - 3])))
    decreases |chunks|
  {
    if |chunks| > 0 {
      var n := |chunks| - 1;
      StreamedOutputsShape(chunks[..n]);
      var earlier := StreamedOutputs(chunks[..n]);
      if chunks[n].output.Some? {
        var p := Strip(Python, chunks[n].output.value) + "\n\n";
        var all := earlier + [p];
        assert StreamedOutputs(chunks) == all;
        forall k | 0 <= k < |all|
          ensures IsSuffix("\n\n", all[k]) && (|all[k]| == 2 || (!IsSpace(Python, all[k][0]) && !IsSpace(Python, all[k][|all[k]| - 3])))
        {
          if k < |earlier| {
            assert all[k] == earlier[k];
          } else {
            assert all[k] == p;
            assert p[|p| - 2..] == "\n\n";
          }
        }
      }
    }
  }

  /** `format_stream`: keep the chunks with an output, stripped, each followed by a blank line. */
  method FormatStream(chunks: seq<Chunk>) returns (streamed: seq<string>)
    ensures streamed == StreamedOutputs(chunks)
  {
    streamed := [];
    for i := 0 to |chunks|
      invariant streamed == StreamedOutputs(chunks[..i])
    {
      assert chunks[..i + 1][..i] == chunks[..i];
      var chunk := chunks[i];
      if chunk.output.Some? {
        var text := chunk.output.value;
        streamed := streamed + [Strip(Python, text) + "\n\n"];
      }
    }
    assert chunks[..|chunks|] == chunks;
  }

  // ---------------------------------------------------------------------------
  // The route

  /** `body.get("model", "openai")` names a supported model. */
  predicate ModelAccepted(body: AgentBody) {
    var name := body.model.Get("openai");
    name.Some? && name.value in SupportedModels
  }

  /** The selected files, with a missing or `null` list read as no files. */
  function SelectedFiles(body: AgentBody): seq<string> {
    body.selectedFiles.Get([]).GetOr([])
  }

  /** Whether step 4 retrieves passages: only with `use_rag` and some selected file. */
  predicate UsesRag(body: AgentBody) {
    body.useRag.Get(false) == Some(true) && SelectedFiles(body) != []
  }

  /** The plugin list, with a missing one read as empty. */
  function Plugins(body: AgentBody): seq<PluginDetail>
    requires !body.pluginDetail.Null?
  {
    body.pluginDetail.Get([]).value
  }

  /** Some enabled plugin item names the tool. */
  predicate EnabledIn(items: seq<PluginDetail>, tool: string) {
    exists i :: 0 <= i < |items| && items[i].enable && items[i].toolName == tool
  }

  /** Steps 1 to 3: the streaming model and the registry tools of the enabled plugins. */
  function Setup(body: AgentBody): (s: AgentSetup)
    requires ModelAccepted(body) && !body.pluginDetail.Null?
    ensures s.model.streaming && s.model.callbacks == []
    ensures forall t :: t in s.tools <==> t in Registry && EnabledIn(Plugins(body), t)
  {
    var items := Plugins(body);
    assert forall t :: t in SelectedTools(items) <==> t in Registry && EnabledIn(items, t) by {
      forall t
        ensures t in SelectedTools(items) <==> t in Registry && EnabledIn(items, t)
      {
        SelectedToolsMembership(items, t);
      }
    }
    AgentSetup(AgentModel(body.model.Get("openai").value).value, SelectedTools(items))
  }

  /** Step 4: the agent's input, or the error of a selected file that cannot be loaded. */
  function PrepareInput(backend: AgentBackend, body: AgentBody, modelName: string): Result<string, Loader.LoadError> {
    if UsesRag(body) then
      var docs := Ask.LoadAll(backend.disk, SelectedFiles(body));
      if docs.Failure? then Failure(docs.error)
      else Success(AgentInput(body.question, FormatDocs(backend.index(modelName, docs.value)(body.question))))
    else Success(body.question)
  }

  /** What `agent_ask` streams, given the session's history. */
  function AgentRespond(backend: AgentBackend, body: AgentBody, history: seq<Message>): (r: Result<seq<string>, AgentError>)
    ensures r.Failure? && r.error.ConfigFailed? <==> !ModelAccepted(body)
    ensures r == Failure(NotIterable("plugin_detail")) <==> ModelAccepted(body) && body.pluginDetail.Null?
    ensures r.Failure? && r.error.LoadFailed? <==>
      ModelAccepted(body) && !body.pluginDetail.Null? && UsesRag(body)
      && Ask.LoadAll(backend.disk, SelectedFiles(body)).Failure?
    ensures ModelAccepted(body) && !body.pluginDetail.Null? ==>
      var input := PrepareInput(backend, body, body.model.Get("openai").value);
      && (input.Failure? ==> r == Failure(LoadFailed(input.error)))
      && (input.Success? ==> r == Success(StreamedOutputs(backend.run(Setup(body), input.value, history))))
  {
    var modelName := body.model.Get("openai");
    var model := if modelName.Some? then AgentModel(modelName.value) else Failure(UnsupportedModel(UnsupportedModelMessage));
    if model.Failure? then Failure(ConfigFailed(model.error))
    else if body.pluginDetail.Null? then Failure(NotIterable("plugin_detail"))
    else
      var input := PrepareInput(backend, body, modelName.value);
      if input.Failure? then Failure(LoadFailed(input.error))
      else Success(StreamedOutputs(backend.run(Setup(body), input.value, history)))
  }

  /** Without RAG the agent receives the bare question. */
  lemma PlainQuestionWithoutRag(backend: AgentBackend, body: AgentBody, modelName: string)
    requires !UsesRag(body)
    ensures PrepareInput(backend, body, modelName) == Success(body.question)
  {
  }

  /** Without RAG the agent runs on the bare question and its outputs are streamed. */
  lemma AgentPlainStreams(backend: AgentBackend, body: AgentBody, history: seq<Message>)
    requires ModelAccepted(body) && !body.pluginDetail.Null? && !UsesRag(body)
    ensures AgentRespond(backend, body, history)
      == Success(StreamedOutputs(backend.run(Setup(body), body.question, history)))
  {
  }

  /**
   * With RAG over files that load, the agent runs on the question prefixed
   * with the passages the index retrieves for it.
   */
  lemma AgentRagStreams(backend: AgentBackend, body: AgentBody, history: seq<Message>)
    requires ModelAccepted(body) && !body.pluginDetail.Null? && UsesRag(body)
    requires Ask.LoadAll(backend.disk, SelectedFiles(body)).Success?
    ensures var retriever := backend.index(body.model.Get("openai").value, Ask.LoadAll(backend.disk, SelectedFiles(body)).value);
      var input := AgentInput(body.question, FormatDocs(retriever(body.question)));
      AgentRespond(backend, body, history) == Success(StreamedOutputs(backend.run(Setup(body), input, history)))
  {
  }

  /** With RAG, a selected file that cannot be loaded fails the request with its error. */
  lemma AgentLoadFails(backend: AgentBackend, body: AgentBody, history: seq<Message>)
    requires ModelAccepted(body) && !body.pluginDetail.Null? && UsesRag(body)
    requires Ask.LoadAll(backend.disk, SelectedFiles(body)).Failure?
    ensures AgentRespond(backend, body, history)
      == Failure(LoadFailed(Ask.LoadAll(backend.disk, SelectedFiles(body)).error))
  {
  }

  /**
   * `agent_ask(request)`. The history is read through the session-history
   * wrapper; the route writes nothing itself.
   */
  method AgentAsk(backend: AgentBackend, store: SessionStore, body: AgentBody, sessionHeader: Option<string>)
    returns (r: Result<seq<string>, AgentError>)
    ensures r == AgentRespond(backend, body, store.History(SessionKey(sessionHeader)))
  {
    var modelName := body.model.Get("openai");
    var useRag := body.useRag.Get(false);
    var selectedFiles := body.selectedFiles.Get([]);

    if modelName.None? {
      return Failure(ConfigFailed(UnsupportedModel(UnsupportedModelMessage)));
    }
    var model := AgentModel(modelName.value);
    if model.Failure? {
      return Failure(ConfigFailed(model.error));
    }
    var pluginDetail := body.pluginDetail.Get([]);
    if pluginDetail.None? {
      return Failure(NotIterable("plugin_detail"));
    }
    var tools := SelectTools(pluginDetail.value);
    var setup := AgentSetup(model.value, tools);

    var agentInput := body.question;
    if useRag == Some(true) && selectedFiles.Some? && selectedFiles.value != [] {
      var docs := Ask.LoadSelected(backend.disk, selectedFiles.value);
      if docs.Failure? {
        return Failure(LoadFailed(docs.error));
      }
      var retriever := backend.index(modelName.value, docs.value);
      var context := FormatDocs(retriever(body.question));
      if context != "" {
        agentInput := RagIntro + context + QuestionLabel + body.question;
      }
    }

    var chunks := backend.run(setup, agentInput, store.History(SessionKey(sessionHeader)));
    var streamed := FormatStream(chunks);
    r := Success(streamed);
  }
}
