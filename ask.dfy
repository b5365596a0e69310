/**
 * The `/ask` route of `backend/app/routes/ask.py`. It picks a chat model,
 * loads the selected files, builds one of four pipelines from the request's
 * `use_cot` and `use_rag` flags, and runs it with the session's history.
 * A chain-of-thought pipeline is invoked once and its result returned as
 * plain text, after the question and that text are saved to the history; the
 * other pipelines stream the model's chunks back unchanged.
 *
 * Models, retrievers and the vector index are functions in `Backend`.
 */
module Ask {
  import opened Wrappers
  import opened Text
  import opened Schema
  import opened Prompts
  import opened RagPrompt
  import opened LlmProvider
  import opened SessionMemory
  import Loader
  import CotChain
  import RagCotChain

  /** The request body, with its defaults. */
  datatype AskRequest = AskRequest(
    question: string,
    model: string := "ollama",
    useRag: bool := false,
    useCot: bool := false,
    selectedFiles: seq<string> := [])

  /** The four pipelines the route can build. */
  datatype Shape = PlainChat | RagChat | CotChat | RagCotChat

  /** The services the route calls without the model seeing inside them. */
  datatype Backend = Backend(
    disk: Loader.Disk,
    /** Splitting, embedding and indexing the documents for a model name, then `as_retriever()`. */
    index: (string, seq<Document>) -> Retriever,
    /** `invoke` of a configured chat model. */
    chat: ChatModel -> Llm,
    /** `stream` of a configured chat model: the text chunks, in order. */
    stream: ChatModel -> seq<Message> -> seq<string>)

  datatype AskError =
    | ConfigFailed(config: ConfigError)
    | LoadFailed(load: Loader.LoadError)
    /** `use_rag` without any loaded document: `None` cannot be composed into a chain. */
    | NoRetriever
    | PromptFailed(prompt: PromptError)

  /** A `PlainTextResponse` or the chunks of a `StreamingResponse`. */
  datatype Response = PlainText(body: string) | EventStream(chunks: seq<string>)

  /** The `RunnableConfig` of the call: its callbacks and the session id. */
  datatype RunConfig = RunConfig(callbacks: seq<Option<Callback>>, sessionId: Option<string>)

  // ---------------------------------------------------------------------------
  // Pipeline choice and configuration

  /** The pipeline for the flags; chain of thought is checked first. */
  function SelectShape(useCot: bool, useRag: bool): (s: Shape)
    ensures s == RagCotChat <==> useCot && useRag
    ensures s == CotChat <==> useCot && !useRag
    ensures s == RagChat <==> !useCot && useRag
    ensures s == PlainChat <==> !useCot && !useRag
  {
    if useCot && useRag then RagCotChat
    else if useCot then CotChat
    else if useRag then RagChat
    else PlainChat
  }

  /** The `RunnableConfig`: the streaming handler is attached only without chain of thought. */
  function ConfigFor(useCot: bool, handler: Option<Callback>, sessionId: Option<string>): RunConfig {
    RunConfig(if !useCot then [handler] else [], sessionId)
  }

  /**
   * The model is asked to stream exactly when chain of thought is off, so
   * whenever the handler is attached to the call it exists.
   */
  lemma HandlerAttachedOnlyWhenStreaming(req: AskRequest, sessionId: Option<string>)
    requires req.model in SupportedModels
    ensures var (model, handler) := GetLlm(req.model, !req.useCot).value;
      var config := ConfigFor(req.useCot, handler, sessionId);
      model.streaming == !req.useCot
      && (config.callbacks == [] <==> req.useCot)
      && None !in config.callbacks
  {
  }

  // ---------------------------------------------------------------------------
  // Prompts of the two pipelines built in the route

  const PlainPersona: string :=
    "You are a professional assistant. Please answer the user's questions. Remember the previous conversation and reply coherently."

  const RagPersona: string :=
    "You are an expert assistant. Please answer the user's question based solely on the provided information. Do not make up any information. If the answer cannot be found in the provided data, reply with 'I don't know'."

  const ReferenceHeader: string := "Reference Information:\n"

  function PlainChatPrompt(): seq<Part> {
    [Fixed(System, PlainPersona), Placeholder("chat_history"), Slot(Human, "", "question")]
  }

  function RagChatPrompt(): seq<Part> {
    [Fixed(System, RagPersona), Slot(System, ReferenceHeader, "context"),
     Placeholder("chat_history"), Slot(Human, "", "question")]
  }

  /** The input the history wrapper hands the chain, as template bindings. */
  function InputBindings(input: ChainInput): map<string, Value> {
    map["question" := Text(input.question), "chat_history" := MessageList(input.chatHistory)]
  }

  /** `RunnablePassthrough.assign(context=...)`: the input plus the retrieved context. */
  function RagBindings(retriever: Retriever, input: ChainInput): map<string, Value> {
    InputBindings(input)["context" := Text(FormatDocs(retriever(input.question)))]
  }

  /** Persona, history, then the question. */
  function PlainMessages(input: ChainInput): seq<Message> {
    [Message(System, PlainPersona)] + input.chatHistory + [Message(Human, input.question)]
  }

  /** Persona, reference information, history, then the question. */
  function RagMessages(context: string, input: ChainInput): seq<Message> {
    [Message(System, RagPersona), Message(System, ReferenceHeader + context)]
      + input.chatHistory + [Message(Human, input.question)]
  }

  lemma PlainChatPromptFormat(input: ChainInput)
    ensures Format(PlainChatPrompt(), InputBindings(input)) == Success(PlainMessages(input))
  {
    var b := InputBindings(input);
    RenderThree(Fixed(System, PlainPersona), Placeholder("chat_history"), Slot(Human, "", "question"), b);
    FormatWellBound(PlainChatPrompt(), b);
    assert "" + input.question == input.question;
    assert Rendered(Slot(Human, "", "question"), b) == [Message(Human, input.question)];
  }

  lemma RagChatPromptFormat(retriever: Retriever, input: ChainInput)
    ensures Format(RagChatPrompt(), RagBindings(retriever, input))
         == Success(RagMessages(FormatDocs(retriever(input.question)), input))
  {
    var b := RagBindings(retriever, input);
    var context := FormatDocs(retriever(input.question));
    RenderFour(Fixed(System, RagPersona), Slot(System, ReferenceHeader, "context"),
      Placeholder("chat_history"), Slot(Human, "", "question"), b);
    FormatWellBound(RagChatPrompt(), b);
    assert "" + input.question == input.question;
    assert Rendered(Slot(Human, "", "question"), b) == [Message(Human, input.question)];
    assert Rendered(Slot(System, ReferenceHeader, "context"), b) == [Message(System, ReferenceHeader + context)];
    assert [Message(System, RagPersona)] + [Message(System, ReferenceHeader + context)]
        == [Message(System, RagPersona), Message(System, ReferenceHeader + context)];
  }

  // ---------------------------------------------------------------------------
  // Rendering a chain-of-thought result

  const ThoughtTag: string := "[Thought]\n"
  const FinalAnswerTag: string := "[Final Answer]\n"

  /** The text the route returns for a chain's result: the tagged fields, or `str(result)`. */
  function Render(result: ChainOutput): string {
    match result
    case Answer(text) => text
    case Fields(fields) =>
      (if "thought" in fields then ThoughtTag + fields["thought"] + "\n\n" else "")
      + (if "final_answer" in fields then FinalAnswerTag + fields["final_answer"] + "\n" else "")
  }

  /** The payload of a chain-of-thought answer. */
  function CotPayload(thought: string, answer: string): string {
    ThoughtTag + thought + "\n\n" + FinalAnswerTag + answer + "\n"
  }

  /** Both stages appear, thought first, each under its tag. */
  lemma RenderThoughtAndAnswer(thought: string, answer: string)
    ensures Render(Fields(map["thought" := thought, "final_answer" := answer])) == CotPayload(thought, answer)
    ensures IsPrefix(ThoughtTag + thought + "\n\n", CotPayload(thought, answer))
    ensures IsSuffix(FinalAnswerTag + answer + "\n", CotPayload(thought, answer))
  {
    var fields := map["thought" := thought, "final_answer" := answer];
    assert "thought" in fields && fields["thought"] == thought;
    assert "final_answer" in fields && fields["final_answer"] == answer;
    assert Render(Fields(fields)) == (ThoughtTag + thought + "\n\n") + (FinalAnswerTag + answer + "\n");
  }

  /** A mapping without either key renders as nothing. */
  lemma RenderNoFields(fields: map<string, string>)
    requires "thought" !in fields && "final_answer" !in fields
    ensures Render(Fields(fields)) == ""
  {
  }

  // ---------------------------------------------------------------------------
  // Loading the selected files

  /** The outcome of loading each path on its own, in order. */
  function Loads(disk: Loader.Disk, paths: seq<string>): (loads: seq<Result<seq<Document>, Loader.LoadError>>)
    ensures |loads| == |paths|
  {
    seq(|paths|, i requires 0 <= i < |paths| => Loader.FileDocuments(disk, paths[i]))
  }

  /** `docs += ...` over the outcomes in order: the documents concatenated, or the first error raised. */
  function Collect(loads: seq<Result<seq<Document>, Loader.LoadError>>): Result<seq<Document>, Loader.LoadError>
    decreases |loads|
  {
    if |loads| == 0 then Success([])
    else
      var n := |loads| - 1;
      var earlier := Collect(loads[..n]);
      if earlier.Failure? then earlier
      else if loads[n].Failure? then Failure(loads[n].error)
      else Success(earlier.value + loads[n].value)
  }

  /** `for file_path in selected_files: docs += load_file(file_path)`. */
  function LoadAll(disk: Loader.Disk, paths: seq<string>): Result<seq<Document>, Loader.LoadError> {
    Collect(Loads(disk, paths))
  }

  /** Collecting succeeds exactly when every outcome is a success. */
  lemma {:induction false} CollectSucceeds(loads: seq<Result<seq<Document>, Loader.LoadError>>)
    ensures Collect(loads).Success? <==> forall i :: 0 <= i < |loads| ==> loads[i].Success?
    decreases |loads|
  {
    if |loads| > 0 {
      var n := |loads| - 1;
      CollectSucceeds(loads[..n]);
      assert forall i :: 0 <= i < n ==> loads[..n][i] == loads[i];
    }
  }

  /** The error raised is that of the first path that fails. */
  lemma {:induction false} CollectFirstError(loads: seq<Result<seq<Document>, Loader.LoadError>>, k: nat)
    requires k < |loads| && loads[k].Failure?
    requires forall i :: 0 <= i < k ==> loads[i].Success?
    ensures Collect(loads) == Failure(loads[k].error)
    decreases |loads|
  {
    var n := |loads| - 1;
    if k < n {
      assert forall i :: 0 <= i < k ==> loads[..n][i] == loads[i];
      CollectFirstError(loads[..n], k);
    } else {
      CollectSucceeds(loads[..n]);
      assert forall i :: 0 <= i < n ==> loads[..n][i] == loads[i];
    }
  }

  /** Once a prefix of the outcomes fails, collecting them all fails with the same error. */
  lemma {:induction false} CollectFailureSticks(loads: seq<Result<seq<Document>, Loader.LoadError>>, i: nat)
    requires i <= |loads| && Collect(loads[..i]).Failure?
    ensures Collect(loads) == Collect(loads[..i])
    decreases |loads| - i
  {
    if i < |loads| {
      var next := loads[..i + 1];
      assert next[..i] == loads[..i];
      CollectFailureSticks(loads, i + 1);
    } else {
      assert loads[..i] == loads;
    }
  }

  /** One more outcome: a failure so far sticks, otherwise a failure stops and a success appends. */
  lemma CollectStep(loads: seq<Result<seq<Document>, Loader.LoadError>>, i: nat)
    requires i < |loads|
    ensures var earlier := Collect(loads[..i]);
      Collect(loads[..i + 1])
        == if earlier.Failure? then earlier
           else if loads[i].Failure? then Failure(loads[i].error)
           else Success(earlier.value + loads[i].value)
  {
    var next := loads[..i + 1];
    assert next[..i] == loads[..i];
    assert next[i] == loads[i];
  }

  /** Loading succeeds exactly when every selected file has a supported extension. */
  lemma LoadAllSucceeds(disk: Loader.Disk, paths: seq<string>)
    ensures LoadAll(disk, paths).Success?
      <==> forall i :: 0 <= i < |paths| ==> Loader.Supported(Loader.Extension(paths[i]))
  {
    var loads := Loads(disk, paths);
    CollectSucceeds(loads);
    assert forall i :: 0 <= i < |paths| ==> loads[i] == Loader.FileDocuments(disk, paths[i]);
  }

  // ---------------------------------------------------------------------------
  // The route

  /** The retriever over the loaded documents, or `None` when nothing was loaded. */
  function RetrieverFor(backend: Backend, modelName: string, docs: seq<Document>): (r: Option<Retriever>)
    ensures r.Some? <==> docs != []
  {
    if |docs| > 0 then Some(backend.index(modelName, docs)) else None
  }

  /** `get_rag_cot_chain(llm, llm, retriever, use_cot=True)`, invoked. */
  function RagCotResult(llm: Llm, retriever: Option<Retriever>, input: ChainInput): Result<ChainOutput, AskError> {
    var result := RagCotChain.Invoke(llm, llm, retriever, true, input);
    if result.Failure? then
      (if result.error.NoRetriever? then Failure(NoRetriever) else Failure(PromptFailed(result.error.error)))
    else Success(result.value)
  }

  /** `get_cot_chain(llm, llm)`, invoked: the chain of `cot_chain.py` as written. */
  function CotResult(llm: Llm, input: ChainInput): Result<ChainOutput, AskError> {
    var result := CotChain.InvokeAsWritten(llm, llm, input);
    if result.Failure? then Failure(PromptFailed(result.error)) else Success(result.value)
  }

  /** What the CoT-only route would answer with each slot of the chain bound to its own field. */
  function IntendedCotAnswer(llm: Llm, input: ChainInput): Result<string, AskError> {
    var result := CotChain.Invoke(llm, llm, input);
    if result.Failure? then Failure(PromptFailed(result.error)) else Success(Render(result.value))
  }

  /** A streaming pipeline: the model's chunks for the formatted prompt. */
  function StreamResponse(stream: seq<Message> -> seq<string>, prompt: Result<seq<Message>, PromptError>)
    : Result<Response, AskError>
  {
    if prompt.Failure? then Failure(PromptFailed(prompt.error)) else Success(EventStream(stream(prompt.value)))
  }

  /** The pipeline the flags select, run on the input. */
  function RunShape(backend: Backend, req: AskRequest, model: ChatModel, retriever: Option<Retriever>, input: ChainInput)
    : (r: Result<Response, AskError>)
    ensures r == Failure(NoRetriever) <==> req.useRag && retriever.None?
    ensures r.Success? ==> (r.value.PlainText? <==> req.useCot)
    ensures r.Failure? ==> !r.error.ConfigFailed? && !r.error.LoadFailed?
  {
    match SelectShape(req.useCot, req.useRag)
    case RagCotChat =>
      var result := RagCotResult(backend.chat(model), retriever, input);
      if result.Failure? then Failure(result.error) else Success(PlainText(Render(result.value)))
    case CotChat =>
      var result := CotResult(backend.chat(model), input);
      if result.Failure? then Failure(result.error) else Success(PlainText(Render(result.value)))
    case RagChat =>
      if retriever.None? then Failure(NoRetriever)
      else StreamResponse(backend.stream(model), Format(RagChatPrompt(), RagBindings(retriever.value, input)))
    case PlainChat =>
      StreamResponse(backend.stream(model), Format(PlainChatPrompt(), InputBindings(input)))
  }

  /** What `ask` answers, given the session's history when the chain runs. */
  function Respond(backend: Backend, req: AskRequest, history: seq<Message>): (r: Result<Response, AskError>)
    ensures r.Failure? && r.error.ConfigFailed? <==> req.model !in SupportedModels
    ensures r == Failure(NoRetriever) <==>
      req.model in SupportedModels && req.useRag && LoadAll(backend.disk, req.selectedFiles) == Success([])
    ensures r.Success? ==> (r.value.PlainText? <==> req.useCot)
  {
    var llm := GetLlm(req.model, !req.useCot);
    if llm.Failure? then Failure(ConfigFailed(llm.error))
    else
      var docs := LoadAll(backend.disk, req.selectedFiles);
      if docs.Failure? then Failure(LoadFailed(docs.error))
      else
        RunShape(backend, req, llm.value.0, RetrieverFor(backend, req.model, docs.value), ChainInput(req.question, history))
  }

  /** Files are loaded whatever the flags: an unsupported file fails even a plain chat. */
  lemma LoadErrorFailsEveryShape(backend: Backend, req: AskRequest, history: seq<Message>)
    requires req.model in SupportedModels && LoadAll(backend.disk, req.selectedFiles).Failure?
    ensures Respond(backend, req, history) == Failure(LoadFailed(LoadAll(backend.disk, req.selectedFiles).error))
  {
  }

  /** Without flags the model streams its answer to persona, history and question. */
  lemma PlainChatStreams(backend: Backend, req: AskRequest, history: seq<Message>)
    requires req.model in SupportedModels && !req.useCot && !req.useRag
    requires LoadAll(backend.disk, req.selectedFiles).Success?
    ensures var model := GetLlm(req.model, true).value.0;
      Respond(backend, req, history)
        == Success(EventStream(backend.stream(model)(PlainMessages(ChainInput(req.question, history)))))
  {
    PlainChatPromptFormat(ChainInput(req.question, history));
  }

  /** With RAG alone the model streams its answer to the persona, the retrieved passages, history and question. */
  lemma RagChatStreams(backend: Backend, req: AskRequest, history: seq<Message>)
    requires req.model in SupportedModels && !req.useCot && req.useRag
    requires LoadAll(backend.disk, req.selectedFiles).Success?
    requires LoadAll(backend.disk, req.selectedFiles).value != []
    ensures var model := GetLlm(req.model, true).value.0;
      var retriever := backend.index(req.model, LoadAll(backend.disk, req.selectedFiles).value);
      Respond(backend, req, history)
        == Success(EventStream(backend.stream(model)(
             RagMessages(FormatDocs(retriever(req.question)), ChainInput(req.question, history)))))
  {
    var docs := LoadAll(backend.disk, req.selectedFiles).value;
    RagChatPromptFormat(backend.index(req.model, docs), ChainInput(req.question, history));
  }

  /**
   * Chain of thought alone always fails: the chain's history slot receives the
   * whole input mapping, so the request errors and nothing is saved.
   */
  lemma CotChatFails(backend: Backend, req: AskRequest, history: seq<Message>)
    requires req.model in SupportedModels && req.useCot && !req.useRag
    requires LoadAll(backend.disk, req.selectedFiles).Success?
    ensures Respond(backend, req, history) == Failure(PromptFailed(NotAMessageList("chat_history")))
  {
    var llm := backend.chat(GetLlm(req.model, false).value.0);
    CotChain.AsWrittenAlwaysFails(llm, llm, ChainInput(req.question, history));
    assert SelectShape(req.useCot, req.useRag) == CotChat;
  }

  /** With the chain corrected, chain of thought alone answers with the tagged thought and final answer. */
  lemma IntendedCotChatAnswers(llm: Llm, input: ChainInput)
    ensures var thought := llm(CotChain.ThoughtMessages(input));
      var answer := llm(CotChain.FinalAnswerMessages(thought));
      IntendedCotAnswer(llm, input) == Success(CotPayload(thought, answer))
  {
    var thought := llm(CotChain.ThoughtMessages(input));
    var answer := llm(CotChain.FinalAnswerMessages(thought));
    CotChain.InvokeResult(llm, llm, input);
    RenderThoughtAndAnswer(thought, answer);
  }

  /** Both flags answer with the tagged thought and final answer over the retrieved passages. */
  lemma RagCotChatAnswers(backend: Backend, req: AskRequest, history: seq<Message>)
    requires req.model in SupportedModels && req.useCot && req.useRag
    requires LoadAll(backend.disk, req.selectedFiles).Success?
    requires LoadAll(backend.disk, req.selectedFiles).value != []
    ensures var llm := backend.chat(GetLlm(req.model, false).value.0);
      var retriever := backend.index(req.model, LoadAll(backend.disk, req.selectedFiles).value);
      var input := ChainInput(req.question, history);
      var thought := llm(RagCotChain.ThoughtMessages(RagCotChain.Context(retriever, input), input));
      var answer := llm(RagCotChain.FinalAnswerMessages(thought));
      Respond(backend, req, history) == Success(PlainText(CotPayload(thought, answer)))
  {
    var llm := backend.chat(GetLlm(req.model, false).value.0);
    var retriever := backend.index(req.model, LoadAll(backend.disk, req.selectedFiles).value);
    var input := ChainInput(req.question, history);
    var thought := llm(RagCotChain.ThoughtMessages(RagCotChain.Context(retriever, input), input));
    var answer := llm(RagCotChain.FinalAnswerMessages(thought));
    RagCotChain.InvokeResult(llm, llm, retriever, true, input);
    RenderThoughtAndAnswer(thought, answer);
    assert SelectShape(req.useCot, req.useRag) == RagCotChat;
  }

  /** The loop of step 2: `docs += load_file(file_path)` for each selected file. */
  method LoadSelected(disk: Loader.Disk, paths: seq<string>) returns (r: Result<seq<Document>, Loader.LoadError>)
    ensures r == LoadAll(disk, paths)
  {
    ghost var loads := Loads(disk, paths);
    var docs: seq<Document> := [];
    for i := 0 to |paths|
      invariant Collect(loads[..i]) == Success(docs)
    {
      CollectStep(loads, i);
      var loaded := Loader.LoadFile(disk, paths[i]);
      assert loaded == loads[i];
      if loaded.Failure? {
        CollectFailureSticks(loads, i + 1);
        return Failure(loaded.error);
      }
      docs := docs + loaded.value;
    }
    assert loads[..|loads|] == loads;
    return Success(docs);
  }

  /** The CoT branch's `output`, built field by field. */
  method RenderOutput(result: ChainOutput) returns (output: string)
    ensures output == Render(result)
  {
    if result.Fields? {
      output := "";
      if "thought" in result.fields {
        output := output + ThoughtTag + result.fields["thought"] + "\n\n";
      }
      if "final_answer" in result.fields {
        output := output + FinalAnswerTag + result.fields["final_answer"] + "\n";
      }
    } else {
      output := result.text;
    }
  }

  /** `format_stream_output`: every chunk, converted with `str`, in order. */
  method PassChunks(chunks: seq<string>) returns (streamed: seq<string>)
    ensures streamed == chunks
  {
    streamed := [];
    for i := 0 to |chunks|
      invariant streamed == chunks[..i]
    {
      streamed := streamed + [chunks[i]];
    }
  }

  /** Steps 2 to 5 of `ask`, once the model is chosen and the files are loaded. */
  method RunPipeline(backend: Backend, store: SessionStore, req: AskRequest, model: ChatModel,
                     retriever: Option<Retriever>, key: string)
    returns (r: Result<Response, AskError>)
    modifies store
    ensures r == RunShape(backend, req, model, retriever, ChainInput(req.question, old(store.History(key))))
    ensures if req.useCot && r.Success? then
        store.histories == old(store.histories)[key := old(store.History(key))
          + [Message(Human, req.question), Message(AI, r.value.body)]]
      else store.histories == old(store.histories)
  {
    var input := ChainInput(req.question, store.History(key));
    if req.useCot {
      var result: Result<ChainOutput, AskError>;
      if req.useRag {
        result := RagCotResult(backend.chat(model), retriever, input);
      } else {
        result := CotResult(backend.chat(model), input);
      }
      if result.Failure? {
        return Failure(result.error);
      }
      var output := RenderOutput(result.value);
      store.AddMessages(key, [Message(Human, req.question), Message(AI, output)]);
      return Success(PlainText(output));
    }
    var prompt: Result<seq<Message>, PromptError>;
    if req.useRag {
      if retriever.None? {
        return Failure(NoRetriever);
      }
      prompt := Format(RagChatPrompt(), RagBindings(retriever.value, input));
    } else {
      prompt := Format(PlainChatPrompt(), InputBindings(input));
    }
    if prompt.Failure? {
      return Failure(PromptFailed(prompt.error));
    }
    var streamed := PassChunks(backend.stream(model)(prompt.value));
    return Success(EventStream(streamed));
  }

  /**
   * `ask(request, body)`: the response, and the history of the session. The
   * chain-of-thought path saves the question and the returned text as one
   * Human and one AI message; no other path writes the history itself.
   */
  method Ask(backend: Backend, store: SessionStore, req: AskRequest, sessionHeader: Option<string>)
    returns (r: Result<Response, AskError>)
    modifies store
    ensures r == Respond(backend, req, old(store.History(SessionKey(sessionHeader))))
    ensures var key := SessionKey(sessionHeader);
      if req.useCot && r.Success? then
        store.histories == old(store.histories)[key := old(store.History(key))
          + [Message(Human, req.question), Message(AI, r.value.body)]]
      else store.histories == old(store.histories)
  {
    var llm := GetLlm(req.model, !req.useCot);
    if llm.Failure? {
      return Failure(ConfigFailed(llm.error));
    }
    var model := llm.value.0;

    var loaded := LoadSelected(backend.disk, req.selectedFiles);
    if loaded.Failure? {
      return Failure(LoadFailed(loaded.error));
    }
    var docs := loaded.value;
    var retriever: Option<Retriever> := None;
    if |docs| > 0 {
      retriever := Some(backend.index(req.model, docs));
    }
    r := RunPipeline(backend, store, req, model, retriever, SessionKey(sessionHeader));
  }
}
