/**
 * `backend/app/chains/rag_cot_chain.py`: a chain of thought over retrieved
 * passages. Stage 1 retrieves documents for the question, joins their
 * contents into a context and asks `llm_step1` to reason about the question
 * from that context and the history; stage 2 asks `llm_step2` for a final
 * answer from the reasoning alone. With `use_cot` the chain returns both
 * stages, otherwise only the final answer.
 */
module RagCotChain {
  import opened Wrappers
  import opened Schema
  import opened Prompts
  import opened RagPrompt

  const ThoughtPersona: string := "你是一位善於思考的AI助手，請根據以下資料，對問題進行邏輯推理。"
  const ContextHeader: string := "資料如下：\n"
  const ReasoningHeader: string := "以下是你對問題的邏輯推理：\n"
  const AskForFinalAnswer: string := "請根據這些推理，給出最終答案。"

  /**
   * Why the chain could not produce a result: it was built without a
   * retriever (composing `None` into a runnable sequence raises `TypeError`),
   * or a prompt refused its input.
   */
  datatype ChainError = NoRetriever | PromptFailed(error: PromptError)

  /** `get_thought_prompt()`. */
  function ThoughtPrompt(): seq<Part> {
    [Fixed(System, ThoughtPersona), Slot(System, ContextHeader, "context"),
     Placeholder("chat_history"), Slot(Human, "", "question")]
  }

  /** `get_final_answer_prompt()`. */
  function FinalAnswerPrompt(): seq<Part> {
    [Slot(System, ReasoningHeader, "thought"), Fixed(Human, AskForFinalAnswer)]
  }

  /** The stage-1 messages: persona, context, history, then the question. */
  function ThoughtMessages(context: string, input: ChainInput): seq<Message> {
    [Message(System, ThoughtPersona), Message(System, ContextHeader + context)]
      + input.chatHistory + [Message(Human, input.question)]
  }

  /** The stage-2 messages: the reasoning under its header, then the fixed request. */
  function FinalAnswerMessages(thought: string): seq<Message> {
    [Message(System, ReasoningHeader + thought), Message(Human, AskForFinalAnswer)]
  }

  /** The `context` branch: the retriever is asked the question alone. */
  function Context(retriever: Retriever, input: ChainInput): string {
    FormatDocs(retriever(input.question))
  }

  function ThoughtBindings(retriever: Retriever, input: ChainInput): map<string, Value> {
    map["context" := Text(Context(retriever, input)),
        "question" := Text(input.question),
        "chat_history" := MessageList(input.chatHistory)]
  }

  /** `step1_chain`. */
  function StepOne(llm1: Llm, retriever: Retriever, input: ChainInput): Result<string, PromptError> {
    RunPrompt(ThoughtPrompt(), ThoughtBindings(retriever, input), llm1)
  }

  /** `step2_chain`: `chat_history` is bound but the template does not use it. */
  function StepTwo(llm1: Llm, llm2: Llm, retriever: Retriever, input: ChainInput): Result<string, PromptError> {
    var thought := StepOne(llm1, retriever, input);
    if thought.Failure? then thought
    else
      RunPrompt(FinalAnswerPrompt(),
        map["thought" := Text(thought.value), "chat_history" := MessageList(input.chatHistory)], llm2)
  }

  /** `get_rag_cot_chain(llm1, llm2, retriever, use_cot)`, then `.invoke(input)`. */
  function Invoke(llm1: Llm, llm2: Llm, retriever: Option<Retriever>, useCot: bool, input: ChainInput)
    : (r: Result<ChainOutput, ChainError>)
    ensures r == Failure(NoRetriever) <==> retriever.None?
    ensures r.Success? && useCot ==> r.value.Fields? && r.value.fields.Keys == {"thought", "final_answer"}
    ensures r.Success? && !useCot ==> r.value.Answer?
  {
    if retriever.None? then Failure(NoRetriever)
    else
      var final := StepTwo(llm1, llm2, retriever.value, input);
      if !useCot then
        if final.Failure? then Failure(PromptFailed(final.error)) else Success(Answer(final.value))
      else
        var thought := StepOne(llm1, retriever.value, input);
        if thought.Failure? then Failure(PromptFailed(thought.error))
        else if final.Failure? then Failure(PromptFailed(final.error))
        else Success(Fields(map["thought" := thought.value, "final_answer" := final.value]))
  }

  /** Stage 1 shows `llm_step1` persona, retrieved context, history and question, in that order. */
  lemma StepOnePrompt(llm1: Llm, retriever: Retriever, input: ChainInput)
    ensures StepOne(llm1, retriever, input) == Success(llm1(ThoughtMessages(Context(retriever, input), input)))
  {
    var b := ThoughtBindings(retriever, input);
    RenderFour(Fixed(System, ThoughtPersona), Slot(System, ContextHeader, "context"),
      Placeholder("chat_history"), Slot(Human, "", "question"), b);
    FormatWellBound(ThoughtPrompt(), b);
    assert "" + input.question == input.question;
    var context := Context(retriever, input);
    assert Rendered(Slot(Human, "", "question"), b) == [Message(Human, input.question)];
    assert Rendered(Slot(System, ContextHeader, "context"), b) == [Message(System, ContextHeader + context)];
    assert [Message(System, ThoughtPersona)] + [Message(System, ContextHeader + context)]
        == [Message(System, ThoughtPersona), Message(System, ContextHeader + context)];
  }

  /** Stage 2 shows `llm_step2` the reasoning and the request, whatever the history. */
  lemma FinalAnswerPromptFormat(thought: string, history: seq<Message>)
    ensures Format(FinalAnswerPrompt(), map["thought" := Text(thought), "chat_history" := MessageList(history)])
         == Success(FinalAnswerMessages(thought))
  {
    var b := map["thought" := Text(thought), "chat_history" := MessageList(history)];
    RenderTwo(Slot(System, ReasoningHeader, "thought"), Fixed(Human, AskForFinalAnswer), b);
    FormatWellBound(FinalAnswerPrompt(), b);
    assert [Message(System, ReasoningHeader + thought)] + [Message(Human, AskForFinalAnswer)]
        == FinalAnswerMessages(thought);
  }

  /**
   * With a retriever the chain never fails: the thought is `llm_step1` on the
   * context of the question, the final answer is `llm_step2` on that thought;
   * `use_cot` decides whether the thought is returned too.
   */
  lemma InvokeResult(llm1: Llm, llm2: Llm, retriever: Retriever, useCot: bool, input: ChainInput)
    ensures var thought := llm1(ThoughtMessages(Context(retriever, input), input));
      var final := llm2(FinalAnswerMessages(thought));
      Invoke(llm1, llm2, Some(retriever), useCot, input)
        == if useCot then Success(Fields(map["thought" := thought, "final_answer" := final]))
           else Success(Answer(final))
  {
    StepOnePrompt(llm1, retriever, input);
    FinalAnswerPromptFormat(llm1(ThoughtMessages(Context(retriever, input), input)), input.chatHistory);
  }

  /** A retrieval that finds nothing leaves the context message with its header alone. */
  lemma EmptyRetrieval(retriever: Retriever, input: ChainInput)
    requires retriever(input.question) == []
    ensures ThoughtMessages(Context(retriever, input), input)[1] == Message(System, ContextHeader)
  {
    assert ContextHeader + "" == ContextHeader;
  }
}
