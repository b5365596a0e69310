/**
 * `backend/app/chains/cot_chain.py`: a two-stage chain of thought. Stage 1
 * asks `llm_step1` to reason about the question in the light of the chat
 * history; stage 2 shows that reasoning to `llm_step2` and asks for a final
 * answer. The chain returns both, under the keys `thought` and
 * `final_answer`.
 *
 * As written, stage 1 binds both `question` and `chat_history` to the whole
 * chain input (`RunnablePassthrough()`), so the history placeholder receives
 * a mapping instead of a list of messages and formatting is refused. The
 * members ending in `AsWritten` model that code; the others bind each slot
 * to its own field of the input, which is what the prompt evidently expects.
 */
module CotChain {
  import opened Wrappers
  import opened Schema
  import opened Prompts

  const ThoughtPersona: string := "你是一位善於邏輯推理的 AI 助手，請依據歷史對話與提問逐步推理。"
  const ReasoningShown: string := "你已完成對問題的推理，以下是你的思考過程："
  const AskForFinalAnswer: string := "請根據這些推理內容，給出最終明確的答案。"

  /** `get_thought_prompt()`. */
  function ThoughtPrompt(): seq<Part> {
    [Fixed(System, ThoughtPersona), Placeholder("chat_history"), Slot(Human, "", "question")]
  }

  /** `get_final_answer_prompt()`. */
  function FinalAnswerPrompt(): seq<Part> {
    [Fixed(System, ReasoningShown), Slot(Human, "", "thought"), Fixed(System, AskForFinalAnswer)]
  }

  /** The stage-1 messages: persona, the history, then the question. */
  function ThoughtMessages(input: ChainInput): seq<Message> {
    [Message(System, ThoughtPersona)] + input.chatHistory + [Message(Human, input.question)]
  }

  /** The stage-2 messages: the reasoning, verbatim, between two fixed instructions. */
  function FinalAnswerMessages(thought: string): seq<Message> {
    [Message(System, ReasoningShown), Message(Human, thought), Message(System, AskForFinalAnswer)]
  }

  // ---------------------------------------------------------------------------
  // As written: both slots receive the whole input

  function PassthroughBindings(input: ChainInput): map<string, Value> {
    map["question" := WholeInput(input), "chat_history" := WholeInput(input)]
  }

  /** `step1_chain` as written. */
  function StepOneAsWritten(llm1: Llm, input: ChainInput): Result<string, PromptError> {
    RunPrompt(ThoughtPrompt(), PassthroughBindings(input), llm1)
  }

  /** `get_cot_chain(llm1, llm2).invoke(input)` as written. */
  function InvokeAsWritten(llm1: Llm, llm2: Llm, input: ChainInput): Result<ChainOutput, PromptError> {
    var thought := StepOneAsWritten(llm1, input);
    if thought.Failure? then Failure(thought.error)
    else
      var final := RunPrompt(FinalAnswerPrompt(), map["thought" := Text(thought.value)], llm2);
      if final.Failure? then Failure(final.error)
      else Success(Fields(map["thought" := thought.value, "final_answer" := final.value]))
  }

  /** As written, the history placeholder always refuses its value, whatever the input. */
  lemma AsWrittenAlwaysFails(llm1: Llm, llm2: Llm, input: ChainInput)
    ensures InvokeAsWritten(llm1, llm2, input) == Failure(NotAMessageList("chat_history"))
  {
    var t := ThoughtPrompt();
    var b := PassthroughBindings(input);
    assert t[1..] == [Placeholder("chat_history"), Slot(Human, "", "question")];
    assert t[1..][1..] == [Slot(Human, "", "question")];
    assert t[1..][1..][1..] == [];
    assert Variables(t) == {"chat_history", "question"};
    assert FormatPart(t[1..][0], b) == Failure(NotAMessageList("chat_history"));
    assert FormatParts(t[1..], b) == Failure(NotAMessageList("chat_history"));
  }

  // ---------------------------------------------------------------------------
  // Each slot bound to its own field

  function FieldBindings(input: ChainInput): map<string, Value> {
    map["question" := Text(input.question), "chat_history" := MessageList(input.chatHistory)]
  }

  /** `step1_chain`: the reasoning `llm_step1` produces. */
  function StepOne(llm1: Llm, input: ChainInput): Result<string, PromptError> {
    RunPrompt(ThoughtPrompt(), FieldBindings(input), llm1)
  }

  /** `step2_chain`: it runs stage 1 again and feeds its output to `llm_step2`. */
  function StepTwo(llm1: Llm, llm2: Llm, input: ChainInput): Result<string, PromptError> {
    var thought := StepOne(llm1, input);
    if thought.Failure? then thought
    else RunPrompt(FinalAnswerPrompt(), map["thought" := Text(thought.value)], llm2)
  }

  /** `get_cot_chain(llm1, llm2).invoke(input)`: both stages, side by side. */
  function Invoke(llm1: Llm, llm2: Llm, input: ChainInput): (r: Result<ChainOutput, PromptError>)
    ensures r.Success? ==> r.value.Fields? && r.value.fields.Keys == {"thought", "final_answer"}
  {
    var thought := StepOne(llm1, input);
    var final := StepTwo(llm1, llm2, input);
    if thought.Failure? then Failure(thought.error)
    else if final.Failure? then Failure(final.error)
    else Success(Fields(map["thought" := thought.value, "final_answer" := final.value]))
  }

  /** Stage 1 shows `llm_step1` the persona, the history and then the question. */
  lemma StepOnePrompt(llm1: Llm, input: ChainInput)
    ensures StepOne(llm1, input) == Success(llm1(ThoughtMessages(input)))
  {
    var b := FieldBindings(input);
    RenderThree(Fixed(System, ThoughtPersona), Placeholder("chat_history"), Slot(Human, "", "question"), b);
    FormatWellBound(ThoughtPrompt(), b);
    assert "" + input.question == input.question;
  }

  /** Stage 2 shows `llm_step2` only the reasoning, verbatim, and no history. */
  lemma FinalAnswerPromptFormat(thought: string)
    ensures Format(FinalAnswerPrompt(), map["thought" := Text(thought)]) == Success(FinalAnswerMessages(thought))
  {
    var b := map["thought" := Text(thought)];
    RenderThree(Fixed(System, ReasoningShown), Slot(Human, "", "thought"), Fixed(System, AskForFinalAnswer), b);
    FormatWellBound(FinalAnswerPrompt(), b);
    assert "" + thought == thought;
    assert Rendered(Slot(Human, "", "thought"), b) == [Message(Human, thought)];
    assert [Message(System, ReasoningShown)] + [Message(Human, thought)] + [Message(System, AskForFinalAnswer)]
        == FinalAnswerMessages(thought);
  }

  /**
   * The chain never fails once each slot has its own field; `thought` is what
   * `llm_step1` says about the history and question, and `final_answer` is what
   * `llm_step2` says about that same thought. The two agree only because the
   * models are deterministic functions here: stage 1 runs twice.
   */
  lemma InvokeResult(llm1: Llm, llm2: Llm, input: ChainInput)
    ensures var thought := llm1(ThoughtMessages(input));
      Invoke(llm1, llm2, input)
        == Success(Fields(map["thought" := thought, "final_answer" := llm2(FinalAnswerMessages(thought))]))
  {
    StepOnePrompt(llm1, input);
    FinalAnswerPromptFormat(llm1(ThoughtMessages(input)));
  }

  /** The final answer depends on the history and the question only through the thought. */
  lemma FinalAnswerThroughThought(llm1: Llm, llm2: Llm, a: ChainInput, b: ChainInput)
    requires llm1(ThoughtMessages(a)) == llm1(ThoughtMessages(b))
    ensures StepTwo(llm1, llm2, a) == StepTwo(llm1, llm2, b)
  {
    StepOnePrompt(llm1, a);
    StepOnePrompt(llm1, b);
  }
}
