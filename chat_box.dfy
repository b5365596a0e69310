/**
 * The state of `frontend/src/components/ChatBox.tsx` and its submit handler.
 * A non-blank input is appended as a user message and cleared; the request
 * goes to the agent endpoint exactly when a plugin is enabled, carrying only
 * the enabled plugins; the reply then adds one AI message: a warning for an
 * empty answer, the whole answer, or the concatenation of the chunks
 * streamed so far, replaced after every chunk. The network call is the
 * function `send`; the options panel's handlers act on the same state.
 */
module ChatBox {
  import opened Wrappers
  import opened Text
  import opened Schema
  import OptionsPanel
  import Agent

  datatype Sender = User | Ai
  datatype ChatMessage = ChatMessage(role: Sender, content: string)

  /** The `options` object of `handleSubmit`. */
  datatype Options = Options(
    question: string,
    model: string,
    useCot: bool,
    useRag: bool,
    pluginDetail: seq<PluginDetail>,
    selectedFiles: seq<string>)

  datatype Endpoint = AskEndpoint | AgentEndpoint
  datatype Request = Request(endpoint: Endpoint, options: Options)

  /**
   * What the API helper's promise settles to: `undefined` (an event stream
   * whose response has no body), a whole answer, the chunks of a streamed
   * answer, or a rejection (the `fetch` failed), which ends `handleSubmit`
   * before any AI message is added.
   */
  datatype Reply = NoReply | FullText(text: string) | Streamed(chunks: seq<string>) | Rejected

  const WarningText: string := "⚠️ Unable to retrieve AI response. Please try again later."
  const DefaultModel: string := "openai"

  /** `pluginDetail.filter((p) => p.enable)`. */
  function EnabledPlugins(plugins: seq<PluginDetail>): (r: seq<PluginDetail>)
    ensures forall i :: 0 <= i < |r| ==> r[i].enable
    ensures |r| <= |plugins|
    decreases |plugins|
  {
    if |plugins| == 0 then []
    else
      var n := |plugins| - 1;
      EnabledPlugins(plugins[..n]) + if plugins[n].enable then [plugins[n]] else []
  }

  /** The request `handleSubmit` sends for a question and the current state. */
  function RequestFor(question: string, model: string, useCot: bool, useRag: bool,
                      plugins: seq<PluginDetail>, selectedFiles: seq<string>): (req: Request)
    ensures req.endpoint == AgentEndpoint <==> OptionsPanel.AnyEnabled(plugins)
    ensures req.options.question == question && req.options.selectedFiles == selectedFiles
    ensures req.options.model == model && req.options.useCot == useCot && req.options.useRag == useRag
    ensures req.options.pluginDetail == EnabledPlugins(plugins)
    ensures forall p :: p in req.options.pluginDetail <==> p in plugins && p.enable
  {
    var endpoint := if OptionsPanel.AnyEnabled(plugins) then AgentEndpoint else AskEndpoint;
    assert forall p :: p in EnabledPlugins(plugins) <==> p in plugins && p.enable by {
      forall p
        ensures p in EnabledPlugins(plugins) <==> p in plugins && p.enable
      {
        EnabledPluginsExact(plugins, p);
      }
    }
    Request(endpoint, Options(question, model, useCot, useRag, EnabledPlugins(plugins), selectedFiles))
  }

  /** The AI messages a reply adds after the user message once it has been consumed. */
  function ReplyMessages(reply: Reply): (r: seq<ChatMessage>)
    ensures |r| <= 1
    ensures forall i :: 0 <= i < |r| ==> r[i].role == Ai
    ensures r == [] <==> reply == Streamed([]) || reply.Rejected?
    ensures reply.NoReply? || reply == FullText("") ==> r == [ChatMessage(Ai, WarningText)]
    ensures reply.FullText? && reply.text != "" ==> r == [ChatMessage(Ai, reply.text)]
    ensures reply.Streamed? && reply.chunks != [] ==> r == [ChatMessage(Ai, Concat(reply.chunks))]
  {
    match reply
    case Rejected => []
    case NoReply => [ChatMessage(Ai, WarningText)]
    case FullText(text) => if text == "" then [ChatMessage(Ai, WarningText)] else [ChatMessage(Ai, text)]
    case Streamed(chunks) => if chunks == [] then [] else [ChatMessage(Ai, Concat(chunks))]
  }

  /** A plugin is sent exactly when it is in the panel and enabled. */
  lemma {:induction false} EnabledPluginsExact(plugins: seq<PluginDetail>, p: PluginDetail)
    ensures p in EnabledPlugins(plugins) <==> p in plugins && p.enable
    decreases |plugins|
  {
    if |plugins| > 0 {
      var n := |plugins| - 1;
      EnabledPluginsExact(plugins[..n], p);
      assert plugins == plugins[..n] + [plugins[n]];
    }
  }

  lemma SelectedToolsSnoc(items: seq<PluginDetail>, item: PluginDetail)
    ensures Agent.SelectedTools(items + [item])
         == Agent.SelectedTools(items) + if item.enable && item.toolName in Agent.Registry then [item.toolName] else []
  {
    assert (items + [item])[..|items|] == items;
  }

  /** Sending only the enabled plugins gives the agent route the same tools. */
  lemma {:induction false} AgentSeesSameTools(plugins: seq<PluginDetail>)
    ensures Agent.SelectedTools(EnabledPlugins(plugins)) == Agent.SelectedTools(plugins)
    decreases |plugins|
  {
    if |plugins| > 0 {
      var n := |plugins| - 1;
      var init := plugins[..n];
      var last := plugins[n];
      assert plugins == init + [last];
      AgentSeesSameTools(init);
      SelectedToolsSnoc(init, last);
      if last.enable {
        assert EnabledPlugins(plugins) == EnabledPlugins(init) + [last];
        SelectedToolsSnoc(EnabledPlugins(init), last);
      } else {
        assert EnabledPlugins(plugins) == EnabledPlugins(init) + [] == EnabledPlugins(init);
        assert Agent.SelectedTools(init + [last]) == Agent.SelectedTools(init) + [] == Agent.SelectedTools(init);
      }
    }
  }

  /** Each streamed chunk extends the shown answer by exactly that chunk. */
  lemma StreamExtendsAnswer(chunks: seq<string>, chunk: string)
    requires chunks != []
    ensures ReplyMessages(Streamed(chunks + [chunk]))
         == [ChatMessage(Ai, ReplyMessages(Streamed(chunks))[0].content + chunk)]
  {
    ConcatSnoc(chunks, chunk);
  }

  class ChatBox {
    var messages: seq<ChatMessage>
    var userInput: string
    var model: string
    var useCot: bool
    var useRag: bool
    var pluginDetail: seq<PluginDetail>
    var selectedFiles: seq<string>

    /**
     * The effects have run: `useRag` follows the file selection, and
     * Chain-of-Thought is off while a plugin is enabled.
     */
    predicate Valid()
      reads this
    {
      (useRag <==> |selectedFiles| > 0)
      && (OptionsPanel.AnyEnabled(pluginDetail) ==> !useCot)
    }

    constructor()
      ensures Valid()
      ensures messages == [] && userInput == "" && model == DefaultModel
      ensures !useCot && !useRag && pluginDetail == [] && selectedFiles == []
    {
      messages := [];
      userInput := "";
      model := DefaultModel;
      useCot := false;
      useRag := false;
      pluginDetail := [];
      selectedFiles := [];
    }

    /** The options panel's effect on the plugin list and the Chain-of-Thought flag. */
    method RunOptionsEffect()
      modifies this
      ensures OptionsPanel.Panel(pluginDetail, useCot)
           == OptionsPanel.Effect(OptionsPanel.Panel(old(pluginDetail), old(useCot)))
      ensures OptionsPanel.AnyEnabled(pluginDetail) ==> !useCot
      ensures messages == old(messages) && userInput == old(userInput) && model == old(model)
      ensures useRag == old(useRag) && selectedFiles == old(selectedFiles)
    {
      var panel := OptionsPanel.Effect(OptionsPanel.Panel(pluginDetail, useCot));
      OptionsPanel.EffectExcludesCotWithPlugins(OptionsPanel.Panel(pluginDetail, useCot));
      pluginDetail := panel.plugins;
      useCot := panel.useCot;
    }

    /** A click on a plugin's checkbox, followed by the effect it triggers. */
    method OnPluginToggle(id: int)
      requires Valid()
      modifies this
      ensures Valid()
      ensures OptionsPanel.Panel(pluginDetail, useCot)
           == OptionsPanel.Effect(OptionsPanel.Panel(OptionsPanel.TogglePlugin(old(pluginDetail), id), old(useCot)))
      ensures messages == old(messages) && userInput == old(userInput) && model == old(model)
      ensures selectedFiles == old(selectedFiles)
    {
      pluginDetail := OptionsPanel.TogglePlugin(pluginDetail, id);
      RunOptionsEffect();
    }

    /** A click on the Chain-of-Thought checkbox; it does nothing while the box is disabled. */
    method OnCotToggle()
      requires Valid()
      modifies this
      ensures Valid()
      ensures useCot == (if OptionsPanel.CotCheckboxDisabled(pluginDetail) then old(useCot) else !old(useCot))
      ensures pluginDetail == old(pluginDetail) && selectedFiles == old(selectedFiles)
      ensures messages == old(messages) && userInput == old(userInput) && model == old(model)
    {
      if !OptionsPanel.CotCheckboxDisabled(pluginDetail) {
        useCot := !useCot;
      }
    }

    /** A click on a file's checkbox, followed by the `useRAG` effect. */
    method OnFileToggle(path: string)
      requires Valid()
      modifies this
      ensures Valid()
      ensures selectedFiles == OptionsPanel.ToggleFile(old(selectedFiles), path)
      ensures useRag == (|selectedFiles| > 0)
      ensures pluginDetail == old(pluginDetail) && useCot == old(useCot)
      ensures messages == old(messages) && userInput == old(userInput) && model == old(model)
    {
      selectedFiles := OptionsPanel.ToggleFile(selectedFiles, path);
      if |selectedFiles| > 0 {
        useRag := true;
      } else {
        useRag := false;
      }
    }

    /** Typing into the text area. */
    method OnInput(text: string)
      modifies this
      ensures userInput == text
      ensures messages == old(messages) && model == old(model) && useCot == old(useCot)
      ensures useRag == old(useRag) && pluginDetail == old(pluginDetail) && selectedFiles == old(selectedFiles)
    {
      userInput := text;
    }

    /**
     * `handleSubmit`. Returns the request sent, if any; `send` stands for
     * `askAgent` and `askQuestion`.
     */
    method HandleSubmit(send: Request -> Reply) returns (sent: Option<Request>)
      requires Valid()
      modifies this
      ensures Valid()
      ensures model == old(model) && useCot == old(useCot) && useRag == old(useRag)
      ensures pluginDetail == old(pluginDetail) && selectedFiles == old(selectedFiles)
      ensures Strip(JavaScript, old(userInput)) == "" ==>
        sent == None && messages == old(messages) && userInput == old(userInput)
      ensures Strip(JavaScript, old(userInput)) != "" ==>
        sent == Some(RequestFor(old(userInput), model, useCot, useRag, pluginDetail, selectedFiles))
        && userInput == ""
        && messages == old(messages) + [ChatMessage(User, old(userInput))] + ReplyMessages(send(sent.value))
    {
      if Strip(JavaScript, userInput) == "" {
        return None;
      }
      var newMessages := messages + [ChatMessage(User, userInput)];
      messages := newMessages;
      var question := userInput;
      userInput := "";

      var request := RequestFor(question, model, useCot, useRag, pluginDetail, selectedFiles);
      sent := Some(request);
      var result := send(request);
      if result.Rejected? {
        return;
      }

      if result.NoReply? || (result.FullText? && result.text == "") {
        messages := newMessages + [ChatMessage(Ai, WarningText)];
        return;
      }

      var aiResponse := "";
      if result.FullText? {
        aiResponse := aiResponse + result.text;
        assert aiResponse == result.text;
        messages := newMessages + [ChatMessage(Ai, aiResponse)];
      } else {
        var chunks := result.chunks;
        for i := 0 to |chunks|
          invariant aiResponse == Concat(chunks[..i])
          invariant messages == newMessages + if i == 0 then [] else [ChatMessage(Ai, aiResponse)]
          invariant userInput == "" && model == old(model) && useCot == old(useCot) && useRag == old(useRag)
          invariant pluginDetail == old(pluginDetail) && selectedFiles == old(selectedFiles)
        {
          ConcatSnoc(chunks[..i], chunks[i]);
          assert chunks[..i + 1] == chunks[..i] + [chunks[i]];
          aiResponse := aiResponse + chunks[i];
          messages := newMessages + [ChatMessage(Ai, aiResponse)];
        }
        assert chunks[..|chunks|] == chunks;
      }
    }
  }

  /** A request sent to the agent never asks for Chain-of-Thought once the effects have run. */
  lemma AgentRequestsWithoutCot(question: string, model: string, useCot: bool, useRag: bool,
                                plugins: seq<PluginDetail>, selectedFiles: seq<string>)
    requires OptionsPanel.AnyEnabled(plugins) ==> !useCot
    ensures var req := RequestFor(question, model, useCot, useRag, plugins, selectedFiles);
      req.endpoint == AgentEndpoint ==> !req.options.useCot
  {
  }
}
