# AI chat room: the deterministic core, modelled in Dafny

The chat room is a FastAPI backend and a React frontend. The backend answers
questions through LangChain pipelines, optionally grounded in uploaded files
(RAG), optionally in two stages (chain of thought, CoT), or through a ReAct
agent with plugins. This project models the rules the glue code applies
around the language models. It covers:

- which pipeline `/ask` builds from `use_cot` and `use_rag`;
- the prompts it assembles, as sequences of (role, text) messages;
- how the two CoT stages are composed and rendered;
- what is saved to a session's history;
- the model and plugin checks of `/agent`, and the agent's input and output stream;
- the loader's extension dispatch and document shaping;
- the upload renaming loop;
- the web-search result formatting;
- the file listing;
- the frontend's options panel and submit handler.

Every language model, retriever, embedding index, agent executor, file read,
file write and network call is a function-typed parameter. The model
assumes only that each is a total, deterministic function of its
arguments; "## Left out" says what that leaves out.

One module per source file:

- `LlmProvider`, `CotChain`, `RagCotChain`, `RagPrompt`, `Ask`, `Agent`,
  `Upload`, `Loader`, `WebSearch`, `Files`, `OptionsPanel` and `ChatBox`
  model the corresponding files.
- `SessionMemory` models the session key and the history store.
- `Prompts` models `ChatPromptTemplate` and `MessagesPlaceholder`.
- `Schema` holds messages, documents and plugin records.
- `Text` holds the string operations used: `join`, `strip`, `lower`,
  `os.path.splitext`, `basename` and `replace`.
- `Wrappers` holds `Option` and `Result`.

Code that mutates state is imperative Dafny:

- The upload loop is a `while` loop with an invariant and a `decreases`
  clause.
- The loaders, the tool selection, the agent stream filter, the document
  accumulation in `/ask` and the search formatting are `for` loops. Each is
  proved equal to a specification function.
- The session histories live in the class `SessionStore`.
- The upload directory lives in the class `UploadDirectory`.
- The chat view lives in the class `ChatBox`. Its `HandleSubmit` replaces
  the AI message after every streamed chunk.

## Model

| member | source | states |
|---|---|---|
| LlmProvider.GetLlm | backend/app/llm_provider.py:9-41 | fails with `Unsupported model` exactly for names other than openai/ollama; returns a callback iff streaming, and the streaming model carries exactly that callback; openai is gpt-4o-mini at temperature 0, ollama is llama3.2 |
| LlmProvider.GetLlmDefaults | backend/app/llm_provider.py:9 | the defaults select OpenAI without streaming and return no callback |
| LlmProvider.StreamingKeepsModel | backend/app/llm_provider.py:10-39 | the streaming flag changes only `streaming` and the callbacks, never the provider or model |
| RagPrompt.FormatDocs | backend/app/prompt/rag_prompt.py:3-5 | no documents give `""`, one document gives exactly its content, and the first content starts the output |
| RagPrompt.Contents | backend/app/prompt/rag_prompt.py:5 | the i-th content is the i-th document's `page_content` |
| RagPrompt.FormatDocsSnoc | backend/app/prompt/rag_prompt.py:5 | one more document appends `"\n\n"` and its content |
| RagPrompt.FormatDocsAppend | backend/app/prompt/rag_prompt.py:5 | formatting two non-empty lists is formatting each, joined by one separator |
| RagPrompt.FormatDocsLength | backend/app/prompt/rag_prompt.py:5 | the length is the sum of the contents plus exactly n−1 separators |
| RagPrompt.FormatDocsContains | backend/app/prompt/rag_prompt.py:3-5 | every document's content occurs verbatim in the output |
| Prompts.RunPrompt | backend/app/routes/ask.py:74-78 | `prompt \| llm \| StrOutputParser()`: with every slot bound to a text and every placeholder to a message list, the answer is the model's reply to the messages rendered part by part; unbound variables fail with exactly the set of unbound names; otherwise the first placeholder bound to something other than a message list fails with its name |
| Prompts.FormatWellBound | backend/app/routes/ask.py:69-73 | a template whose slots are bound to texts and placeholders to message lists formats without error, part by part in order |
| CotChain.InvokeAsWritten | backend/app/chains/cot_chain.py:23-41 | the chain as written: both slots bound to the whole input |
| CotChain.AsWrittenAlwaysFails | backend/app/chains/cot_chain.py:27-30 | as written, every input fails: `chat_history` is not a list of messages |
| CotChain.Invoke | backend/app/chains/cot_chain.py:38-41 | a successful result has exactly the keys `thought` and `final_answer` |
| CotChain.StepOnePrompt | backend/app/chains/cot_chain.py:7-12 | stage 1 asks `llm_step1` with system persona, the history, then the human question |
| CotChain.FinalAnswerPromptFormat | backend/app/chains/cot_chain.py:15-20 | the final-answer prompt is the thought verbatim as the human message between two fixed system messages, without history |
| CotChain.InvokeResult | backend/app/chains/cot_chain.py:33-41 | `thought` is `llm_step1`'s reply; `final_answer` is `llm_step2`'s reply to the final-answer prompt built from that same thought |
| CotChain.FinalAnswerThroughThought | backend/app/chains/cot_chain.py:33-35 | stage 2 depends on the input only through stage 1's reply |
| RagCotChain.Invoke | backend/app/chains/rag_cot_chain.py:23-47 | fails with no retriever exactly when it is `None`; with `use_cot` the result has exactly the two keys, without it only the stage-2 string |
| RagCotChain.StepOnePrompt | backend/app/chains/rag_cot_chain.py:7-13 | stage 1 asks `llm_step1` with persona, `資料如下：\n` + context, history, question; the context is the documents retrieved for the question field, joined by `"\n\n"` |
| RagCotChain.FinalAnswerPromptFormat | backend/app/chains/rag_cot_chain.py:16-20 | the thought is in the system message and the human instruction is fixed; the bound history is not used |
| RagCotChain.InvokeResult | backend/app/chains/rag_cot_chain.py:29-47 | the exact result for both values of `use_cot`, in terms of the two models and the retrieved context |
| RagCotChain.EmptyRetrieval | backend/app/chains/rag_cot_chain.py:26-30 | an empty retrieval gives the bare context header, not an error |
| SessionMemory.SessionKey | backend/app/memory/file_memory.py:6 | the key ends in `.json` and before it is the session id, or `None` when the header is absent |
| SessionMemory.SessionKeyInjective | backend/app/memory/file_memory.py:6 | distinct session ids give distinct history file names |
| SessionMemory.AbsentHeaderSharesHistory | backend/app/routes/ask.py:81 | a request without the header shares the history of session id `None` |
| SessionMemory.SessionStore.constructor | backend/app/memory/file_memory.py:5 | no session has a history yet |
| SessionMemory.SessionStore.AddMessages | backend/app/routes/ask.py:109-113 | `add_messages` appends to the key's history and leaves every other key's history unchanged |
| Ask.SelectShape | backend/app/routes/ask.py:50-78 | each of the four flag combinations selects exactly one pipeline, CoT checked first |
| Ask.HandlerAttachedOnlyWhenStreaming | backend/app/routes/ask.py:31 | the model streams iff `use_cot` is false; the config's callbacks are empty iff `use_cot`, and never hold a missing handler |
| Ask.PlainChatPromptFormat | backend/app/routes/ask.py:69-73 | the plain prompt is persona, history, then the question |
| Ask.RagChatPromptFormat | backend/app/routes/ask.py:55-61 | the RAG prompt is persona, `Reference Information:\n` + the documents retrieved for the question, history, then the question |
| Ask.RenderThoughtAndAnswer | backend/app/routes/ask.py:102-107 | a result with both keys renders as `[Thought]\n`+thought+`\n\n` followed by `[Final Answer]\n`+answer+`\n` |
| Ask.RenderNoFields | backend/app/routes/ask.py:102-107 | a mapping with neither key renders as the empty string |
| Ask.Loads | backend/app/routes/ask.py:37-39 | one load result per selected path, in order |
| Ask.CollectSucceeds | backend/app/routes/ask.py:37-39 | loading succeeds iff every file loads |
| Ask.CollectFirstError | backend/app/routes/ask.py:37-39 | the first file that fails decides the error |
| Ask.CollectFailureSticks | backend/app/routes/ask.py:37-39 | once a prefix fails, later files change nothing |
| Ask.LoadAllSucceeds | backend/app/routes/ask.py:37-39 | loading the selection succeeds iff every path has a supported extension |
| Ask.RetrieverFor | backend/app/routes/ask.py:41-48 | a retriever exists iff the loaded documents are non-empty |
| Ask.Respond | backend/app/routes/ask.py:28-131 | config failure iff the model is unsupported; the no-retriever error iff `use_rag` is set and no document was loaded; a plain-text answer iff `use_cot` |
| Ask.LoadErrorFailsEveryShape | backend/app/routes/ask.py:36-39 | files are loaded whatever `use_rag` says, and a failing file fails every pipeline |
| Ask.PlainChatStreams | backend/app/routes/ask.py:68-78 | without flags the response streams the model's chunks for the plain prompt |
| Ask.RagChatStreams | backend/app/routes/ask.py:54-67 | with RAG only, the response streams the chunks for the RAG prompt |
| Ask.CotChatFails | backend/app/routes/ask.py:52-53 | with CoT only, a supported model and files that load, the response is always the error that `chat_history` is not a list of messages, so `Ask.Ask` saves nothing |
| Ask.IntendedCotChatAnswers | backend/app/routes/ask.py:52-53 | with each slot of the CoT chain bound to its own field, the CoT-only answer would be the rendered thought and final answer |
| Ask.RagCotChatAnswers | backend/app/routes/ask.py:50-51 | with both flags, the response is the rendered thought and answer of the RAG chain |
| Ask.LoadSelected | backend/app/routes/ask.py:36-39 | the accumulation loop yields the specified load result |
| Ask.RenderOutput | backend/app/routes/ask.py:102-107 | building `output` field by field yields the specified rendering |
| Ask.PassChunks | backend/app/routes/ask.py:126-128 | the stream passes the chunks on in order, unchanged |
| Ask.RunPipeline | backend/app/routes/ask.py:99-131 | the response is the selected pipeline's on the session's history; on CoT success exactly Human(question) then AI(body) are appended, otherwise the history is untouched |
| Ask.Ask | backend/app/routes/ask.py:28-131 | the route's response is `Respond` on the old history, with the same history effect |
| Agent.AgentModel | backend/app/routes/agent.py:61-66 | unsupported names fail with `Unsupported model`; supported ones give a streaming model without callbacks |
| Agent.AgentModelAgreesWithProvider | backend/app/routes/agent.py:61-66 | the agent's model check accepts exactly what `get_llm` accepts, with the same provider and model |
| Agent.SelectedToolsMembership | backend/app/routes/agent.py:69-74 | a tool is selected iff the registry has it and some enabled plugin names it |
| Agent.SelectedToolsBounds | backend/app/routes/agent.py:69-74 | at most one tool per plugin item, all from the registry |
| Agent.SelectTools | backend/app/routes/agent.py:69-74 | the selection loop yields the specified tools, in plugin order |
| Agent.AgentInput | backend/app/routes/agent.py:96-99 | an empty context gives the bare question; otherwise the input starts with `以下是相關資料：\n` + context and ends with `\n\n問題：` + question |
| Agent.AgentInputDecomposes | backend/app/routes/agent.py:97 | the context and the question can be read back from their places in the prefixed input |
| Agent.StreamedOutputsShape | backend/app/routes/agent.py:114-120 | one emitted string per chunk carrying `output`, each a text with no Python whitespace at either end followed by `"\n\n"` |
| Agent.FormatStream | backend/app/routes/agent.py:114-120 | the filtering loop yields the specified strings |
| Agent.Setup | backend/app/routes/agent.py:58-74 | the agent runs on a streaming model without callbacks, with exactly the registry tools some enabled plugin item names |
| Agent.AgentRespond | backend/app/routes/agent.py:52-124 | config failure iff `body.get("model", "openai")` is neither openai nor ollama, a `null` model included; with an accepted model, a `null` `plugin_detail` fails as not iterable; a loader error iff RAG is on and loading the selected files fails, and then it is that error; otherwise the route streams the filtered outputs of running the agent (`Setup`) on the prepared input and the history |
| Agent.AgentPlainStreams | backend/app/routes/agent.py:100-124 | without RAG the route streams the agent's outputs on the bare question |
| Agent.AgentRagStreams | backend/app/routes/agent.py:83-124 | with RAG and files that load, the route streams the agent's outputs on `AgentInput(question, FormatDocs(index(model, docs)(question)))`, the documents retrieved for the question from an index over the loaded files |
| Agent.AgentLoadFails | backend/app/routes/agent.py:83-86 | with RAG and a selected file that fails to load, the route answers that loader error |
| Agent.PlainQuestionWithoutRag | backend/app/routes/agent.py:83-101 | unless `use_rag` is set and files are selected, the agent's input is the question |
| Agent.AgentAsk | backend/app/routes/agent.py:48-124 | the route's result is `AgentRespond` on the session's history |
| Loader.KindIgnoresCase | backend/app/utils/loader.py:44 | extensions that differ only in letter case dispatch alike |
| Loader.LoadTxt | backend/app/utils/loader.py:5-8 | a text file is one document: its whole text, with the base name as source |
| Loader.PdfDocumentsSound | backend/app/utils/loader.py:14-26 | every PDF document is a page whose text is not all Python whitespace, numbered index + 1, in increasing page order |
| Loader.PdfDocumentsComplete | backend/app/utils/loader.py:14-26 | every page whose text is not all Python whitespace yields its document |
| Loader.PdfDocumentsSource | backend/app/utils/loader.py:22 | every PDF document carries the base name as source |
| Loader.LoadPdf | backend/app/utils/loader.py:10-27 | the page loop yields the specified documents |
| Loader.CellLines | backend/app/utils/loader.py:34 | line i is column i's name, `: `, then cell i, one line per column |
| Loader.CsvDocuments | backend/app/utils/loader.py:33-40 | one document per row, with row number index + 1 and the base name as source |
| Loader.CsvCellAppears | backend/app/utils/loader.py:34 | each `column: value` of a row appears in its document |
| Loader.CsvRowStartsWithFirstColumn | backend/app/utils/loader.py:34 | a row's document starts with its first column's line |
| Loader.CsvDocumentAt | backend/app/utils/loader.py:34-38 | row i's document is the row's cell lines joined by newlines, numbered i + 1, with the base name as source |
| Loader.LoadCsv | backend/app/utils/loader.py:29-41 | the row loop yields the specified documents |
| Loader.FileDocuments | backend/app/utils/loader.py:43-52 | fails exactly for extensions other than .txt/.pdf/.csv (none included), with `Unsupported file type: ` + ext |
| Loader.FileDocumentsSource | backend/app/utils/loader.py:8 | every loaded document carries the base name as source |
| Loader.LoadFile | backend/app/utils/loader.py:43-52 | the dispatch method yields the specified result |
| Upload.CandidateLonger | backend/app/routes/upload.py:22 | a renamed candidate is longer than the original, so never equal to it |
| Upload.CandidateInjective | backend/app/routes/upload.py:22 | distinct counters give distinct candidates |
| Upload.IsUniqueNameDeterministic | backend/app/routes/upload.py:17-24 | the renaming rule determines exactly one name |
| Upload.CandidateNotTried | backend/app/routes/upload.py:21-23 | a candidate with counter k ≥ m was not tried before step m |
| Upload.GetUniqueFilename | backend/app/routes/upload.py:17-24 | the result is free; a free filename is kept; otherwise it is `base(k)ext` for the least free k ≥ 1 |
| Upload.UploadDirectory.constructor | backend/app/routes/upload.py:14 | the upload directory starts empty |
| Upload.Processed | backend/app/routes/upload.py:41-51 | success iff the saved file loads and its documents index; success carries the name; a load or index failure answers 500 with `Error processing file: ` + that error's message |
| Upload.Kept | backend/app/routes/upload.py:34-35 | the file holds a prefix of the upload: all of it when the copy finishes, otherwise exactly the bytes written before the error |
| Upload.UploadDirectory.UploadFile | backend/app/routes/upload.py:26-51 | the name is the unique one for the old directory; a failed `open` leaves the directory unchanged and answers 500 with `Error processing file: ` + its error; once opened, the name holds the bytes the copy wrote (all of them, or the prefix written before a write error); a write error answers 500 with `Error processing file: ` + that error; otherwise the answer is that of `Processed` |
| WebSearch.Shown | backend/app/tools/web_search_tool.py:29-32 | a present field prints verbatim, a missing one as its default (`No tiltle`, `No snippet`, `No link`), a `null` one as `None` |
| WebSearch.Entry | backend/app/tools/web_search_tool.py:28-32 | an entry starts with its number and `. ` |
| WebSearch.LayoutPieces | backend/app/tools/web_search_tool.py:32 | `n. t - s (l)` reads back as its four pieces (`LaidOut`): each sits in its place between `. `, ` - ` and ` (`, `)` ends it, and the length is exact |
| WebSearch.EntryFields | backend/app/tools/web_search_tool.py:28-32 | an entry is laid out (`LaidOut`) as its number, then the title, snippet and link each as shown, a missing one by its default |
| WebSearch.TopHits | backend/app/tools/web_search_tool.py:25 | at most the first three results, in order |
| WebSearch.FormatResults | backend/app/tools/web_search_tool.py:20-34 | the numbering loop and join yield the specified text |
| WebSearch.NoResultsIffEmpty | backend/app/tools/web_search_tool.py:20-23 | the no-results message is returned iff `organic_results` is missing, `null` or empty |
| WebSearch.OnlyTopThreeMatter | backend/app/tools/web_search_tool.py:25 | results after the third do not change the output |
| WebSearch.EntryShown | backend/app/tools/web_search_tool.py:28-34 | each shown result's `i. title - snippet (link)` appears in the output |
| WebSearch.ResultsLength | backend/app/tools/web_search_tool.py:34 | k entries are separated by exactly k−1 `"\n\n"` |
| Files.ListedPath | backend/app/routes/files.py:13 | a listed path starts with `uploaded_files/` and holds no backslash |
| Files.ListUploadedFiles | backend/app/routes/files.py:11-12 | a missing directory yields `[]` |
| Files.OnePathPerFile | backend/app/routes/files.py:13 | exactly one path per regular file |
| Files.ListedFilesExact | backend/app/routes/files.py:13 | a path is listed iff it is the path of a regular file of the directory |
| Files.DirectoriesExcluded | backend/app/routes/files.py:13 | directories are never listed |
| Files.ListedFilesAppend | backend/app/routes/files.py:13 | the listing of two runs of entries is the listing of each, in order |
| Files.DirectoryIgnored | backend/app/routes/files.py:13 | a directory anywhere in the listing leaves the response unchanged |
| Files.ListedPathsNormalised | backend/app/routes/files.py:13-14 | every path in the response has the prefix and no backslash |
| Files.PlainNameListedVerbatim | backend/app/routes/files.py:13 | a name without backslashes is listed verbatim after the prefix |
| OptionsPanel.InitialPlugins | frontend/src/components/OptionsPanel.tsx:23-28 | four plugins with ids 1–4, the registry's tool names, all disabled |
| OptionsPanel.TogglePlugin | frontend/src/components/OptionsPanel.tsx:50-55 | the toggled list has the same length, ids and tool names |
| OptionsPanel.TogglePluginFlips | frontend/src/components/OptionsPanel.tsx:51-53 | only items with the toggled id flip `enable`; the others stay unchanged |
| OptionsPanel.TogglePluginTwice | frontend/src/components/OptionsPanel.tsx:50-55 | toggling twice restores the list |
| OptionsPanel.ToggleUnknownPlugin | frontend/src/components/OptionsPanel.tsx:50-55 | an id no item has changes nothing |
| OptionsPanel.Effect | frontend/src/components/OptionsPanel.tsx:41-48 | a non-empty list is kept and the result is never empty; CoT can only be switched off |
| OptionsPanel.EffectExcludesCotWithPlugins | frontend/src/components/OptionsPanel.tsx:45-47 | after the effect, an enabled plugin means CoT is off |
| OptionsPanel.EffectKeepsCotWithoutPlugins | frontend/src/components/OptionsPanel.tsx:45-47 | without enabled plugins the CoT flag is kept |
| OptionsPanel.EffectSettles | frontend/src/components/OptionsPanel.tsx:41-48 | running the effect on its own result changes nothing |
| OptionsPanel.RemoveMembers | frontend/src/components/OptionsPanel.tsx:60 | the filter keeps exactly the paths other than the removed one |
| OptionsPanel.RemoveAbsent | frontend/src/components/OptionsPanel.tsx:60 | filtering out an absent path changes nothing |
| OptionsPanel.RemoveKeepsNoDuplicates | frontend/src/components/OptionsPanel.tsx:60 | filtering keeps a duplicate-free list duplicate-free |
| OptionsPanel.RemoveSnoc | frontend/src/components/OptionsPanel.tsx:60 | the filter distributes over appending one path |
| OptionsPanel.ToggleFileMembership | frontend/src/components/OptionsPanel.tsx:58-64 | the toggled path's membership flips, every other path's is kept |
| OptionsPanel.ToggleFileKeepsNoDuplicates | frontend/src/components/OptionsPanel.tsx:58-64 | a duplicate-free selection stays duplicate-free |
| OptionsPanel.ToggleAbsentFileTwice | frontend/src/components/OptionsPanel.tsx:58-64 | toggling an absent path twice restores the selection |
| OptionsPanel.GetFileName | frontend/src/components/OptionsPanel.tsx:67-69 | the name is a suffix of the path and either has no `/` or is the whole path; it is empty only for the empty path |
| OptionsPanel.FileNameOfBareName | frontend/src/components/OptionsPanel.tsx:67-69 | a path without `/` is its own name |
| OptionsPanel.FileNameAfterDirectory | frontend/src/components/OptionsPanel.tsx:67-69 | `dir/name` shows `name` when the name is non-empty |
| OptionsPanel.ListedFileShowsItsName | frontend/src/components/OptionsPanel.tsx:68 | a path from the file listing shows the uploaded file's name |
| ChatBox.EnabledPlugins | frontend/src/components/ChatBox.tsx:57 | only enabled plugins, no more than there are |
| ChatBox.EnabledPluginsExact | frontend/src/components/ChatBox.tsx:57 | a plugin is sent iff it is in the panel and enabled |
| ChatBox.RequestFor | frontend/src/components/ChatBox.tsx:70-81 | the agent endpoint iff some plugin is enabled; the question, model, CoT and RAG flags and selected files are sent as they are; the plugins sent are the enabled ones, exactly |
| ChatBox.AgentSeesSameTools | frontend/src/components/ChatBox.tsx:75 | sending only enabled plugins gives the agent route the same tools as sending all |
| ChatBox.AgentRequestsWithoutCot | frontend/src/components/ChatBox.tsx:73-81 | once the panel's effect has run, a request to the agent never asks for CoT |
| ChatBox.ReplyMessages | frontend/src/components/ChatBox.tsx:83-113 | no AI message for an empty stream or a rejected request; the warning for `undefined` or an empty answer; a non-empty answer verbatim; a non-empty stream as its chunks concatenated |
| ChatBox.StreamExtendsAnswer | frontend/src/components/ChatBox.tsx:106-111 | each chunk extends the shown AI message by exactly that chunk |
| ChatBox.ChatBox.constructor | frontend/src/components/ChatBox.tsx:15-23 | the initial state: no messages, model `openai`, no CoT, no RAG, no plugins, no files |
| ChatBox.ChatBox.RunOptionsEffect | frontend/src/components/OptionsPanel.tsx:41-48 | the panel's effect applied to the chat box's state |
| ChatBox.ChatBox.OnPluginToggle | frontend/src/components/OptionsPanel.tsx:50-55 | a plugin toggle followed by the effect keeps CoT off while a plugin is enabled |
| ChatBox.ChatBox.OnCotToggle | frontend/src/components/OptionsPanel.tsx:94-95 | the CoT checkbox flips the flag unless it is disabled by an enabled plugin |
| ChatBox.ChatBox.OnFileToggle | frontend/src/components/ChatBox.tsx:42-48 | after a file toggle, `useRAG` is true iff the selection is non-empty |
| ChatBox.ChatBox.OnInput | frontend/src/components/ChatBox.tsx:16 | typing sets the input and nothing else |
| ChatBox.ChatBox.HandleSubmit | frontend/src/components/ChatBox.tsx:59-117 | blank input changes nothing and sends nothing; otherwise the untrimmed input is appended as a user message, the input is cleared, the request is sent, and the final list is the new messages followed by the reply's AI message |
| Text.Strip | backend/app/routes/agent.py:120 | the stripped text occurs in the text, is empty iff the text is all whitespace, and has no whitespace at either end; whitespace is Python's `str.isspace` set for the backend and JavaScript's `trim` set for the frontend |
| Text.StripSpaceAround | backend/app/routes/agent.py:120 | the text is the stripped text with only whitespace before and after it |
| Text.HasTextIffStripped | backend/app/utils/loader.py:17 | a text has a non-whitespace character iff its stripped form is non-empty (truthy) |
| Text.SplitExt | backend/app/routes/upload.py:18 | base + extension is the name; a non-empty extension starts with its only `.`, holds no `/` and has a non-dot before it in the final component |
| Text.SplitExtEmpty | backend/app/routes/upload.py:18 | the extension is empty iff no dot of the final component has a non-dot before it there |
| Text.ReplaceChar | backend/app/routes/files.py:13 | same length; every target character becomes the replacement and every other character is kept |

## Left out

- Language models, embeddings, FAISS, the retriever and `CharacterTextSplitter` are function parameters. The model only composes them.
- `RunnableWithMessageHistory`'s own reads and writes are library code. The model gives each chain the session's stored history as `chat_history`. The only writes it models are the explicit `add_messages` of the CoT path.
- The ReAct agent executor is a function from (model, tools, input, history) to a chunk stream. This covers the prompt, `max_iterations` and the handling of parse errors.
- The request's `use_cot` in `/agent` is read but has no effect, and the model ignores it the same way.
- The `code_interpreter` tool is `eval`/`exec` of arbitrary code and is not modelled. `tool_registry.py` appears only as the set of its four names.
- The SerpAPI request in `web_search` is network I/O. Only the formatting of its `organic_results` is modelled.
- `frontend/src/utils/api.ts` appears only as the `Reply` its promise settles to: `undefined`, a whole text, a chunk stream or a rejection. `FileUploader.tsx`, `backend/app/main.py`, the JSX, scrolling, the loading flag and stream cancellation are not part of this model.
- The `text/event-stream` responses are sequences of chunk strings, not server-sent events.
- File reading is a `Disk` of functions. This covers the PDF parser, pandas' CSV parsing, the printing of cell values and read errors.
- Loader.FileDocuments: the only error it reports is the unsupported extension. A missing or malformed file raises in the source, but the model never fails for it.
- Upload.UploadDirectory.UploadFile: the saved bytes are not tied to what `Disk` returns for the saved path. `os.path.join` is modelled as `/` concatenation.
- Agent.AgentRespond: a body without `question`, or with a `null` one, passes `None` on in the source, while the model always has a question string.
- Agent.AgentRespond: `use_rag`, `selected_files` and the plugin items are booleans, lists and records in the model. Other JSON types, and Python's truthiness of them, are not modelled.
- Every foreign function is total and deterministic in the model, but in the source it can raise or answer differently on a second call. For instance, `/agent` builds a FAISS index without checking that any document was loaded (backend/app/routes/agent.py:83-91), and `FAISS.from_documents([])` raises, while the model's `index` returns a retriever.
- CotChain.InvokeResult: stage 1 runs twice in the source, once for `thought` and once inside stage 2. The lemma relies on both runs giving the same reply, which holds only for a deterministic model.
- SessionMemory.SessionKeyInjective: distinct ids give distinct file names, not distinct files. `os.path.join` and the file system resolve ids such as `a` and `./a` to the same file; path resolution is not modelled.
- WebSearch.Shown: a field holding a JSON number or other non-string prints through `str()` in the source. The model's fields are strings or `null`, and `organic_results` is a list or `null`.
- Upload.UploadDirectory.UploadFile: a missing `filename` (`None`) makes `os.path.splitext` raise in the source; the model always has a file name.
- A `{variable}` slot bound to a value that is not a string renders as a fixed marker, not through Python's `str()`. Only the CoT chain as written binds one (`question` to the whole input), and its history placeholder fails before that slot is reached.
- Text.SplitExt: it follows POSIX `os.path.splitext`, where a leading dot starts no extension. Windows drive and backslash rules are not modelled.
- Text.Lower: it folds only ASCII letters, where Python's `lower()` is Unicode-aware.
- ChatBox.ReplyMessages: the code, not the intent, decides the empty-stream case. A stream of zero chunks never enters the `for await` body, so it adds no AI message.
- React's state batching and the stale closure over `userInput` are not modelled. Each handler runs to completion on the current state.

## Findings

| source | as written | input that shows it | evidently intended | confidence | as-written member | corrected member |
|---|---|---|---|---|---|---|
| backend/app/chains/cot_chain.py:27-29 | `question` and `chat_history` are both bound by `RunnablePassthrough()` to the whole input mapping, so the `MessagesPlaceholder` receives a mapping rather than a list of messages and formatting fails | any CoT-only request, e.g. question `hi` with an empty history: `/ask` fails with a server error and saves nothing | each slot bound to its own field of the input, as `rag_cot_chain.py` does, so that the route answers with the tagged thought and final answer | not executed | Ask.CotChatFails | Ask.IntendedCotChatAnswers |
