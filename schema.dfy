/**
 * The LangChain values the application passes between its stages: chat
 * messages, documents with their metadata, and what a chain receives and
 * returns.
 */
module Schema {

  /** `SystemMessage`, `HumanMessage` and `AIMessage`. */
  datatype Role = System | Human | AI

  datatype Message = Message(role: Role, content: string)

  /** The metadata that locates a document in its file: none, `page` or `row` (both 1-based). */
  datatype Locator = Whole | Page(page: nat) | Row(row: nat)

  /** A `Document`: its `page_content` and the `source` file name it came from. */
  datatype Document = Document(pageContent: string, source: string, locator: Locator)

  /** A chat model invoked on a prompt, followed by `StrOutputParser`. */
  type Llm = seq<Message> -> string

  /** A retriever: the documents it returns for a query. */
  type Retriever = string -> seq<Document>

  /** The input the session-history wrapper hands to a chain. */
  datatype ChainInput = ChainInput(question: string, chatHistory: seq<Message>)

  /** A chain's result: a string, or a mapping of named strings (`RunnableParallel`). */
  datatype ChainOutput = Answer(text: string) | Fields(fields: map<string, string>)

  /** A plugin switch, as the frontend shows it and sends it in `plugin_detail`. */
  datatype PluginDetail = PluginDetail(id: int, toolName: string, enable: bool)
}
