/** The message kinds the assistant keeps in its history and passes through its graph. */
module Messages {

  /** A tool invocation requested by the model: the tool's name and its arguments. */
  datatype ToolCall = ToolCall(name: string, args: map<string, string>)

  /**
   * A conversation message. Every kind carries text content; only AI messages
   * carry requested tool calls. Tool results are produced by the tool node.
   */
  datatype Message =
    | SystemMsg(content: string)
    | HumanMsg(content: string)
    | AIMsg(content: string, toolCalls: seq<ToolCall>)
    | ToolMsg(content: string, toolName: string)

  /** Python truthiness of the content string. */
  predicate HasContent(m: Message) {
    m.content != ""
  }

  /** The last element of a non-empty sequence (`xs[-1]`). */
  function Last<T>(xs: seq<T>): T
    requires |xs| > 0
  {
    xs[|xs| - 1]
  }
}
