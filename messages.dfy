/** Values shared by every script: chat messages, tool calls and retrieved documents. */
module Messages {

  datatype Option<+T> = None | Some(value: T)

  /** One tool call requested by the model: the tool's name, its JSON arguments
      (string-valued here) and the call id the reply must carry. */
  datatype ToolCall = ToolCall(name: string, args: map<string, string>, id: string)

  /** A chat message. Every kind has a text `content`; only a model reply
      (an AIMessage) can carry tool calls. */
  datatype Message =
    | Human(content: string)
    | AI(content: string, toolCalls: seq<ToolCall>)
    | ToolReply(content: string, toolCallId: string)
  {
    /** `tool_calls` of the message read as an AIMessage: absent on other kinds. */
    function ToolCalls(): seq<ToolCall>
    {
      if AI? then toolCalls else []
    }
  }

  /** A retrieved chunk of text and its metadata. */
  datatype Document = Document(pageContent: string, metadata: map<string, string>)

  /** `xs.at(-1)` / `xs[xs.length - 1]` on a non-empty list. */
  function Last<T>(xs: seq<T>): T
    requires |xs| > 0
  {
    xs[|xs| - 1]
  }
}
