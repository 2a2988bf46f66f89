/**
 * The conversation messages the agent graph threads through its state (LangChain's
 * SystemMessage, HumanMessage, AIMessage and ToolMessage), the tool calls an assistant
 * message carries, and the database driver seen as an oracle.
 */
module Messages {

  /** One item of a multi-part human message: `{"type": "text"}` or `{"type": "image_url"}`. */
  datatype ContentItem = TextItem(text: string) | ImageUrlItem(imageUrl: string)

  /** Message content: a plain string, or a list of items. */
  datatype Content = Str(s: string) | Parts(items: seq<ContentItem>)
  {
    /** Python truthiness: a non-empty string or a non-empty list. */
    predicate IsTruthy() {
      match this
      case Str(s) => s != ""
      case Parts(items) => items != []
    }
  }

  /** A tool call as the model emits it: correlation id, tool name, arguments. */
  datatype ToolCall = ToolCall(id: string, name: string, args: map<string, string>)

  datatype Message =
    | System(text: string)
    | Human(content: Content)
    | Ai(text: string, toolCalls: seq<ToolCall>)
    | Tool(text: string, toolCallId: string)
  {
    /** `hasattr(m, "tool_calls") and m.tool_calls`: only an assistant message has tool calls. */
    predicate HasToolCalls() {
      Ai? && toolCalls != []
    }

    function ContentOf(): Content {
      match this
      case System(t) => Str(t)
      case Human(c) => c
      case Ai(t, _) => Str(t)
      case Tool(t, _) => Str(t)
    }
  }

  /**
   * `db.run_no_throw(query, include_columns)`: the database driver. It never raises; what it
   * returns for a statement is an arbitrary text, so the driver is a parameter of the model.
   */
  type Database = (string, bool) -> string
}
