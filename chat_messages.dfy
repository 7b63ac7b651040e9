/** The chat messages a model conversation is made of, and the values that
    request and message attribute maps hold. */
module Messages {
  import opened Wrappers

  /** A non-null attribute value: a string, or a number such as a thread id. */
  datatype AttributeValue = Text(text: string) | Number(number: int)

  /** An attribute map; a key mapped to `None` is present with a null value. */
  type Attributes = map<string, Option<AttributeValue>>

  /** A tool call the model asked for. */
  datatype ToolRequest = ToolRequest(id: string, name: string, arguments: string)

  /** The message kinds of a conversation. A user message is reduced to its
      single text; an AI message's text, thinking and attribute map may each
      be null. */
  datatype ChatMessage =
    | SystemMessage(text: string)
    | UserMessage(text: string)
    | AiMessage(aiText: Option<string>, thinking: Option<string>, attributes: Option<Attributes>, toolRequests: seq<ToolRequest>)
    | ToolExecutionResultMessage(requestId: string, toolName: string, text: string)
}
