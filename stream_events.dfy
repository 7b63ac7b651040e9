/** The events a streaming chat sends to its subscriber (`AgentStreamEvent`):
    a type name and a text. */
module StreamEvents {
  const TYPE_TOKEN: string := "token"
  const TYPE_THINKING: string := "thinking"
  const TYPE_PROGRESS: string := "progress"
  const TYPE_RESPONSE: string := "response"
  const TYPE_DONE: string := "done"
  const TYPE_ERROR: string := "error"

  datatype StreamEvent = StreamEvent(kind: string, content: string)

  function TokenEvent(content: string): StreamEvent { StreamEvent(TYPE_TOKEN, content) }
  function ThinkingEvent(content: string): StreamEvent { StreamEvent(TYPE_THINKING, content) }
  function ProgressEvent(content: string): StreamEvent { StreamEvent(TYPE_PROGRESS, content) }
  function ResponseEvent(content: string): StreamEvent { StreamEvent(TYPE_RESPONSE, content) }
  function DoneEvent(): StreamEvent { StreamEvent(TYPE_DONE, "") }
  function ErrorEvent(content: string): StreamEvent { StreamEvent(TYPE_ERROR, content) }
}
