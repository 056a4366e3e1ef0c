/** The chunks of a streamed OpenAI chat completion. */
module ChatWire {
  import opened Basics
  import CT = ChatTypes

  datatype ToolCall = ToolCall(index: int, id: string, name: string, arguments: string)

  /** A choice's delta. Reasoning is what DeepSeek calls reasoning_content and OpenRouter reasoning. */
  datatype Choice = Choice(content: string, reasoning: string, toolCalls: seq<ToolCall>, finishReason: string)

  /** Only the first choice counts. A chunk without usage reports zeros. */
  datatype Chunk = Chunk(id: string, model: string, choice: Option<Choice>, usage: CT.Usage)

  const NO_USAGE := CT.Usage(0, 0, 0, 0)

  function FinishReasonOf(s: CT.Status): string {
    match s
    case Completed => "stop"
    case Refused => "content_filter"
    case ReachedTokenLimit => "length"
    case PendingToolUse => "tool_calls"
    case _ => ""
  }

  function StatusFrom(finishReason: string): CT.Status {
    if finishReason == "stop" then CT.Completed
    else if finishReason == "length" then CT.ReachedTokenLimit
    else if finishReason == "tool_calls" || finishReason == "function_call" then CT.PendingToolUse
    else if finishReason == "content_filter" then CT.Refused
    else CT.InProgress
  }
}
