/** The OpenAI Responses vocabulary: output items, and the server-sent events of a streamed response. */
module ResponsesTypes {
  import opened Basics
  import CT = ChatTypes

  /** An output item. A message carries text parts, a reasoning item a summary and possibly its encrypted form. */
  datatype OutputItem =
    | MessageItem(id: string, completed: bool, finalAnswer: bool, parts: seq<string>)
    | ReasoningItem(id: string, completed: bool, summary: seq<string>, encrypted: string)
    | CallItem(id: string, completed: bool, callId: string, name: string, arguments: string)

  /** An output item as it is shared while a response is assembled. */
  class ItemCell {
    var item: OutputItem

    constructor (item: OutputItem)
      ensures this.item == item
    {
      this.item := item;
    }
  }

  datatype ResponseStatus = InProgress | Completed | IncompleteTokens | IncompleteFilter | FailedServer | CancelledStatus | FailedNoStatus

  /** The status with its details or error, which it determines. */
  function StatusOf(s: CT.Status): ResponseStatus {
    match s
    case Completed => Completed
    case PendingToolUse => Completed
    case ReachedTokenLimit => IncompleteTokens
    case Refused => IncompleteFilter
    case Failed => FailedServer
    case Cancelled => CancelledStatus
    case _ => FailedNoStatus
  }

  datatype Response = Response(id: string, model: string, status: ResponseStatus, output: seq<OutputItem>, usage: Option<CT.Usage>)

  datatype Terminal = ResponseCompleted | ResponseIncomplete | ResponseFailed

  function TerminalOf(s: ResponseStatus): Terminal {
    match s
    case IncompleteTokens => ResponseIncomplete
    case IncompleteFilter => ResponseIncomplete
    case FailedServer => ResponseFailed
    case CancelledStatus => ResponseFailed
    case FailedNoStatus => ResponseFailed
    case _ => ResponseCompleted
  }

  /** Events of the stream. `summary` tells the parts of a reasoning summary from those of a message. */
  datatype Wire =
    | ResponseCreated(response: Response)
    | ResponseInProgress(response: Response)
    | ItemAdded(out: nat, item: OutputItem)
    | PartAdded(out: nat, itemId: string, part: nat, summary: bool)
    | PartDelta(out: nat, itemId: string, part: nat, summary: bool, text: string)
    | PartTextDone(out: nat, itemId: string, part: nat, summary: bool, text: string)
    | PartDone(out: nat, itemId: string, part: nat, summary: bool, text: string)
    | ArgumentsDelta(out: nat, itemId: string, text: string)
    | ArgumentsDone(out: nat, itemId: string, text: string)
    | ItemDone(out: nat, item: OutputItem)
    | ResponseEnded(kind: Terminal, response: Response)

  datatype Sent = Sent(sequence: nat, event: Wire)

  function Digits(n: nat): string {
    (if n < 10 then "" else Digits(n / 10)) + ["0123456789"[n % 10]]
  }

  /** The id given to an item whose content has none. */
  function SyntheticId(prefix: string, responseId: string, out: nat): string {
    prefix + "_" + responseId + "_" + Digits(out)
  }

  function IsFinalAnswer(p: CT.Phase): bool {
    p.Outcome?
  }
}
