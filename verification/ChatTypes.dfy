/** The provider-independent chat vocabulary: contents of a message, and the events of a streamed one. */
module ChatTypes {
  import opened Basics

  datatype Phase = Normal | Outcome | Reasoning

  datatype Status =
    | Unspecified | InProgress | Completed | Failed | Refused | Cancelled | PendingToolUse | ReachedTokenLimit

  datatype Usage = Usage(input: nat, output: nat, cached: nat, reasoning: nat)

  datatype Body =
    | Text(text: string)
    | ToolUse(callId: string, name: string, inputs: seq<string>)
    | Opaque(data: string)
    | Image(url: string)
    | ToolResult(callId: string, output: string)
    | OtherBody                                            // none at all

  datatype Content = Content(id: string, index: Option<nat>, phase: Phase, signature: string, body: Body)

  datatype StartKind = TextStart | ToolStart(callId: string, name: string) | NoStart

  datatype Delta = TextDelta(text: string) | SignatureDelta(text: string) | ToolInputDelta(text: string)

  datatype Payload =
    | MessageStart(messageId: string, model: string)
    | MessageStop(status: Status)
    | ContentStart(id: string, index: nat, phase: Phase, kind: StartKind)
    | ContentDelta(index: nat, delta: Delta)
    | ContentStop(index: nat)
    | ContentSnapshot(content: Content)
    | NoPayload                                            // an event that only reports usage

  datatype Event = Event(requestId: string, usage: Option<Usage>, payload: Payload)

  /** Counts the ends of a message. */
  function IsStop(e: Event): int {
    if e.payload.MessageStop? then 1 else 0
  }

  /** Id and model of the message that has started last; empty before. */
  function LastStart(es: seq<Event>): (string, string) {
    if es == [] then ("", "") else
    var p := es[|es| - 1].payload;
    if p.MessageStart? then (p.messageId, p.model) else LastStart(es[..|es| - 1])
  }

  function LastStop(es: seq<Event>): Status {
    if es == [] then Unspecified else
    var p := es[|es| - 1].payload;
    if p.MessageStop? then p.status else LastStop(es[..|es| - 1])
  }

  datatype Message = Message(id: string, contents: seq<Content>)

  datatype Response = Response(id: string, model: string, status: Status, message: Option<Message>, usage: Option<Usage>)

  function Contents(r: Response): seq<Content> {
    if r.message.Some? then r.message.value.contents else []
  }

  /** The text of all inputs of a tool call, joined. */
  function TextualInput(inputs: seq<string>): string {
    if inputs == [] then "" else inputs[0] + TextualInput(inputs[1..])
  }

  /** Usage reports are cumulative and partial: a zero field leaves what was known. */
  function MergeUsage(acc: Option<Usage>, report: Option<Usage>): Option<Usage> {
    if report.None? then acc else
    var a := if acc.Some? then acc.value else Usage(0, 0, 0, 0);
    var u := report.value;
    Some(Usage(if u.input != 0 then u.input else a.input,
               if u.output != 0 then u.output else a.output,
               if u.cached != 0 then u.cached else a.cached,
               if u.reasoning != 0 then u.reasoning else a.reasoning))
  }
}
