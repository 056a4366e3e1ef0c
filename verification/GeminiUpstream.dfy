/** Decoding Gemini's answers, complete or in chunks. */
module GeminiUpstream {
  import opened Basics
  import opened ChatTypes

  /** A function call; its arguments are None if they cannot be marshalled. */
  datatype Call = Call(id: string, name: string, arguments: Option<string>)

  /** A part of a candidate. The signature is encoded; empty if there is none. */
  datatype Part = Part(text: string, thought: bool, call: Option<Call>, signature: string)

  datatype Answer =
    | NoContent(finishReason: string, usage: Option<Usage>)  // no candidate, or one without content
    | Answer(id: string, model: string, parts: seq<Part>, finishReason: string, usage: Option<Usage>)

  function PhaseOf(p: Part): Phase {
    if p.thought then Reasoning else Normal
  }

  predicate HasCall(parts: seq<Part>) {
    exists k | 0 <= k < |parts| :: parts[k].call.Some?
  }

  function StatusFrom(reason: string, parts: seq<Part>): Status {
    if reason == "STOP" then (if HasCall(parts) then PendingToolUse else Completed)
    else if reason == "MAX_TOKENS" then ReachedTokenLimit
    else if reason in ["SAFETY", "BLOCKLIST", "PROHIBITED_CONTENT", "SPII", "IMAGE_SAFETY", "IMAGE_PROHIBITED_CONTENT"] then Refused
    else InProgress
  }

  // ----- A complete answer -----

  /** The content a part stands for, if any. */
  function ContentOf(p: Part): Option<Content> {
    if p.text != "" then Some(Content("", None, PhaseOf(p), p.signature, Text(p.text)))
    else if p.call.Some? && p.call.value.arguments.Some? then
      Some(Content("", None, Normal, p.signature, ToolUse(p.call.value.id, p.call.value.name, [p.call.value.arguments.value])))
    else None
  }

  function Converted(parts: seq<Part>): seq<Content> {
    if parts == [] then [] else
    Converted(parts[..|parts| - 1]) +
    (var c := ContentOf(parts[|parts| - 1]); if c.Some? then [c.value] else [])
  }

  method ConvertMessage(parts: seq<Part>) returns (contents: seq<Content>)
    ensures contents == Converted(parts)
  {
    contents := [];
    for k := 0 to |parts|
      invariant contents == Converted(parts[..k])
    {
      assert parts[..k + 1][..k] == parts[..k];
      var p := parts[k];
      if p.text != "" {
        contents := contents + [Content("", None, PhaseOf(p), p.signature, Text(p.text))];
      } else if p.call.Some? && p.call.value.arguments.Some? {
        contents := contents + [Content("", None, Normal, p.signature, ToolUse(p.call.value.id, p.call.value.name, [p.call.value.arguments.value]))];
      }
    }
    assert parts[..|parts|] == parts;
  }

  /** The response to a complete answer with content. */
  function ConvertedResponse(requestId: string, a: Answer): Response
    requires a.Answer?
  {
    Response(requestId, a.model, StatusFrom(a.finishReason, a.parts), Some(Message(a.id, Converted(a.parts))), a.usage)
  }

  // ----- A stream of answers -----

  datatype Client = Client(
    messageStarted: bool, nextIndex: nat, hasOpen: bool, openIndex: nat, openPhase: Phase, lastUsage: Option<Usage>, emitted: seq<Event>)

  const START := Client(false, 0, false, 0, Normal, None, [])

  function Emit(c: Client, requestId: string, p: Payload): Client {
    c.(emitted := c.emitted + [Event(requestId, None, p)])
  }

  function CloseOpen(c: Client, requestId: string): Client {
    if c.hasOpen then Emit(c, requestId, ContentStop(c.openIndex)).(hasOpen := false) else c
  }

  function OpenText(c: Client, requestId: string, phase: Phase): Client {
    if c.hasOpen && c.openPhase == phase then c else
    var c := CloseOpen(c, requestId);
    Emit(c.(nextIndex := c.nextIndex + 1, hasOpen := true, openPhase := phase, openIndex := c.nextIndex),
         requestId, ContentStart("", c.nextIndex, phase, TextStart))
  }

  function Sign(c: Client, requestId: string, index: nat, signature: string): Client {
    if signature == "" then c else Emit(c, requestId, ContentDelta(index, SignatureDelta(signature)))
  }

  function AddText(c: Client, requestId: string, p: Part): Client {
    var c := OpenText(c, requestId, PhaseOf(p));
    Sign(Emit(c, requestId, ContentDelta(c.openIndex, TextDelta(p.text))), requestId, c.openIndex, p.signature)
  }

  function AddCall(c: Client, requestId: string, call: Call, arguments: string, signature: string): Client {
    var c := CloseOpen(c, requestId);
    var index := c.nextIndex;
    var c := Emit(c.(nextIndex := index + 1), requestId, ContentStart("", index, Normal, ToolStart(call.id, call.name)));
    var c := Emit(c, requestId, ContentDelta(index, ToolInputDelta(arguments)));
    Emit(Sign(c, requestId, index, signature), requestId, ContentStop(index))
  }

  function AddPart(c: Client, requestId: string, p: Part): Client {
    if p.text != "" then AddText(c, requestId, p)
    else if p.call.Some? && p.call.value.arguments.Some? then AddCall(c, requestId, p.call.value, p.call.value.arguments.value, p.signature)
    else c
  }

  function AddParts(c: Client, requestId: string, ps: seq<Part>): Client {
    if ps == [] then c else AddPart(AddParts(c, requestId, ps[..|ps| - 1]), requestId, ps[|ps| - 1])
  }

  function Begin(c: Client, requestId: string, id: string, model: string): Client {
    if c.messageStarted then c else Emit(c.(messageStarted := true), requestId, MessageStart(id, model))
  }

  function End(c: Client, requestId: string, status: Status): Client {
    var c := CloseOpen(c, requestId);
    c.(emitted := c.emitted + [Event(requestId, c.lastUsage, MessageStop(status))])
  }

  function Step(c: Client, requestId: string, a: Answer): Client {
    if a.NoContent? then c else
    var c := AddParts(Begin(c, requestId, a.id, a.model), requestId, a.parts);
    var c := if a.usage.Some? then c.(lastUsage := a.usage) else c;
    if a.finishReason == "" then c else End(c, requestId, StatusFrom(a.finishReason, a.parts))
  }

  function Run(requestId: string, answers: seq<Answer>): Client {
    if answers == [] then START else Step(Run(requestId, answers[..|answers| - 1]), requestId, answers[|answers| - 1])
  }

  // ----- The client as an object -----

  class ChatStreamClient {
    const requestId: string
    var messageStarted: bool
    var nextIndex: nat
    var hasOpen: bool
    var openIndex: nat
    var openPhase: Phase
    var lastUsage: Option<Usage>
    var yielded: seq<Event>

    ghost function Value(): Client
      reads this
    {
      Client(messageStarted, nextIndex, hasOpen, openIndex, openPhase, lastUsage, yielded)
    }

    constructor (requestId: string)
      ensures Value() == START && this.requestId == requestId
    {
      this.requestId := requestId;
      messageStarted, nextIndex, hasOpen, openIndex, openPhase, lastUsage, yielded := false, 0, false, 0, Normal, None, [];
    }

    method Yield(usage: Option<Usage>, p: Payload)
      modifies `yielded
      ensures yielded == old(yielded) + [Event(requestId, usage, p)]
    {
      yielded := yielded + [Event(requestId, usage, p)];
    }

    method CloseOpenBlock()
      modifies `yielded, `hasOpen
      ensures Value() == CloseOpen(old(Value()), requestId)
    {
      if hasOpen {
        Yield(None, ContentStop(openIndex));
        hasOpen := false;
      }
    }

    method OpenTextBlock(phase: Phase) returns (index: nat)
      modifies this
      ensures Value() == OpenText(old(Value()), requestId, phase) && index == openIndex
    {
      if hasOpen && openPhase == phase {
        return openIndex;
      }
      CloseOpenBlock();
      index := nextIndex;
      nextIndex := nextIndex + 1;
      hasOpen, openPhase, openIndex := true, phase, index;
      Yield(None, ContentStart("", index, phase, TextStart));
    }

    method YieldText(p: Part)
      modifies this
      ensures Value() == AddText(old(Value()), requestId, p)
    {
      var index := OpenTextBlock(PhaseOf(p));
      Yield(None, ContentDelta(index, TextDelta(p.text)));
      if p.signature != "" {
        Yield(None, ContentDelta(index, SignatureDelta(p.signature)));
      }
    }

    method YieldCall(call: Call, arguments: string, signature: string)
      modifies this
      ensures Value() == AddCall(old(Value()), requestId, call, arguments, signature)
    {
      CloseOpenBlock();
      var index := nextIndex;
      nextIndex := nextIndex + 1;
      Yield(None, ContentStart("", index, Normal, ToolStart(call.id, call.name)));
      Yield(None, ContentDelta(index, ToolInputDelta(arguments)));
      if signature != "" {
        Yield(None, ContentDelta(index, SignatureDelta(signature)));
      }
      Yield(None, ContentStop(index));
    }

    method YieldParts(ps: seq<Part>)
      modifies this
      ensures Value() == AddParts(old(Value()), requestId, ps)
    {
      ghost var c := Value();
      for k := 0 to |ps|
        invariant Value() == AddParts(c, requestId, ps[..k])
      {
        assert ps[..k + 1][..k] == ps[..k];
        var p := ps[k];
        if p.text != "" {
          YieldText(p);
        } else if p.call.Some? && p.call.value.arguments.Some? {
          YieldCall(p.call.value, p.call.value.arguments.value, p.signature);
        }
      }
      assert ps[..|ps|] == ps;
    }

    method Convert(a: Answer)
      modifies this
      ensures Value() == Step(old(Value()), requestId, a)
    {
      if a.NoContent? {
        return;
      }
      if !messageStarted {
        messageStarted := true;
        Yield(None, MessageStart(a.id, a.model));
      }
      YieldParts(a.parts);
      if a.usage.Some? {
        lastUsage := a.usage;
      }
      if a.finishReason != "" {
        CloseOpenBlock();
        Yield(lastUsage, MessageStop(StatusFrom(a.finishReason, a.parts)));
      }
    }
  }

  /** Drives the client over the answers of a stream, up to its end or an error. */
  method AsSeq(requestId: string, answers: seq<Answer>) returns (events: seq<Event>)
    ensures events == Run(requestId, answers).emitted
  {
    var client := new ChatStreamClient(requestId);
    for k := 0 to |answers|
      invariant fresh(client) && client.requestId == requestId && client.Value() == Run(requestId, answers[..k])
    {
      assert answers[..k + 1][..k] == answers[..k];
      client.Convert(answers[k]);
    }
    assert answers[..|answers|] == answers;
    events := client.yielded;
  }
}
