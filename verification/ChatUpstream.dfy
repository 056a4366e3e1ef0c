/** Decoding the chunks of an OpenAI chat completion stream into chat events. */
module ChatUpstream {
  import opened Basics
  import opened ChatTypes
  import opened ChatWire

  datatype Client = Client(
    status: Status, messageStarted: bool, stopEmitted: bool, nextIndex: nat,
    hasOpen: bool, openIsTool: bool, openIndex: nat, openPhase: Phase, openToolIndex: int, emitted: seq<Event>)

  const START := Client(Unspecified, false, false, 0, false, false, 0, Normal, 0, [])

  function Emit(c: Client, requestId: string, p: Payload): Client {
    c.(emitted := c.emitted + [Event(requestId, None, p)])
  }

  function CloseOpen(c: Client, requestId: string): Client {
    if c.hasOpen then Emit(c, requestId, ContentStop(c.openIndex)).(hasOpen := false) else c
  }

  function OpenText(c: Client, requestId: string, phase: Phase): Client {
    if c.hasOpen && !c.openIsTool && c.openPhase == phase then c else
    var c := CloseOpen(c, requestId);
    Emit(c.(nextIndex := c.nextIndex + 1, hasOpen := true, openIsTool := false, openPhase := phase, openIndex := c.nextIndex),
         requestId, ContentStart("", c.nextIndex, phase, TextStart))
  }

  function OpenTool(c: Client, requestId: string, t: ToolCall): Client {
    if c.hasOpen && c.openIsTool && c.openToolIndex == t.index then c else
    var c := CloseOpen(c, requestId);
    Emit(c.(nextIndex := c.nextIndex + 1, hasOpen := true, openIsTool := true, openIndex := c.nextIndex, openToolIndex := t.index),
         requestId, ContentStart("", c.nextIndex, Normal, ToolStart(t.id, t.name)))
  }

  function AddText(c: Client, requestId: string, phase: Phase, text: string): Client {
    if text == "" then c else
    var c := OpenText(c, requestId, phase);
    Emit(c, requestId, ContentDelta(c.openIndex, TextDelta(text)))
  }

  function AddCall(c: Client, requestId: string, t: ToolCall): Client {
    var c := OpenTool(c, requestId, t);
    if t.arguments == "" then c else Emit(c, requestId, ContentDelta(c.openIndex, ToolInputDelta(t.arguments)))
  }

  function AddCalls(c: Client, requestId: string, ts: seq<ToolCall>): Client {
    if ts == [] then c else AddCall(AddCalls(c, requestId, ts[..|ts| - 1]), requestId, ts[|ts| - 1])
  }

  function AddChoice(c: Client, requestId: string, m: Choice): Client {
    var c := AddText(c, requestId, Reasoning, m.reasoning);
    var c := AddText(c, requestId, Normal, m.content);
    var c := AddCalls(c, requestId, m.toolCalls);
    if m.finishReason == "" then c else c.(status := StatusFrom(m.finishReason))
  }

  function Begin(c: Client, requestId: string, id: string, model: string): Client {
    if c.messageStarted then c else Emit(c.(messageStarted := true), requestId, MessageStart(id, model))
  }

  function End(c: Client, requestId: string, usage: Option<Usage>): Client {
    var c := CloseOpen(c, requestId);
    c.(emitted := c.emitted + [Event(requestId, usage, MessageStop(c.status))], stopEmitted := true)
  }

  function Step(c: Client, requestId: string, chunk: Chunk): Client {
    var c := Begin(c, requestId, chunk.id, chunk.model);
    var c := if chunk.choice.Some? then AddChoice(c, requestId, chunk.choice.value) else c;
    if chunk.usage == NO_USAGE then c else End(c, requestId, Some(chunk.usage))
  }

  function Run(requestId: string, chunks: seq<Chunk>): Client {
    if chunks == [] then START else Step(Run(requestId, chunks[..|chunks| - 1]), requestId, chunks[|chunks| - 1])
  }

  function Finish(c: Client, requestId: string): Client {
    if !c.messageStarted || c.stopEmitted then c else End(c, requestId, None)
  }

  function Decoded(requestId: string, chunks: seq<Chunk>): seq<Event> {
    Finish(Run(requestId, chunks), requestId).emitted
  }

  // ----- The client as an object -----

  class ChatStreamClient {
    const requestId: string
    var status: Status
    var messageStarted: bool
    var stopEmitted: bool
    var nextIndex: nat
    var hasOpen: bool
    var openIsTool: bool
    var openIndex: nat
    var openPhase: Phase
    var openToolIndex: int
    var yielded: seq<Event>

    ghost function Value(): Client
      reads this
    {
      Client(status, messageStarted, stopEmitted, nextIndex, hasOpen, openIsTool, openIndex, openPhase, openToolIndex, yielded)
    }

    constructor (requestId: string)
      ensures Value() == START && this.requestId == requestId
    {
      this.requestId := requestId;
      status, messageStarted, stopEmitted, nextIndex := Unspecified, false, false, 0;
      hasOpen, openIsTool, openIndex, openPhase, openToolIndex, yielded := false, false, 0, Normal, 0, [];
    }

    method Yield(usage: Option<Usage>, p: Payload)
      modifies `yielded
      ensures yielded == old(yielded) + [Event(requestId, usage, p)]
    {
      yielded := yielded + [Event(requestId, usage, p)];
    }

    method CloseOpenBlock()
      modifies `yielded, `hasOpen
      ensures Value() == CloseOpen(old(Value()), requestId)
    {
      if hasOpen {
        Yield(None, ContentStop(openIndex));
        hasOpen := false;
      }
    }

    method OpenTextBlock(phase: Phase) returns (index: nat)
      modifies this
      ensures Value() == OpenText(old(Value()), requestId, phase) && index == openIndex
    {
      if hasOpen && !openIsTool && openPhase == phase {
        return openIndex;
      }
      CloseOpenBlock();
      index := nextIndex;
      nextIndex := nextIndex + 1;
      hasOpen, openIsTool, openPhase, openIndex := true, false, phase, index;
      Yield(None, ContentStart("", index, phase, TextStart));
    }

    method OpenToolBlock(t: ToolCall) returns (index: nat)
      modifies this
      ensures Value() == OpenTool(old(Value()), requestId, t) && index == openIndex
    {
      if hasOpen && openIsTool && openToolIndex == t.index {
        return openIndex;
      }
      CloseOpenBlock();
      index := nextIndex;
      nextIndex := nextIndex + 1;
      hasOpen, openIsTool, openIndex, openToolIndex := true, true, index, t.index;
      Yield(None, ContentStart("", index, Normal, ToolStart(t.id, t.name)));
    }

    method YieldText(phase: Phase, text: string)
      modifies this
      ensures Value() == AddText(old(Value()), requestId, phase, text)
    {
      if text != "" {
        var index := OpenTextBlock(phase);
        Yield(None, ContentDelta(index, TextDelta(text)));
      }
    }

    method YieldCall(t: ToolCall)
      modifies this
      ensures Value() == AddCall(old(Value()), requestId, t)
    {
      var index := OpenToolBlock(t);
      if t.arguments != "" {
        Yield(None, ContentDelta(index, ToolInputDelta(t.arguments)));
      }
    }

    method ConvertChoice(m: Choice)
      modifies this
      ensures Value() == AddChoice(old(Value()), requestId, m)
    {
      YieldText(Reasoning, m.reasoning);
      YieldText(Normal, m.content);
      ghost var c := Value();
      for k := 0 to |m.toolCalls|
        invariant Value() == AddCalls(c, requestId, m.toolCalls[..k])
      {
        assert m.toolCalls[..k + 1][..k] == m.toolCalls[..k];
        YieldCall(m.toolCalls[k]);
      }
      assert m.toolCalls[..|m.toolCalls|] == m.toolCalls;
      if m.finishReason != "" {
        status := StatusFrom(m.finishReason);
      }
    }

    method EndMessage(usage: Option<Usage>)
      modifies this
      ensures Value() == End(old(Value()), requestId, usage)
    {
      CloseOpenBlock();
      Yield(usage, MessageStop(status));
      stopEmitted := true;
    }

    method Convert(chunk: Chunk)
      modifies this
      ensures Value() == Step(old(Value()), requestId, chunk)
    {
      hide AddChoice, End;
      if !messageStarted {
        messageStarted := true;
        Yield(None, MessageStart(chunk.id, chunk.model));
      }
      if chunk.choice.Some? {
        ConvertChoice(chunk.choice.value);
      }
      if chunk.usage != NO_USAGE {
        EndMessage(Some(chunk.usage));
      }
    }

    method FinishStream()
      modifies this
      ensures Value() == Finish(old(Value()), requestId)
    {
      if messageStarted && !stopEmitted {
        EndMessage(None);
      }
    }
  }

  /** Drives the client over a stream, which ends, or breaks off with an error: then the message is not finished. */
  method AsSeq(requestId: string, chunks: seq<Chunk>, broken: bool) returns (events: seq<Event>)
    ensures events == if broken then Run(requestId, chunks).emitted else Decoded(requestId, chunks)
  {
    var client := new ChatStreamClient(requestId);
    for k := 0 to |chunks|
      invariant fresh(client) && client.requestId == requestId && client.Value() == Run(requestId, chunks[..k])
    {
      assert chunks[..k + 1][..k] == chunks[..k];
      client.Convert(chunks[k]);
    }
    assert chunks[..|chunks|] == chunks;
    if !broken {
      client.FinishStream();
    }
    events := client.yielded;
  }
}
