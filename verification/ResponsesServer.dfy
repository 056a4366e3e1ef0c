/**
 The Responses stream server: re-encodes chat events as Responses events. A finished text or reasoning part leaves its
 item pending, because only the next event tells whether the item continues; `output_item.done` waits until then.
 */
module ResponsesServers {
  import opened Basics
  import opened ResponsesTypes
  import CT = ChatTypes

  datatype BlockKind = TextBlock | ReasoningBlock | ToolBlock

  /** An open content block, and the output item it belongs to. */
  datatype Block = Block(kind: BlockKind, out: nat, contentIndex: nat, summaryIndex: nat, text: string)

  /**
   The server as a value. `items` are all items ever added, each at its output index; the response holds those from
   `base` on. `sent` is what has been written.
   */
  datatype Server = Server(
    sequence: nat, sent: seq<Sent>, items: seq<OutputItem>, base: nat,
    responseId: string, model: string, status: ResponseStatus, usage: Option<CT.Usage>, finalUsage: Option<CT.Usage>,
    blocks: map<nat, Block>, pendingText: Option<Block>, pendingReasoning: Option<Block>)
  {
    predicate Fits(b: Block) {
      b.out < |items| && match b.kind
                         case TextBlock => items[b.out].MessageItem?
                         case ReasoningBlock => items[b.out].ReasoningItem?
                         case ToolBlock => items[b.out].CallItem?
    }

    /** Blocks belong to items of their kind; a pending block is of the kind that can be pending there. */
    predicate Valid() {
      && base <= |items|
      && (forall i <- blocks.Keys :: Fits(blocks[i]))
      && (pendingText.Some? ==> pendingText.value.kind.TextBlock? && Fits(pendingText.value))
      && (pendingReasoning.Some? ==> pendingReasoning.value.kind.ReasoningBlock? && Fits(pendingReasoning.value))
    }

    function Response(): Response
      requires base <= |items|
    {
      ResponsesTypes.Response(responseId, model, status, items[base..], finalUsage)
    }
  }

  const START := Server(0, [], [], 0, "", "", InProgress, None, None, map[], None, None)

  function Write(s: Server, w: Wire): Server {
    s.(sent := s.sent + [Sent(s.sequence, w)], sequence := s.sequence + 1)
  }

  function SetItem(s: Server, out: nat, item: OutputItem): Server
    requires out < |s.items|
  {
    s.(items := s.items[out := item])
  }

  /** Marks an item completed and says so. */
  function Finish(s: Server, out: nat): Server
    requires out < |s.items|
  {
    var item := s.items[out].(completed := true);
    Write(SetItem(s, out, item), ItemDone(out, item))
  }

  function FlushText(s: Server): (r: Server)
    requires s.Valid()
    ensures r.Valid()
  {
    if s.pendingText.None? then s else Finish(s.(pendingText := None), s.pendingText.value.out)
  }

  function FlushReasoning(s: Server): (r: Server)
    requires s.Valid()
    ensures r.Valid()
  {
    if s.pendingReasoning.None? then s else Finish(s.(pendingReasoning := None), s.pendingReasoning.value.out)
  }

  function FlushItems(s: Server): (r: Server)
    requires s.Valid()
    ensures r.Valid()
  {
    FlushText(FlushReasoning(s))
  }

  function IdOr(id: string, prefix: string, s: Server): string {
    if id == "" then SyntheticId(prefix, s.responseId, |s.items|) else id
  }

  /** Adds a new item to the response and announces it. */
  function AddItem(s: Server, item: OutputItem): Server {
    Write(s.(items := s.items + [item]), ItemAdded(|s.items|, item))
  }

  function SetBlock(s: Server, index: nat, b: Block): Server {
    s.(blocks := s.blocks[index := b])
  }

  function AnnouncePart(s: Server, b: Block): Server
    requires b.out < |s.items|
  {
    Write(s, PartAdded(b.out, s.items[b.out].id, PartIndex(b), b.kind.ReasoningBlock?))
  }

  predicate TextContinues(s: Server, id: string, finalAnswer: bool)
    requires s.Valid()
  {
    && id != "" && s.pendingText.Some?
    && s.items[s.pendingText.value.out].id == id && s.items[s.pendingText.value.out].finalAnswer == finalAnswer
  }

  function StartText(s: Server, index: nat, id: string, finalAnswer: bool): (r: Server)
    requires s.Valid()
    ensures r.Valid()
  {
    if TextContinues(s, id, finalAnswer) then
      var p := s.pendingText.value;
      var b := p.(contentIndex := |s.items[p.out].parts|, text := "");
      AnnouncePart(SetBlock(s.(pendingText := None), index, b), b)
    else
      var s := FlushText(s);
      var b := Block(TextBlock, |s.items|, 0, 0, "");
      AnnouncePart(AddItem(SetBlock(s, index, b), MessageItem(IdOr(id, "msg", s), false, finalAnswer, [])), b)
  }

  predicate ReasoningContinues(s: Server, id: string)
    requires s.Valid()
  {
    s.pendingReasoning.Some? && (id == "" || s.items[s.pendingReasoning.value.out].id == id)
  }

  function StartReasoning(s: Server, index: nat, id: string): (r: Server)
    requires s.Valid()
    ensures r.Valid()
  {
    if ReasoningContinues(s, id) then
      var p := s.pendingReasoning.value;
      var b := p.(summaryIndex := |s.items[p.out].summary|, text := "");
      AnnouncePart(SetBlock(s.(pendingReasoning := None), index, b), b)
    else
      var s := FlushReasoning(s);
      var b := Block(ReasoningBlock, |s.items|, 0, 0, "");
      AnnouncePart(AddItem(SetBlock(s, index, b), ReasoningItem(IdOr(id, "rs", s), false, [], "")), b)
  }

  function StartTool(s: Server, index: nat, id: string, callId: string, name: string): (r: Server)
    requires s.Valid()
    ensures r.Valid()
  {
    var b := Block(ToolBlock, |s.items|, 0, 0, "");
    AddItem(SetBlock(s, index, b), CallItem(IdOr(id, "fc", s), false, callId, name, ""))
  }

  function OnStart(s: Server, index: nat, id: string, phase: CT.Phase, kind: CT.StartKind): (r: Server)
    requires s.Valid()
    ensures r.Valid()
  {
    match kind
    case TextStart =>
      if phase.Reasoning? then StartReasoning(FlushText(s), index, id)
      else StartText(FlushReasoning(s), index, id, IsFinalAnswer(phase))
    case ToolStart(callId, name) => StartTool(FlushItems(s), index, id, callId, name)
    case NoStart => FlushItems(s)
  }

  function PartIndex(b: Block): nat {
    if b.kind.ReasoningBlock? then b.summaryIndex else b.contentIndex
  }

  function DeltaWire(b: Block, itemId: string, d: CT.Delta): Wire {
    if d.ToolInputDelta? then ArgumentsDelta(b.out, itemId, d.text)
    else PartDelta(b.out, itemId, PartIndex(b), b.kind.ReasoningBlock?, d.text)
  }

  function OnDelta(s: Server, index: nat, d: CT.Delta): (r: Server)
    requires s.Valid()
    ensures r.Valid()
  {
    if index !in s.blocks || d.SignatureDelta? then s else
    var b := s.blocks[index];
    Write(SetBlock(s, index, b.(text := b.text + d.text)), DeltaWire(b, s.items[b.out].id, d))
  }

  function FinishText(s: Server, b: Block): (r: Server)
    requires s.Valid() && b.kind.TextBlock? && s.Fits(b)
    ensures r.Valid()
  {
    var item := s.items[b.out];
    var s := SetItem(s, b.out, item.(parts := item.parts + [b.text]));
    var s := Write(s, PartTextDone(b.out, item.id, b.contentIndex, false, b.text));
    Write(s, PartDone(b.out, item.id, b.contentIndex, false, b.text)).(pendingText := Some(b))
  }

  function FinishReasoning(s: Server, b: Block): (r: Server)
    requires s.Valid() && b.kind.ReasoningBlock? && s.Fits(b)
    ensures r.Valid()
  {
    var item := s.items[b.out];
    var s := SetItem(s, b.out, item.(summary := item.summary + [b.text]));
    var s := Write(s, PartTextDone(b.out, item.id, b.summaryIndex, true, b.text));
    Write(s, PartDone(b.out, item.id, b.summaryIndex, true, b.text)).(pendingReasoning := Some(b))
  }

  function FinishTool(s: Server, b: Block): (r: Server)
    requires s.Valid() && b.kind.ToolBlock? && s.Fits(b)
    ensures r.Valid()
  {
    var item := s.items[b.out];
    var s := SetItem(s, b.out, item.(arguments := b.text));
    Finish(Write(s, ArgumentsDone(b.out, item.id, b.text)), b.out)
  }

  function OnStop(s: Server, index: nat): (r: Server)
    requires s.Valid()
    ensures r.Valid()
  {
    if index !in s.blocks then s else
    var b := s.blocks[index];
    var s := s.(blocks := s.blocks - {index});
    match b.kind
    case TextBlock => FinishText(s, b)
    case ReasoningBlock => FinishReasoning(s, b)
    case ToolBlock => FinishTool(s, b)
  }

  function OnSnapshot(s: Server, c: CT.Content): (r: Server)
    requires s.Valid()
    ensures r.Valid()
  {
    var s := FlushText(s);
    if !c.phase.Reasoning? || !c.body.Opaque? || c.body.data == "" then FlushReasoning(s)
    else if ReasoningContinues(s, c.id) then
      var out := s.pendingReasoning.value.out;
      FlushReasoning(SetItem(s, out, s.items[out].(encrypted := c.body.data)))
    else
      var s := FlushReasoning(s);
      var out := |s.items|;
      Finish(AddItem(s, ReasoningItem(IdOr(c.id, "rs", s), false, [], c.body.data)), out)
  }

  function OnMessageStart(s: Server, requestId: string, messageId: string, model: string): (r: Server)
    requires s.Valid()
    ensures r.Valid()
  {
    var s := s.(responseId := if messageId == "" then requestId else messageId, model := model, status := InProgress,
                base := |s.items|, finalUsage := None);
    var s := Write(s, ResponseCreated(s.Response()));
    Write(s, ResponseInProgress(s.Response()))
  }

  function OnMessageStop(s: Server, status: CT.Status): (r: Server)
    requires s.Valid()
    ensures r.Valid()
  {
    var s := s.(status := StatusOf(status), finalUsage := s.usage);
    Write(s, ResponseEnded(TerminalOf(s.status), s.Response()))
  }

  /** What the payload of an event does. */
  function Handle(s: Server, requestId: string, p: CT.Payload): (r: Server)
    requires s.Valid()
    ensures r.Valid()
  {
    match p
    case MessageStart(messageId, model) => OnMessageStart(FlushItems(s), requestId, messageId, model)
    case ContentStart(id, index, phase, kind) => OnStart(s, index, id, phase, kind)
    case ContentDelta(index, d) => OnDelta(FlushItems(s), index, d)
    case ContentStop(index) => OnStop(FlushItems(s), index)
    case ContentSnapshot(c) => OnSnapshot(s, c)
    case MessageStop(status) => OnMessageStop(FlushItems(s), status)
    case NoPayload => s
  }

  function Step(s: Server, e: CT.Event): (r: Server)
    requires s.Valid()
    ensures r.Valid()
  {
    Handle(s.(usage := CT.MergeUsage(s.usage, e.usage)), e.requestId, e.payload)
  }

  /** The server after a whole stream. */
  function Run(s: Server, es: seq<CT.Event>): (r: Server)
    requires s.Valid()
    ensures r.Valid()
  {
    if es == [] then s else Step(Run(s, es[..|es| - 1]), es[|es| - 1])
  }
}
