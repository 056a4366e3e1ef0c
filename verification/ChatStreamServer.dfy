/** The chat completion stream server: re-encodes chat events as chunks. */
module ChatStreamServers {
  import opened Basics
  import opened ChatWire
  import CT = ChatTypes

  datatype BlockState = BlockState(isReasoning: bool, toolOrdinal: nat)

  datatype Server = Server(
    id: string, model: string, status: CT.Status, usage: Option<CT.Usage>, usageSent: bool,
    toolCount: nat, blocks: map<nat, BlockState>, written: seq<Chunk>)

  const START := Server("", "", CT.Unspecified, None, false, 0, map[], [])

  function BlockAt(s: Server, index: nat): BlockState {
    if index in s.blocks then s.blocks[index] else BlockState(false, 0)
  }

  function Write(s: Server, choice: Choice): Server {
    s.(written := s.written + [Chunk(s.id, s.model, Some(choice), NO_USAGE)])
  }

  function WriteUsage(s: Server): Server {
    if s.usage.None? || s.usageSent then s
    else s.(usageSent := true, written := s.written + [Chunk(s.id, s.model, None, s.usage.value)])
  }

  function OnStart(s: Server, index: nat, phase: CT.Phase, kind: CT.StartKind): Server {
    match kind
    case ToolStart(callId, name) =>
      Write(s.(toolCount := s.toolCount + 1, blocks := s.blocks[index := BlockState(false, s.toolCount)]),
            Choice("", "", [ToolCall(s.toolCount, callId, name, "")], ""))
    case _ => s.(blocks := s.blocks[index := BlockState(phase.Reasoning?, 0)])
  }

  function OnDelta(s: Server, index: nat, d: CT.Delta): Server {
    var b := BlockAt(s, index);
    match d
    case TextDelta(text) => Write(s, if b.isReasoning then Choice("", text, [], "") else Choice(text, "", [], ""))
    case ToolInputDelta(text) => Write(s, Choice("", "", [ToolCall(b.toolOrdinal, "", "", text)], ""))
    case SignatureDelta(_) => s
  }

  function Handle(s: Server, p: CT.Payload): Server {
    match p
    case MessageStart(id, model) => Write(s.(id := id, model := model), Choice("", "", [], ""))
    case ContentStart(_, index, phase, kind) => OnStart(s, index, phase, kind)
    case ContentDelta(index, d) => OnDelta(s, index, d)
    case ContentStop(index) => s.(blocks := s.blocks - {index})
    case MessageStop(status) => WriteUsage(Write(s.(status := status), Choice("", "", [], FinishReasonOf(status))))
    case ContentSnapshot(_) => s
    case NoPayload => s
  }

  function Step(s: Server, e: CT.Event): Server {
    Handle(s.(usage := CT.MergeUsage(s.usage, e.usage)), e.payload)
  }

  function Run(es: seq<CT.Event>): Server {
    if es == [] then START else Step(Run(es[..|es| - 1]), es[|es| - 1])
  }

  // ----- The server as an object -----

  class ChatCompletionStreamServer {
    var id: string
    var model: string
    var status: CT.Status
    var usage: Option<CT.Usage>
    var usageSent: bool
    var toolCount: nat
    var blocks: map<nat, BlockState>
    var written: seq<Chunk>

    ghost function Value(): Server
      reads this
    {
      Server(id, model, status, usage, usageSent, toolCount, blocks, written)
    }

    constructor ()
      ensures Value() == START
    {
      id, model, status, usage, usageSent, toolCount, blocks, written := "", "", CT.Unspecified, None, false, 0, map[], [];
    }

    method WriteChunk(choice: Option<Choice>, report: CT.Usage)
      modifies `written
      ensures written == old(written) + [Chunk(id, model, choice, report)]
    {
      written := written + [Chunk(id, model, choice, report)];
    }

    method WriteUsageChunk()
      modifies `usageSent, `written
      ensures Value() == WriteUsage(old(Value()))
    {
      if usage.None? || usageSent {
        return;
      }
      usageSent := true;
      WriteChunk(None, usage.value);
    }

    method SendStart(index: nat, phase: CT.Phase, kind: CT.StartKind)
      modifies this
      ensures Value() == OnStart(old(Value()), index, phase, kind)
    {
      match kind {
        case ToolStart(callId, name) =>
          var ordinal := toolCount;
          toolCount := toolCount + 1;
          blocks := blocks[index := BlockState(false, ordinal)];
          WriteChunk(Some(Choice("", "", [ToolCall(ordinal, callId, name, "")], "")), NO_USAGE);
        case _ =>
          blocks := blocks[index := BlockState(phase.Reasoning?, 0)];
      }
    }

    method SendDelta(index: nat, d: CT.Delta)
      modifies this
      ensures Value() == OnDelta(old(Value()), index, d)
    {
      var block := if index in blocks then blocks[index] else BlockState(false, 0);
      match d {
        case TextDelta(text) =>
          WriteChunk(Some(if block.isReasoning then Choice("", text, [], "") else Choice(text, "", [], "")), NO_USAGE);
        case ToolInputDelta(text) =>
          WriteChunk(Some(Choice("", "", [ToolCall(block.toolOrdinal, "", "", text)], "")), NO_USAGE);
        case SignatureDelta(_) =>
      }
    }

    method Send(e: CT.Event)
      modifies this
      ensures Value() == Step(old(Value()), e)
    {
      usage := CT.MergeUsage(usage, e.usage);
      match e.payload {
        case MessageStart(id', model') =>
          id, model := id', model';
          WriteChunk(Some(Choice("", "", [], "")), NO_USAGE);
        case ContentStart(_, index, phase, kind) =>
          SendStart(index, phase, kind);
        case ContentDelta(index, d) =>
          SendDelta(index, d);
        case ContentStop(index) =>
          blocks := blocks - {index};
        case MessageStop(status') =>
          status := status';
          WriteChunk(Some(Choice("", "", [], FinishReasonOf(status'))), NO_USAGE);
          WriteUsageChunk();
        case ContentSnapshot(_) =>
        case NoPayload =>
      }
    }
  }

  // ----- What a reader of the chunks can rely on -----

  /** Chunks have only been added, and each of them carries this id and model. */
  ghost predicate AddsNamed(s: Server, r: Server, name: (string, string)) {
    && s.written <= r.written
    && forall k | |s.written| <= k < |r.written| :: (r.written[k].id, r.written[k].model) == name
  }

  /** Every chunk is of the message that has started last when it is written, whatever the stream. */
  lemma {:induction false} ChunksNamed(es: seq<CT.Event>, e: CT.Event)
    ensures (Run(es).id, Run(es).model) == CT.LastStart(es)
    ensures AddsNamed(Run(es), Run(es + [e]), CT.LastStart(es + [e]))
    decreases es
  {
    assert (es + [e])[..|es|] == es;
    if es != [] {
      var n := |es| - 1;
      ChunksNamed(es[..n], es[n]);
      StepNamed(Run(es[..n]), es[n]);
    }
    StepNamed(Run(es), e);
  }

  lemma StepNamed(s: Server, e: CT.Event)
    ensures var r, p := Step(s, e), e.payload;
            && (r.id, r.model) == (if p.MessageStart? then (p.messageId, p.model) else (s.id, s.model))
            && AddsNamed(s, r, (r.id, r.model))
  {
  }

  function IsUsage(c: Chunk): int {
    if c.choice.None? then 1 else 0
  }

  ghost predicate Reported(es: seq<CT.Event>) {
    exists e <- es :: e.usage.Some?
  }

  /** A message has stopped with usage reported by then. */
  ghost predicate HasStop(es: seq<CT.Event>) {
    exists k | 0 <= k < |es| :: es[k].payload.MessageStop? && Reported(es[..k + 1])
  }

  lemma HasStopMore(es: seq<CT.Event>, e: CT.Event)
    ensures HasStop(es + [e]) <==> HasStop(es) || (e.payload.MessageStop? && Reported(es + [e]))
  {
    hide Reported;
    var all := es + [e];
    assert all[|es|] == e && all[..|es| + 1] == all;
    assert forall k | 0 <= k < |es| :: all[k] == es[k] && all[..k + 1] == es[..k + 1];
    if HasStop(es) {
      var k :| 0 <= k < |es| && es[k].payload.MessageStop? && Reported(es[..k + 1]);
      assert all[k].payload.MessageStop? && Reported(all[..k + 1]);
    }
  }

  lemma {:induction false} UsageKnown(es: seq<CT.Event>)
    ensures Run(es).usage.Some? <==> Reported(es)
  {
    if es != [] {
      var n := |es| - 1;
      UsageKnown(es[..n]);
      assert es == es[..n] + [es[n]];
      var s := Run(es[..n]);
      StepUsage(s, es[n]);
      hide Step;
    }
  }

  lemma StepUsage(s: Server, e: CT.Event)
    ensures Step(s, e).usage == CT.MergeUsage(s.usage, e.usage)
  {
  }

  lemma StepCounted(s: Server, e: CT.Event)
    ensures var r := Step(s, e);
            var sends := e.payload.MessageStop? && r.usage.Some? && !s.usageSent;
            && SumOver(IsUsage, r.written) == SumOver(IsUsage, s.written) + (if sends then 1 else 0)
            && (r.usageSent <==> s.usageSent || sends)
  {
    hide SumOver;
    var u := s.(usage := CT.MergeUsage(s.usage, e.usage));
    match e.payload
    case MessageStop(status) =>
      WriteCounted(u.(status := status), Choice("", "", [], FinishReasonOf(status)));
      UsageCounted(Write(u.(status := status), Choice("", "", [], FinishReasonOf(status))));
    case MessageStart(id, model) => WriteCounted(u.(id := id, model := model), Choice("", "", [], ""));
    case ContentStart(_, index, phase, kind) => StartCounted(u, index, phase, kind);
    case ContentDelta(index, d) => DeltaCounted(u, index, d);
    case _ =>
  }

  /** Usage is written once, when a message stops after some has been reported, and never again. */
  lemma {:induction false} UsageOnce(es: seq<CT.Event>)
    ensures SumOver(IsUsage, Run(es).written) == (if HasStop(es) then 1 else 0) && (Run(es).usageSent <==> HasStop(es))
  {
    if es != [] {
      var n := |es| - 1;
      UsageOnce(es[..n]);
      UsageKnown(es);
      HasStopMore(es[..n], es[n]);
      assert es[..n] + [es[n]] == es;
      StepCounted(Run(es[..n]), es[n]);
      hide HasStop, Reported, Step, SumOver;
    }
  }

  lemma WriteCounted(s: Server, choice: Choice)
    ensures SumOver(IsUsage, Write(s, choice).written) == SumOver(IsUsage, s.written)
  {
    SumAppend(IsUsage, s.written, Chunk(s.id, s.model, Some(choice), NO_USAGE));
  }

  lemma UsageCounted(s: Server)
    ensures SumOver(IsUsage, WriteUsage(s).written) == SumOver(IsUsage, s.written) + if s.usage.Some? && !s.usageSent then 1 else 0
  {
    if s.usage.Some? {
      SumAppend(IsUsage, s.written, Chunk(s.id, s.model, None, s.usage.value));
    }
  }

  lemma StartCounted(s: Server, index: nat, phase: CT.Phase, kind: CT.StartKind)
    ensures SumOver(IsUsage, OnStart(s, index, phase, kind).written) == SumOver(IsUsage, s.written)
  {
    if kind.ToolStart? {
      WriteCounted(s.(toolCount := s.toolCount + 1, blocks := s.blocks[index := BlockState(false, s.toolCount)]),
                   Choice("", "", [ToolCall(s.toolCount, kind.callId, kind.name, "")], ""));
    }
  }

  lemma DeltaCounted(s: Server, index: nat, d: CT.Delta)
    ensures SumOver(IsUsage, OnDelta(s, index, d).written) == SumOver(IsUsage, s.written)
  {
    var b := BlockAt(s, index);
    match d {
      case TextDelta(text) => WriteCounted(s, if b.isReasoning then Choice("", text, [], "") else Choice(text, "", [], ""));
      case ToolInputDelta(text) => WriteCounted(s, Choice("", "", [ToolCall(b.toolOrdinal, "", "", text)], ""));
      case SignatureDelta(_) =>
    }
  }
}
