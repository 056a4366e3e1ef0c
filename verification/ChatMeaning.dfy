/** What the chunks of a chat completion stream say, written by the server as the events say it, for all streams. */
module ChatMeaning {
  import opened Basics
  import opened ChatTypes
  import opened ChatWire
  import S = ChatStreamServers

  /** Something said or thought, or a fragment of a call. */
  datatype Piece = Uttered(phase: Phase, text: string) | Fragment(index: int, id: string, name: string, arguments: string) | Break

  function Utterance(phase: Phase, text: string): seq<Piece> {
    if text == "" then [] else [Uttered(phase, text)]
  }

  function Fragments(ts: seq<ToolCall>): seq<Piece> {
    if ts == [] then [] else
    var t := ts[|ts| - 1];
    Fragments(ts[..|ts| - 1]) + [Fragment(t.index, t.id, t.name, t.arguments)]
  }

  /** Within a chunk reasoning comes first, then the answer, then calls. */
  function PiecesOf(m: Choice): seq<Piece> {
    Utterance(Reasoning, m.reasoning) + Utterance(Normal, m.content) + Fragments(m.toolCalls)
  }

  // ----- The chunks that the server writes -----

  function Said(chunks: seq<Chunk>): seq<Piece> {
    if chunks == [] then [] else
    var m := chunks[|chunks| - 1].choice;
    Said(chunks[..|chunks| - 1]) + if m.Some? then PiecesOf(m.value) else []
  }

  /** The finish reasons given. */
  function Reasons(chunks: seq<Chunk>): seq<string> {
    if chunks == [] then [] else
    var m := chunks[|chunks| - 1].choice;
    Reasons(chunks[..|chunks| - 1]) + if m.Some? && m.value.finishReason != "" then [m.value.finishReason] else []
  }

  /** Calls started so far. */
  function Calls(es: seq<Event>): nat {
    if es == [] then 0 else
    var p := es[|es| - 1].payload;
    Calls(es[..|es| - 1]) + if p.ContentStart? && p.kind.ToolStart? then 1 else 0
  }

  /** Whether a block is open as a thought, and the ordinal of the call that it is open as, or zero. */
  function BlockHeard(es: seq<Event>, index: nat): (bool, nat) {
    if es == [] then (false, 0) else
    var front, p := es[..|es| - 1], es[|es| - 1].payload;
    if p.ContentStart? && p.index == index then (if p.kind.ToolStart? then (false, Calls(front)) else (p.phase == Reasoning, 0))
    else if p.ContentStop? && p.index == index then (false, 0)
    else BlockHeard(front, index)
  }

  /** What an event says after others: text by its block, calls by their ordinal; signatures are not passed on. */
  function Told(es: seq<Event>, e: Event): seq<Piece> {
    match e.payload
    case ContentStart(_, _, _, ToolStart(callId, name)) => [Fragment(Calls(es), callId, name, "")]
    case ContentDelta(index, TextDelta(text)) => Utterance(if BlockHeard(es, index).0 then Reasoning else Normal, text)
    case ContentDelta(index, ToolInputDelta(text)) => [Fragment(BlockHeard(es, index).1, "", "", text)]
    case _ => []
  }

  function AllTold(es: seq<Event>): seq<Piece> {
    if es == [] then [] else AllTold(es[..|es| - 1]) + Told(es[..|es| - 1], es[|es| - 1])
  }

  /** The reason that stands for a status, where there is one. */
  function ReasonFor(s: Status): seq<string> {
    match s
    case Completed => ["stop"]
    case PendingToolUse => ["tool_calls"]
    case ReachedTokenLimit => ["length"]
    case Refused => ["content_filter"]
    case Unspecified => []
    case InProgress => []
    case Failed => []
    case Cancelled => []
  }

  function AllReasons(es: seq<Event>): seq<string> {
    if es == [] then [] else
    var p := es[|es| - 1].payload;
    AllReasons(es[..|es| - 1]) + if p.MessageStop? then ReasonFor(p.status) else []
  }

  /** The server has said and finished this much. */
  ghost predicate Reads(s: S.Server, pieces: seq<Piece>, reasons: seq<string>) {
    Said(s.written) == pieces && Reasons(s.written) == reasons
  }

  lemma WriteReads(s: S.Server, m: Choice, pieces: seq<Piece>, reasons: seq<string>)
    requires Reads(s, pieces, reasons)
    ensures Reads(S.Write(s, m), pieces + PiecesOf(m), reasons + if m.finishReason == "" then [] else [m.finishReason])
  {
    assert S.Write(s, m).written[..|s.written|] == s.written;
    hide PiecesOf;
  }

  lemma UsageReads(s: S.Server, pieces: seq<Piece>, reasons: seq<string>)
    requires Reads(s, pieces, reasons)
    ensures Reads(S.WriteUsage(s), pieces, reasons)
  {
    if s.usage.Some? && !s.usageSent {
      assert S.WriteUsage(s).written[..|s.written|] == s.written;
      assert pieces + [] == pieces && reasons + [] == reasons;
    }
  }

  ghost predicate BlocksRead(es: seq<Event>, s: S.Server) {
    s.toolCount == Calls(es) && forall i: nat :: S.BlockAt(s, i) == S.BlockState(BlockHeard(es, i).0, BlockHeard(es, i).1)
  }

  lemma EventRead(s: S.Server, es: seq<Event>, e: Event, pieces: seq<Piece>, reasons: seq<string>)
    requires Reads(s, pieces, reasons) && BlocksRead(es, s)
    ensures Reads(S.Handle(s, e.payload), pieces + Told(es, e), reasons + if e.payload.MessageStop? then ReasonFor(e.payload.status) else [])
  {
    hide Reads, BlockHeard, Calls;
    assert pieces + [] == pieces && reasons + [] == reasons;
    NothingIn();
    match e.payload
    case MessageStart(id, model) =>
      SameReads(s, s.(id := id, model := model), pieces, reasons);
      WriteReads(s.(id := id, model := model), Choice("", "", [], ""), pieces, reasons);
    case ContentStart(_, index, phase, kind) =>
      if kind.ToolStart? {
        var s' := s.(toolCount := s.toolCount + 1, blocks := s.blocks[index := S.BlockState(false, s.toolCount)]);
        SameReads(s, s', pieces, reasons);
        CallIn(s.toolCount, kind.callId, kind.name, "");
        WriteReads(s', Choice("", "", [ToolCall(s.toolCount, kind.callId, kind.name, "")], ""), pieces, reasons);
      } else {
        SameReads(s, S.Handle(s, e.payload), pieces, reasons);
      }
    case ContentDelta(index, d) =>
      DeltaRead(s, es, e, pieces, reasons);
    case ContentStop(index) => SameReads(s, S.Handle(s, e.payload), pieces, reasons);
    case MessageStop(status) =>
      var s' := s.(status := status);
      SameReads(s, s', pieces, reasons);
      WriteReads(s', Choice("", "", [], FinishReasonOf(status)), pieces, reasons);
      UsageReads(S.Write(s', Choice("", "", [], FinishReasonOf(status))), pieces, reasons + ReasonFor(status));
    case _ =>
  }

  lemma DeltaRead(s: S.Server, es: seq<Event>, e: Event, pieces: seq<Piece>, reasons: seq<string>)
    requires Reads(s, pieces, reasons) && BlocksRead(es, s) && e.payload.ContentDelta?
    ensures Reads(S.Handle(s, e.payload), pieces + Told(es, e), reasons)
  {
    hide Reads, BlockHeard, Calls;
    var b := S.BlockAt(s, e.payload.index);
    assert pieces + [] == pieces && reasons + [] == reasons;
    match e.payload.delta
    case TextDelta(text) =>
      TextIn(text);
      WriteReads(s, if b.isReasoning then Choice("", text, [], "") else Choice(text, "", [], ""), pieces, reasons);
    case ToolInputDelta(text) =>
      CallIn(b.toolOrdinal, "", "", text);
      WriteReads(s, Choice("", "", [ToolCall(b.toolOrdinal, "", "", text)], ""), pieces, reasons);
    case SignatureDelta(_) =>
  }

  lemma SameReads(s: S.Server, r: S.Server, pieces: seq<Piece>, reasons: seq<string>)
    requires Reads(s, pieces, reasons) && r.written == s.written
    ensures Reads(r, pieces, reasons)
  {
  }

  lemma NothingIn()
    ensures forall reason :: PiecesOf(Choice("", "", [], reason)) == []
  {
  }

  lemma TextIn(text: string)
    ensures PiecesOf(Choice("", text, [], "")) == Utterance(Reasoning, text) && PiecesOf(Choice(text, "", [], "")) == Utterance(Normal, text)
  {
  }

  lemma CallIn(index: int, id: string, name: string, arguments: string)
    ensures PiecesOf(Choice("", "", [ToolCall(index, id, name, arguments)], "")) == [Fragment(index, id, name, arguments)]
  {
    assert Fragments([ToolCall(index, id, name, arguments)][..0]) == [];
  }

  lemma BlocksStep(es: seq<Event>, s: S.Server, e: Event)
    requires BlocksRead(es, s)
    ensures BlocksRead(es + [e], S.Handle(s, e.payload))
  {
    var r := S.Handle(s, e.payload);
    CallsMore(es, e);
    HandledCount(s, e.payload);
    forall i: nat
      ensures S.BlockAt(r, i) == S.BlockState(BlockHeard(es + [e], i).0, BlockHeard(es + [e], i).1)
    {
      BlockMore(es, e, i);
      HandledBlock(s, e.payload, i);
      hide BlockHeard, Calls, S.BlockAt, S.Handle;
    }
    hide BlockHeard, Calls, S.BlockAt, S.Handle;
  }

  lemma CallsMore(es: seq<Event>, e: Event)
    ensures Calls(es + [e]) == Calls(es) + if e.payload.ContentStart? && e.payload.kind.ToolStart? then 1 else 0
  {
    assert (es + [e])[..|es|] == es;
  }

  lemma BlockMore(es: seq<Event>, e: Event, i: nat)
    ensures var p := e.payload;
            BlockHeard(es + [e], i) ==
            if p.ContentStart? && p.index == i then (if p.kind.ToolStart? then (false, Calls(es)) else (p.phase == Reasoning, 0))
            else if p.ContentStop? && p.index == i then (false, 0) else BlockHeard(es, i)
  {
    assert (es + [e])[..|es|] == es;
  }

  lemma HandledCount(s: S.Server, p: Payload)
    ensures S.Handle(s, p).toolCount == s.toolCount + if p.ContentStart? && p.kind.ToolStart? then 1 else 0
  {
    hide FinishReasonOf;
  }

  lemma HandledBlock(s: S.Server, p: Payload, i: nat)
    ensures S.BlockAt(S.Handle(s, p), i) ==
            if p.ContentStart? && p.index == i then (if p.kind.ToolStart? then S.BlockState(false, s.toolCount) else S.BlockState(p.phase == Reasoning, 0))
            else if p.ContentStop? && p.index == i then S.BlockState(false, 0) else S.BlockAt(s, i)
  {
    hide FinishReasonOf;
  }

  /**
   For every stream of events: the chunks say what the events say, text as reasoning exactly if its block is open as a
   thought, calls by their ordinals; and finish with the reasons that stand for the statuses.
   */
  lemma {:induction false} ChunksTell(es: seq<Event>)
    ensures Said(S.Run(es).written) == AllTold(es) && Reasons(S.Run(es).written) == AllReasons(es)
  {
    RunReads(es);
    hide S.Run, AllTold, AllReasons, BlocksRead;
  }

  lemma {:induction false} RunReads(es: seq<Event>)
    ensures Reads(S.Run(es), AllTold(es), AllReasons(es)) && BlocksRead(es, S.Run(es))
  {
    hide *;
    if es == [] {
      NothingRead();
    } else {
      var front, e := es[..|es| - 1], es[|es| - 1];
      RunReads(front);
      assert front + [e] == es;
      RanReads(es);
      var s := S.Run(front);
      var u := s.(usage := MergeUsage(s.usage, e.usage));
      SameReads(s, u, AllTold(front), AllReasons(front));
      SameBlocks(front, s, u);
      EventRead(u, front, e, AllTold(front), AllReasons(front));
      BlocksStep(front, u, e);
    }
  }

  lemma NothingRead()
    ensures Reads(S.Run([]), AllTold([]), AllReasons([])) && BlocksRead([], S.Run([]))
  {
  }

  lemma RanReads(es: seq<Event>)
    requires es != []
    ensures var front, e := es[..|es| - 1], es[|es| - 1];
            && S.Run(es) == S.Handle(S.Run(front).(usage := MergeUsage(S.Run(front).usage, e.usage)), e.payload)
            && AllTold(es) == AllTold(front) + Told(front, e)
            && AllReasons(es) == AllReasons(front) + if e.payload.MessageStop? then ReasonFor(e.payload.status) else []
  {
    hide S.Handle, Told, ReasonFor;
  }

  lemma SameBlocks(es: seq<Event>, s: S.Server, u: S.Server)
    requires BlocksRead(es, s) && u.toolCount == s.toolCount && u.blocks == s.blocks
    ensures BlocksRead(es, u)
  {
  }
}
