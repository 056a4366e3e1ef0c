/** When the Responses stream leaves nothing unfinished: counting the items that no block and no pending part will finish. */
module ResponsesCompletion {
  import opened Basics
  import opened ResponsesTypes
  import opened ResponsesServers
  import opened ResponsesProtocol
  import CT = ChatTypes

  predicate OpensBlock(p: CT.Payload) {
    p.ContentStart? && !p.kind.NoStart?
  }

  /** The block indices that have been started and not stopped. */
  function OpenIndices(es: seq<CT.Event>): set<nat> {
    if es == [] then {} else
    var open, p := OpenIndices(es[..|es| - 1]), es[|es| - 1].payload;
    if OpensBlock(p) then open + {p.index} else if p.ContentStop? then open - {p.index} else open
  }

  /** How often an index was started while it was open. */
  function Reopenings(es: seq<CT.Event>): nat {
    if es == [] then 0 else
    var p := es[|es| - 1].payload;
    Reopenings(es[..|es| - 1]) + if OpensBlock(p) && p.index in OpenIndices(es[..|es| - 1]) then 1 else 0
  }

  function One(b: bool): int {
    if b then 1 else 0
  }

  function IsUnfinished(item: OutputItem): int {
    One(!item.completed)
  }

  function IsEnd(x: Sent): int {
    One(x.event.ResponseEnded?)
  }

  /** Unfinished items that no block and no pending part will finish. */
  function Debt(s: Server): int {
    SumOver(IsUnfinished, s.items) - |s.blocks| - One(s.pendingText.Some?) - One(s.pendingReasoning.Some?)
  }

  /** The step from s to r leaves as many more items unfinished for good, and writes as many more ends. */
  ghost predicate Counts(s: Server, r: Server, lost: int, ends: int) {
    Debt(r) == Debt(s) + lost && SumOver(IsEnd, r.sent) == SumOver(IsEnd, s.sent) + ends
  }

  lemma ActiveUnfinished(s: Server)
    requires Inv(s)
    ensures forall i <- s.blocks.Keys :: !s.items[s.blocks[i].out].completed
    ensures s.pendingText.Some? ==> !s.items[s.pendingText.value.out].completed
    ensures s.pendingReasoning.Some? ==> !s.items[s.pendingReasoning.value.out].completed
  {
  }

  lemma WriteCounts(s: Server, w: Wire)
    ensures Counts(s, Write(s, w), 0, One(w.ResponseEnded?))
  {
    SumAppend(IsEnd, s.sent, Sent(s.sequence, w));
  }

  lemma SetCounts(s: Server, out: nat, item: OutputItem)
    requires out < |s.items|
    ensures Counts(s, SetItem(s, out, item), One(!item.completed) - One(!s.items[out].completed), 0)
  {
    SumUpdate(IsUnfinished, s.items, out, item);
  }

  lemma FinishCounts(s: Server, out: nat)
    requires out < |s.items| && !s.items[out].completed
    ensures Counts(s, Finish(s, out), -1, 0)
  {
    var item := s.items[out].(completed := true);
    SetCounts(s, out, item);
    WriteCounts(SetItem(s, out, item), ItemDone(out, item));
  }

  lemma AddCounts(s: Server, item: OutputItem)
    requires !item.completed
    ensures Counts(s, AddItem(s, item), 1, 0)
  {
    SumAppend(IsUnfinished, s.items, item);
    WriteCounts(s.(items := s.items + [item]), ItemAdded(|s.items|, item));
  }

  lemma BlockCounts(s: Server, index: nat, b: Block)
    ensures Counts(s, SetBlock(s, index, b), One(index in s.blocks) - 1, 0)
    ensures SetBlock(s, index, b).blocks.Keys == s.blocks.Keys + {index}
  {
    if index in s.blocks {
      assert s.blocks[index := b].Keys == s.blocks.Keys;
    }
  }

  lemma FlushTextCounts(s: Server)
    requires Inv(s)
    ensures Counts(s, FlushText(s), 0, 0) && FlushText(s).blocks == s.blocks
  {
    if s.pendingText.Some? {
      ActiveUnfinished(s);
      FinishCounts(s.(pendingText := None), s.pendingText.value.out);
    }
  }

  lemma FlushReasoningCounts(s: Server)
    requires Inv(s)
    ensures Counts(s, FlushReasoning(s), 0, 0) && FlushReasoning(s).blocks == s.blocks
  {
    if s.pendingReasoning.Some? {
      ActiveUnfinished(s);
      FinishCounts(s.(pendingReasoning := None), s.pendingReasoning.value.out);
    }
  }

  lemma FlushItemsCounts(s: Server)
    requires Inv(s)
    ensures Counts(s, FlushItems(s), 0, 0) && FlushItems(s).blocks == s.blocks
  {
    FlushReasoningInv(s);
    FlushReasoningCounts(s);
    FlushTextCounts(FlushReasoning(s));
  }

  lemma OpenCounts(s: Server, index: nat, b: Block)
    requires b.out < |s.items|
    ensures var r := AnnouncePart(SetBlock(s, index, b), b);
            Counts(s, r, One(index in s.blocks) - 1, 0) && r.blocks.Keys == s.blocks.Keys + {index}
  {
    BlockCounts(s, index, b);
    WriteCounts(SetBlock(s, index, b), PartAdded(b.out, s.items[b.out].id, PartIndex(b), b.kind.ReasoningBlock?));
  }

  lemma NewBlockCounts(s: Server, index: nat, kind: BlockKind, item: OutputItem)
    requires s.Valid() && !item.completed && !kind.ToolBlock?
    ensures var b := Block(kind, |s.items|, 0, 0, "");
            var r := AnnouncePart(AddItem(SetBlock(s, index, b), item), b);
            Counts(s, r, One(index in s.blocks), 0) && r.blocks.Keys == s.blocks.Keys + {index}
  {
    var b := Block(kind, |s.items|, 0, 0, "");
    var t := SetBlock(s, index, b);
    BlockCounts(s, index, b);
    AddCounts(t, item);
    WriteCounts(AddItem(t, item), PartAdded(b.out, item.id, PartIndex(b), kind.ReasoningBlock?));
  }

  lemma StartTextCounts(s: Server, index: nat, id: string, finalAnswer: bool)
    requires Inv(s)
    ensures var r := StartText(s, index, id, finalAnswer);
            Counts(s, r, One(index in s.blocks), 0) && r.blocks.Keys == s.blocks.Keys + {index}
  {
    hide Inv, SumOver, Debt, FlushText, AnnouncePart, SetBlock;
    InvValid(s);
    if TextContinues(s, id, finalAnswer) {
      ResumeCounts(s, index,
                   s.pendingText.value.(contentIndex := |s.items[s.pendingText.value.out].parts|, text := ""));
    } else {
      FlushTextCounts(s);
      var f := FlushText(s);
      NewBlockCounts(f, index, TextBlock, MessageItem(IdOr(id, "msg", f), false, finalAnswer, []));
    }
  }

  lemma StartReasoningCounts(s: Server, index: nat, id: string)
    requires Inv(s)
    ensures var r := StartReasoning(s, index, id);
            Counts(s, r, One(index in s.blocks), 0) && r.blocks.Keys == s.blocks.Keys + {index}
  {
    hide Inv, SumOver, Debt, FlushReasoning, AnnouncePart, SetBlock;
    InvValid(s);
    if ReasoningContinues(s, id) {
      ResumeCounts(s, index,
                   s.pendingReasoning.value.(summaryIndex := |s.items[s.pendingReasoning.value.out].summary|, text := ""));
    } else {
      FlushReasoningCounts(s);
      var f := FlushReasoning(s);
      NewBlockCounts(f, index, ReasoningBlock, ReasoningItem(IdOr(id, "rs", f), false, [], ""));
    }
  }

  /** A pending item that becomes active again owes as much as before. */
  lemma ResumeCounts(s: Server, index: nat, b: Block)
    requires b.out < |s.items| && (if b.kind.TextBlock? then s.pendingText.Some? else s.pendingReasoning.Some?)
    ensures var r := AnnouncePart(SetBlock(if b.kind.TextBlock? then s.(pendingText := None) else s.(pendingReasoning := None),
                                           index, b), b);
            Counts(s, r, One(index in s.blocks), 0) && r.blocks.Keys == s.blocks.Keys + {index}
  {
    OpenCounts(if b.kind.TextBlock? then s.(pendingText := None) else s.(pendingReasoning := None), index, b);
  }

  lemma StartToolCounts(s: Server, index: nat, id: string, callId: string, name: string)
    requires s.Valid()
    ensures var r := StartTool(s, index, id, callId, name);
            Counts(s, r, One(index in s.blocks), 0) && r.blocks.Keys == s.blocks.Keys + {index}
  {
    var b := Block(ToolBlock, |s.items|, 0, 0, "");
    BlockCounts(s, index, b);
    AddCounts(SetBlock(s, index, b), CallItem(IdOr(id, "fc", s), false, callId, name, ""));
  }

  lemma DeltaCounts(s: Server, index: nat, d: CT.Delta)
    requires s.Valid()
    ensures Counts(s, OnDelta(s, index, d), 0, 0) && OnDelta(s, index, d).blocks.Keys == s.blocks.Keys
  {
    if index in s.blocks && !d.SignatureDelta? {
      var b := s.blocks[index];
      BlockCounts(s, index, b.(text := b.text + d.text));
      WriteCounts(SetBlock(s, index, b.(text := b.text + d.text)), DeltaWire(b, s.items[b.out].id, d));
    }
  }

  lemma FinishPartCounts(s: Server, b: Block)
    requires s.Valid() && s.Fits(b) && !b.kind.ToolBlock? && s.pendingText.None? && s.pendingReasoning.None?
    ensures Counts(s, if b.kind.TextBlock? then FinishText(s, b) else FinishReasoning(s, b), -1, 0)
  {
    var item, summary := s.items[b.out], b.kind.ReasoningBlock?;
    var item' := if summary then item.(summary := item.summary + [b.text]) else item.(parts := item.parts + [b.text]);
    var w, w' := PartTextDone(b.out, item.id, PartIndex(b), summary, b.text), PartDone(b.out, item.id, PartIndex(b), summary, b.text);
    SetCounts(s, b.out, item');
    WriteCounts(SetItem(s, b.out, item'), w);
    WriteCounts(Write(SetItem(s, b.out, item'), w), w');
  }

  lemma FinishToolCounts(s: Server, b: Block)
    requires s.Valid() && s.Fits(b) && b.kind.ToolBlock? && !s.items[b.out].completed
    ensures Counts(s, FinishTool(s, b), -1, 0)
  {
    var item := s.items[b.out].(arguments := b.text);
    SetCounts(s, b.out, item);
    WriteCounts(SetItem(s, b.out, item), ArgumentsDone(b.out, item.id, b.text));
    FinishCounts(Write(SetItem(s, b.out, item), ArgumentsDone(b.out, item.id, b.text)), b.out);
  }

  lemma StopCounts(s: Server, index: nat)
    requires Inv(s) && s.pendingText.None? && s.pendingReasoning.None?
    ensures Counts(s, OnStop(s, index), 0, 0) && OnStop(s, index).blocks.Keys == s.blocks.Keys - {index}
  {
    if index in s.blocks {
      ActiveUnfinished(s);
      assert s.Valid();
      hide Inv;
      StopOpenCounts(s, index);
    }
  }

  lemma StopOpenCounts(s: Server, index: nat)
    requires s.Valid() && s.pendingText.None? && s.pendingReasoning.None?
    requires index in s.blocks && !s.items[s.blocks[index].out].completed
    ensures Counts(s, OnStop(s, index), 0, 0) && OnStop(s, index).blocks.Keys == s.blocks.Keys - {index}
  {
    var b, d := s.blocks[index], s.(blocks := s.blocks - {index});
    assert d.blocks.Keys == s.blocks.Keys - {index};
    assert |d.blocks| == |s.blocks| - 1;
    assert Counts(s, d, 1, 0);
    assert d.Valid() && d.Fits(b) && s.Fits(b);
    if b.kind.ToolBlock? {
      FinishToolCounts(d, b);
    } else {
      FinishPartCounts(d, b);
    }
    hide SumOver, Server.Valid, FinishTool, FinishText, FinishReasoning, Server.Fits;
  }

  lemma SnapshotCounts(s: Server, c: CT.Content)
    requires Inv(s)
    ensures Counts(s, OnSnapshot(s, c), 0, 0) && OnSnapshot(s, c).blocks == s.blocks
  {
    hide Inv, Counts, FlushText, FlushReasoning, Server.Valid, ReasoningContinues;
    InvValid(s);
    FlushTextInv(s);
    FlushTextCounts(s);
    var f := FlushText(s);
    FlushReasoningCounts(f);
    CountsChain(s, f, FlushReasoning(f));
    if c.phase.Reasoning? && c.body.Opaque? && c.body.data != "" {
      if ReasoningContinues(f, c.id) {
        Continued(f, c.id);
        SealJoinedCounts(f, c.body.data);
      } else {
        SealAddedCounts(f, c.id, c.body.data);
      }
      CountsChain(s, f, OnSnapshot(s, c));
    }
  }

  lemma Continued(s: Server, id: string)
    requires s.Valid() && ReasoningContinues(s, id)
    ensures s.pendingReasoning.Some?
  {
  }

  lemma SealJoinedCounts(s: Server, data: string)
    requires Inv(s) && s.pendingReasoning.Some?
    ensures var out := s.pendingReasoning.value.out;
            var r := FlushReasoning(SetItem(s, out, s.items[out].(encrypted := data)));
            Counts(s, r, 0, 0) && r.blocks == s.blocks
  {
    ActiveUnfinished(s);
    var out := s.pendingReasoning.value.out;
    var item := s.items[out].(encrypted := data);
    var g := SetItem(s, out, item);
    SetCounts(s, out, item);
    FinishCounts(g.(pendingReasoning := None), out);
  }

  lemma SealAddedCounts(s: Server, id: string, data: string)
    requires Inv(s)
    ensures var f := FlushReasoning(s);
            var r := Finish(AddItem(f, ReasoningItem(IdOr(id, "rs", f), false, [], data)), |f.items|);
            Counts(s, r, 0, 0) && r.blocks == s.blocks
  {
    hide *;
    InvValid(s);
    FlushReasoningCounts(s);
    var f := FlushReasoning(s);
    var item := ReasoningItem(IdOr(id, "rs", f), false, [], data);
    FinishedAtOnce(f, item);
    CountsChain(s, f, Finish(AddItem(f, item), |f.items|));
  }

  lemma FinishedAtOnce(s: Server, item: OutputItem)
    requires !item.completed
    ensures |AddItem(s, item).items| > |s.items|
    ensures var r := Finish(AddItem(s, item), |s.items|); Counts(s, r, 0, 0) && r.blocks == s.blocks
  {
    AddCounts(s, item);
    FinishCounts(AddItem(s, item), |s.items|);
  }

  lemma StartCounts(s: Server, index: nat, id: string, phase: CT.Phase, kind: CT.StartKind)
    requires Inv(s)
    ensures var r := OnStart(s, index, id, phase, kind);
            if kind.NoStart? then Counts(s, r, 0, 0) && r.blocks == s.blocks
            else Counts(s, r, One(index in s.blocks), 0) && r.blocks.Keys == s.blocks.Keys + {index}
  {
    match kind
    case TextStart =>
      if phase.Reasoning? {
        FlushTextInv(s);
        FlushTextCounts(s);
        StartReasoningCounts(FlushText(s), index, id);
      } else {
        FlushReasoningInv(s);
        FlushReasoningCounts(s);
        StartTextCounts(FlushReasoning(s), index, id, IsFinalAnswer(phase));
      }
    case ToolStart(callId, name) =>
      FlushItemsCounts(s);
      StartToolCounts(FlushItems(s), index, id, callId, name);
    case NoStart =>
      FlushItemsCounts(s);
  }

  /** What one event does to the open blocks, to the items left unfinished for good, and to the ends written. */
  lemma StepCounts(s: Server, e: CT.Event)
    requires Inv(s)
    ensures var r, p := Step(s, e), e.payload;
            && r.blocks.Keys == (if OpensBlock(p) then s.blocks.Keys + {p.index}
                                 else if p.ContentStop? then s.blocks.Keys - {p.index} else s.blocks.Keys)
            && Counts(s, r, One(OpensBlock(p) && p.index in s.blocks), One(p.MessageStop?))
  {
    var u := s.(usage := CT.MergeUsage(s.usage, e.usage));
    assert Counts(s, u, 0, 0);
    UsageInv(s, u.usage);
    hide Inv, Handle;
    HandleCounts(u, e.requestId, e.payload);
  }

  lemma HandleCounts(s: Server, requestId: string, p: CT.Payload)
    requires Inv(s)
    ensures var r := Handle(s, requestId, p);
            && r.blocks.Keys == (if OpensBlock(p) then s.blocks.Keys + {p.index}
                                 else if p.ContentStop? then s.blocks.Keys - {p.index} else s.blocks.Keys)
            && Counts(s, r, One(OpensBlock(p) && p.index in s.blocks), One(p.MessageStop?))
  {
    hide Inv, Debt, SumOver, Server.Valid, FlushItems, OnStart, OnDelta, OnStop, OnSnapshot, OnMessageStart, OnMessageStop;
    InvValid(s);
    FlushItemsInv(s);
    FlushItemsCounts(s);
    var f := FlushItems(s);
    match p
    case MessageStart(messageId, model) => MessageStartCounts(f, requestId, messageId, model);
    case ContentStart(id, index, phase, kind) => StartCounts(s, index, id, phase, kind);
    case ContentDelta(index, d) => DeltaCounts(f, index, d);
    case ContentStop(index) => StopCounts(f, index);
    case ContentSnapshot(c) => SnapshotCounts(s, c);
    case MessageStop(status) => MessageStopCounts(f, status);
    case NoPayload =>
  }

  lemma MessageStartCounts(s: Server, requestId: string, messageId: string, model: string)
    requires s.Valid()
    ensures var r := OnMessageStart(s, requestId, messageId, model);
            Counts(s, r, 0, 0) && r.blocks == s.blocks
  {
    var s' := s.(responseId := if messageId == "" then requestId else messageId, model := model, status := InProgress,
                 base := |s.items|, finalUsage := None);
    assert Counts(s, s', 0, 0);
    hide Counts, Server.Response;
    WriteCounts(s', ResponseCreated(s'.Response()));
    var s'' := Write(s', ResponseCreated(s'.Response()));
    WriteCounts(s'', ResponseInProgress(s''.Response()));
    CountsChain(s, s', s'');
    CountsChain(s, s'', Write(s'', ResponseInProgress(s''.Response())));
  }

  lemma CountsChain(s: Server, r: Server, r': Server)
    requires Counts(s, r, 0, 0) && Counts(r, r', 0, 0)
    ensures Counts(s, r', 0, 0)
  {
  }

  lemma MessageStopCounts(s: Server, status: CT.Status)
    requires s.Valid()
    ensures var r := OnMessageStop(s, status);
            Counts(s, r, 0, 1) && r.blocks == s.blocks
  {
    hide SumOver, StatusOf, TerminalOf;
    var t := s.(status := StatusOf(status), finalUsage := s.usage);
    WriteCounts(t, ResponseEnded(TerminalOf(t.status), t.Response()));
  }

  lemma {:induction false} RunCounts(es: seq<CT.Event>)
    ensures var s := Run(START, es);
            && s.blocks.Keys == OpenIndices(es) && Debt(s) == Reopenings(es)
            && SumOver(IsEnd, s.sent) == SumOver(CT.IsStop, es)
  {
    if es != [] {
      hide Inv, Debt, Step;
      var n := |es| - 1;
      RunCounts(es[..n]);
      ProtocolSafety(es[..n]);
      StepCounts(Run(START, es[..n]), es[n]);
    }
  }

  lemma {:induction false} AllFinished(items: seq<OutputItem>)
    ensures SumOver(IsUnfinished, items) >= 0
    ensures SumOver(IsUnfinished, items) == 0 <==> forall k | 0 <= k < |items| :: items[k].completed
  {
    if items != [] {
      AllFinished(items[..|items| - 1]);
    }
  }

  /** Every item has been announced done, and as it is. */
  ghost predicate AllDone(s: Server) {
    forall out: nat | out < |s.items| :: LifeOf(s.sent, out) == Done(s.items[out])
  }

  /** Once nothing is pending or open, every item is done exactly when none is unfinished for good. */
  lemma DoneMeansFinished(s: Server)
    requires Inv(s) && s.pendingText.None? && s.pendingReasoning.None?
    ensures AllDone(s) <==> Debt(s) + |s.blocks| == 0
    ensures Debt(s) + |s.blocks| >= 0
  {
    hide Inv, LifeOf;
    AllFinished(s.items);
    forall out: nat | out < |s.items| ensures s.items[out].completed <==> LifeOf(s.sent, out) == Done(s.items[out]) {
      InvLive(s, out);
    }
    assert AllDone(s) <==> forall out: nat | out < |s.items| :: s.items[out].completed;
  }

  /**
   A stream that ends with its message leaves every item announced done, in its final form, if and only if no block's index was started again while
   it was open, and every block was stopped. The end of the response is then the last event, and there are as many of
   its kind as there were message stops.
   */
  lemma EveryItemDone(es: seq<CT.Event>, stop: CT.Event)
    requires stop.payload.MessageStop?
    ensures var s := Run(START, es + [stop]);
            && (AllDone(s) <==> OpenIndices(es) == {} && Reopenings(es) == 0)
            && s.sent != [] && s.sent[|s.sent| - 1].event == ResponseEnded(TerminalOf(s.status), s.Response())
            && SumOver(IsEnd, s.sent) == SumOver(CT.IsStop, es) + 1
  {
    hide Inv, Debt, Step, LifeOf;
    var all := es + [stop];
    assert all[..|es|] == es && all[|es|] == stop;
    var s := Run(START, all);
    ProtocolSafety(es);
    ProtocolSafety(all);
    RunCounts(all);
    EndOfMessage(Run(START, es), stop);
    DoneMeansFinished(s);
    hide AllDone;
    SumAppend(CT.IsStop, es, stop);
    assert OpenIndices(all) == OpenIndices(es) && Reopenings(all) == Reopenings(es);
    assert |s.blocks| == |s.blocks.Keys|;
  }

  /** How a response ends: calls are for the client to make, so they complete it; what is cut off is incomplete. */
  function EndingAs(status: CT.Status): (Terminal, ResponseStatus) {
    match status
    case Completed => (ResponseCompleted, Completed)
    case PendingToolUse => (ResponseCompleted, Completed)
    case ReachedTokenLimit => (ResponseIncomplete, IncompleteTokens)
    case Refused => (ResponseIncomplete, IncompleteFilter)
    case Failed => (ResponseFailed, FailedServer)
    case Cancelled => (ResponseFailed, CancelledStatus)
    case InProgress => (ResponseFailed, FailedNoStatus)
    case Unspecified => (ResponseFailed, FailedNoStatus)
  }

  lemma EndsAs(es: seq<CT.Event>, stop: CT.Event)
    requires stop.payload.MessageStop?
    ensures var s, ending := Run(START, es + [stop]), EndingAs(stop.payload.status);
            s.status == ending.1 && s.sent != [] && s.sent[|s.sent| - 1].event == ResponseEnded(ending.0, s.Response())
  {
    hide *;
    RunLast(es, stop);
    EveryItemDone(es, stop);
    StopSetsStatus(Run(START, es), stop);
    EndingOf(stop.payload.status);
  }

  lemma RunLast(es: seq<CT.Event>, e: CT.Event)
    ensures START.Valid() && Run(START, es).Valid() && Run(START, es + [e]) == Step(Run(START, es), e)
  {
    assert (es + [e])[..|es|] == es;
  }

  lemma EndingOf(status: CT.Status)
    ensures EndingAs(status) == (TerminalOf(StatusOf(status)), StatusOf(status))
  {
  }

  lemma StopSetsStatus(s: Server, stop: CT.Event)
    requires s.Valid() && stop.payload.MessageStop?
    ensures Step(s, stop).status == StatusOf(stop.payload.status)
  {
    hide FlushItems;
  }

  lemma EndOfMessage(s: Server, stop: CT.Event)
    requires Inv(s) && stop.payload.MessageStop?
    ensures var r := Step(s, stop);
            && r.pendingText.None? && r.pendingReasoning.None?
            && r.sent != [] && r.sent[|r.sent| - 1].event == ResponseEnded(TerminalOf(r.status), r.Response())
  {
    var u := s.(usage := CT.MergeUsage(s.usage, stop.usage));
    UsageInv(s, u.usage);
    FlushItemsInv(u);
  }
}
