/**
 The Responses stream server as an object. Its output items are shared: a block writes to the same item that the
 response lists and that the closing events report. Every method does to the server's value what the functions of
 ResponsesServers say.
 */
module ResponsesStreamServers {
  import opened Basics
  import opened ResponsesTypes
  import opened ResponsesServers
  import CT = ChatTypes

  /** An open block with the item it writes to. */
  datatype OpenBlock = OpenBlock(block: Block, cell: ItemCell)

  function Plain(b: Option<OpenBlock>): Option<Block> {
    if b.Some? then Some(b.value.block) else None
  }

  lemma FewerBlocks(s: Server, index: nat)
    requires s.Valid()
    ensures s.(blocks := s.blocks - {index}).Valid()
  {
  }

  lemma MoreItems(s: Server, item: OutputItem)
    requires s.Valid()
    ensures s.(items := s.items + [item]).Valid()
  {
  }

  lemma Retexted(s: Server, b: Block, item: OutputItem)
    requires s.Valid() && s.Fits(b)
    requires match b.kind case TextBlock => item.MessageItem? case ReasoningBlock => item.ReasoningItem? case ToolBlock => item.CallItem?
    ensures var r := SetItem(s, b.out, item); r.Valid() && r.Fits(b)
  {
  }

  lemma Repended(s: Server, b: Block)
    requires s.Valid() && s.Fits(b) && !b.kind.ToolBlock?
    ensures (if b.kind.TextBlock? then s.(pendingText := Some(b)) else s.(pendingReasoning := Some(b))).Valid()
  {
  }

  lemma StaysValid(s: Server, r: Server)
    requires s.Valid() && r.items == s.items && r.base == s.base && r.blocks == s.blocks
    requires r.pendingText == s.pendingText && r.pendingReasoning == s.pendingReasoning
    ensures r.Valid()
  {
  }

  lemma NewBlockFits(s: Server, index: nat, kind: BlockKind, item: OutputItem)
    requires s.Valid()
    requires match kind case TextBlock => item.MessageItem? case ReasoningBlock => item.ReasoningItem? case ToolBlock => item.CallItem?
    ensures SetBlock(s.(items := s.items + [item]), index, Block(kind, |s.items|, 0, 0, "")).Valid()
  {
  }

  lemma SameBlockFits(s: Server, index: nat, b: Block)
    requires s.Valid() && index in s.blocks && b.kind == s.blocks[index].kind && b.out == s.blocks[index].out
    ensures SetBlock(s, index, b).Valid()
  {
  }

  class ResponsesStreamServer {
    var sequenceNumber: nat
    var nextOutputIndex: nat
    var written: seq<Sent>
    var responseId: string
    var model: string
    var status: ResponseStatus
    var finalUsage: Option<CT.Usage>
    var output: seq<ItemCell>
    var usage: Option<CT.Usage>
    var blocks: map<nat, OpenBlock>
    var pendingText: Option<OpenBlock>
    var pendingReasoning: Option<OpenBlock>
    ghost var earlier: seq<ItemCell>                       // items of responses that a later message start replaced

    ghost function Cells(): seq<ItemCell>
      reads `earlier, `output
    {
      earlier + output
    }

    ghost function Items(): seq<OutputItem>
      reads `earlier, `output, Cells()
    {
      var cells := Cells();
      seq(|cells|, k requires 0 <= k < |cells| reads cells => cells[k].item)
    }

    ghost function Value(): Server
      reads this, Cells()
    {
      Server(sequenceNumber, written, Items(), |earlier|, responseId, model, status, usage, finalUsage,
             map i | i in blocks :: blocks[i].block, Plain(pendingText), Plain(pendingReasoning))
    }

    ghost predicate Holds(b: OpenBlock)
      reads `earlier, `output
    {
      b.block.out < |Cells()| && Cells()[b.block.out] == b.cell
    }

    /** The items are distinct objects, and every block in use holds the item listed at its output index. */
    ghost predicate Linked()
      reads `earlier, `output, `nextOutputIndex, `blocks, `pendingText, `pendingReasoning
    {
      && (forall i, j | 0 <= i < j < |Cells()| :: Cells()[i] != Cells()[j])
      && nextOutputIndex == |Cells()|
      && (forall i <- blocks.Keys :: Holds(blocks[i]))
      && (pendingText.Some? ==> Holds(pendingText.value))
      && (pendingReasoning.Some? ==> Holds(pendingReasoning.value))
    }

    ghost predicate Valid()
      reads this, Cells()
    {
      Linked() && Value().Valid()
    }

    constructor ()
      ensures Valid() && Value() == START && Cells() == []
    {
      sequenceNumber, nextOutputIndex, written, output, earlier := 0, 0, [], [], [];
      responseId, model, status, finalUsage, usage := "", "", InProgress, None, None;
      blocks, pendingText, pendingReasoning := map[], None, None;
    }

    /** All items so far are kept, and those added are new objects. */
    twostate predicate Grown()
      reads this
    {
      old(Cells()) <= Cells() && forall k | |old(Cells())| <= k < |Cells()| :: fresh(Cells()[k])
    }

    // ----- Elementary changes -----

    method WriteEvent(w: Wire)
      requires Valid()
      modifies `written, `sequenceNumber
      ensures Valid() && Value() == Write(old(Value()), w)
    {
      hide Server.Valid, ResponsesStreamServer.Linked;
      written := written + [Sent(sequenceNumber, w)];
      sequenceNumber := sequenceNumber + 1;
      assert Items() == old(Items());
      StaysValid(old(Value()), Value());
    }

    method SetItemOf(b: OpenBlock, item: OutputItem)
      requires Valid() && Holds(b)
      requires SetItem(Value(), b.block.out, item).Valid()
      modifies b.cell
      ensures Valid() && Value() == SetItem(old(Value()), b.block.out, item)
    {
      b.cell.item := item;
      assert Items() == old(Items())[b.block.out := item];
    }

    method SetPendingText(b: Option<OpenBlock>)
      requires Valid() && (b.Some? ==> Holds(b.value)) && Value().(pendingText := Plain(b)).Valid()
      modifies `pendingText
      ensures Valid() && Value() == old(Value()).(pendingText := Plain(b)) && pendingText == b
    {
      pendingText := b;
      assert Items() == old(Items());
    }

    method SetPendingReasoning(b: Option<OpenBlock>)
      requires Valid() && (b.Some? ==> Holds(b.value)) && Value().(pendingReasoning := Plain(b)).Valid()
      modifies `pendingReasoning
      ensures Valid() && Value() == old(Value()).(pendingReasoning := Plain(b)) && pendingReasoning == b
    {
      pendingReasoning := b;
      assert Items() == old(Items());
    }

    method PutBlock(index: nat, b: OpenBlock)
      requires Valid() && Holds(b) && SetBlock(Value(), index, b.block).Valid()
      modifies `blocks
      ensures Valid() && Value() == SetBlock(old(Value()), index, b.block)
    {
      blocks := blocks[index := b];
      assert Items() == old(Items());
      assert Value().blocks == old(Value()).blocks[index := b.block];
    }

    method DeleteBlock(index: nat)
      requires Valid()
      modifies `blocks
      ensures Valid() && Value() == old(Value()).(blocks := old(Value()).blocks - {index})
    {
      FewerBlocks(Value(), index);
      blocks := blocks - {index};
      assert Items() == old(Items());
      hide ResponsesStreamServer.Items, Server.Valid;
      assert Value().blocks == old(Value()).blocks - {index};
    }

    /** Lists a new item at the next output index. */
    method AppendItem(item: OutputItem) returns (cell: ItemCell)
      requires Valid()
      modifies `output, `nextOutputIndex
      ensures Valid() && Value() == old(Value()).(items := old(Value()).items + [item])
      ensures fresh(cell) && Cells() == old(Cells()) + [cell] && cell.item == item
    {
      cell := new ItemCell(item);
      output := output + [cell];
      nextOutputIndex := nextOutputIndex + 1;
      assert Cells() == old(Cells()) + [cell];
      assert Items() == old(Items()) + [item] by {
        hide Server.Valid;
      }
      assert Linked() by {
        hide Server.Valid, ResponsesStreamServer.Items;
      }
      hide Server.Valid, ResponsesStreamServer.Linked, ResponsesStreamServer.Items;
      MoreItems(old(Value()), item);
    }

    // ----- Closing pending items -----

    method WriteItemDone(b: OpenBlock)
      requires Valid() && Holds(b)
      modifies this, b.cell
      ensures Valid() && Value() == Finish(old(Value()), b.block.out)
      ensures Cells() == old(Cells()) && pendingText == old(pendingText) && pendingReasoning == old(pendingReasoning) && blocks == old(blocks)
    {
      hide *;
      Views();
      HeldItem(b);
      FinishedBy(Value(), b.block.out);
      SetItemOf(b, b.cell.item.(completed := true));
      HeldItem(b);
      WriteEvent(ItemDone(b.block.out, b.cell.item));
    }

    lemma FinishedBy(s: Server, out: nat)
      requires s.Valid() && out < |s.items|
      ensures var item := s.items[out].(completed := true);
              && SetItem(s, out, item).Valid() && out < |SetItem(s, out, item).items| && SetItem(s, out, item).items[out] == item
              && Finish(s, out) == Write(SetItem(s, out, item), ItemDone(out, item))
    {
    }

    method FlushPendingText()
      requires Valid()
      modifies this, Cells()
      ensures Valid() && Value() == FlushText(old(Value())) && Cells() == old(Cells())
    {
      if pendingText.Some? {
        var b := pendingText.value;
        SetPendingText(None);
        WriteItemDone(b);
      }
    }

    method FlushPendingReasoning()
      requires Valid()
      modifies this, Cells()
      ensures Valid() && Value() == FlushReasoning(old(Value())) && Cells() == old(Cells())
    {
      if pendingReasoning.Some? {
        var b := pendingReasoning.value;
        SetPendingReasoning(None);
        WriteItemDone(b);
      }
    }

    method FlushPendingItems()
      requires Valid()
      modifies this, Cells()
      ensures Valid() && Value() == FlushItems(old(Value())) && Cells() == old(Cells())
    {
      FlushPendingReasoning();
      FlushPendingText();
    }

    // ----- Handlers -----

    /** A block in use reaches its item through the listed cell. */
    lemma HeldItem(b: OpenBlock)
      requires Valid() && Holds(b)
      ensures b.block.out < |Value().items| && Value().items[b.block.out] == b.cell.item
    {
    }

    /** Lists and announces a new item, and registers the block that writes to it. */
    method OpenItem(index: nat, kind: BlockKind, item: OutputItem) returns (b: OpenBlock)
      requires Valid()
      requires match kind case TextBlock => item.MessageItem? case ReasoningBlock => item.ReasoningItem? case ToolBlock => item.CallItem?
      modifies this
      ensures b.block == Block(kind, |old(Value()).items|, 0, 0, "")
      ensures Valid() && Value() == AddItem(SetBlock(old(Value()), index, b.block), item)
      ensures Grown() && b.cell.item == item
    {
      hide ResponsesStreamServer.Valid, ResponsesStreamServer.Value, ResponsesStreamServer.Linked, ResponsesStreamServer.Items;
      hide Server.Valid, Server.Fits;
      Views();
      NewBlockFits(Value(), index, kind, item);
      var out := nextOutputIndex;
      var cell := AppendItem(item);
      b := OpenBlock(Block(kind, out, 0, 0, ""), cell);
      PutBlock(index, b);
      WriteEvent(ItemAdded(out, item));
    }

    /** Makes a held-back item active again. */
    method ResumeItem(index: nat, b: OpenBlock)
      requires Valid() && Holds(b) && Value().Fits(b.block) && !b.block.kind.ToolBlock?
      modifies `blocks, `written, `sequenceNumber
      ensures Valid() && Value() == AnnouncePart(SetBlock(old(Value()), index, b.block), b.block)
    {
      HeldItem(b);
      PutBlock(index, b);
      WriteEvent(PartAdded(b.block.out, b.cell.item.id, PartIndex(b.block), b.block.kind.ReasoningBlock?));
    }

    lemma Views()
      requires Valid()
      ensures Value().pendingText == Plain(pendingText) && (pendingText.Some? ==> Holds(pendingText.value))
      ensures Value().pendingReasoning == Plain(pendingReasoning) && (pendingReasoning.Some? ==> Holds(pendingReasoning.value))
      ensures Value().blocks.Keys == blocks.Keys && forall i <- blocks.Keys :: Value().blocks[i] == blocks[i].block && Holds(blocks[i])
      ensures |Value().items| == nextOutputIndex == |Cells()| && Value().responseId == responseId && Value().usage == usage && Value().status == status
      ensures Value().Valid()
    {
    }

    method StartTextBlock(index: nat, id: string, finalAnswer: bool)
      requires Valid()
      modifies this, Cells()
      ensures Valid() && Value() == StartText(old(Value()), index, id, finalAnswer) && Grown()
    {
      Views();
      if pendingText.Some? {
        HeldItem(pendingText.value);
      }
      if id != "" && pendingText.Some? && pendingText.value.cell.item.id == id && pendingText.value.cell.item.finalAnswer == finalAnswer {
        var b := pendingText.value;
        var parts := |b.cell.item.parts|;
        SetPendingText(None);
        ResumeItem(index, b.(block := b.block.(contentIndex := parts, text := "")));
      } else {
        NewText(index, id, finalAnswer);
      }
    }

    method NewText(index: nat, id: string, finalAnswer: bool)
      requires Valid() && !TextContinues(Value(), id, finalAnswer)
      modifies this, Cells()
      ensures Valid() && Value() == StartText(old(Value()), index, id, finalAnswer) && Grown()
    {
      hide ResponsesStreamServer.Valid, ResponsesStreamServer.Value;
      FlushPendingText();
      Views();
      var itemId := if id == "" then SyntheticId("msg", responseId, nextOutputIndex) else id;
      var b := OpenItem(index, TextBlock, MessageItem(itemId, false, finalAnswer, []));
      WriteEvent(PartAdded(b.block.out, itemId, 0, false));
    }

    method StartReasoningBlock(index: nat, id: string)
      requires Valid()
      modifies this, Cells()
      ensures Valid() && Value() == StartReasoning(old(Value()), index, id) && Grown()
    {
      Views();
      if pendingReasoning.Some? {
        HeldItem(pendingReasoning.value);
      }
      if pendingReasoning.Some? && (id == "" || pendingReasoning.value.cell.item.id == id) {
        var b := pendingReasoning.value;
        var parts := |b.cell.item.summary|;
        SetPendingReasoning(None);
        ResumeItem(index, b.(block := b.block.(summaryIndex := parts, text := "")));
      } else {
        NewReasoning(index, id);
      }
    }

    method NewReasoning(index: nat, id: string)
      requires Valid() && !ReasoningContinues(Value(), id)
      modifies this, Cells()
      ensures Valid() && Value() == StartReasoning(old(Value()), index, id) && Grown()
    {
      hide ResponsesStreamServer.Valid, ResponsesStreamServer.Value;
      FlushPendingReasoning();
      Views();
      var itemId := if id == "" then SyntheticId("rs", responseId, nextOutputIndex) else id;
      var b := OpenItem(index, ReasoningBlock, ReasoningItem(itemId, false, [], ""));
      WriteEvent(PartAdded(b.block.out, itemId, 0, true));
    }

    method StartToolBlock(index: nat, id: string, callId: string, name: string)
      requires Valid()
      modifies this, Cells()
      ensures Valid() && Value() == StartTool(old(Value()), index, id, callId, name) && Grown()
    {
      hide ResponsesStreamServer.Valid, ResponsesStreamServer.Value;
      Views();
      var itemId := if id == "" then SyntheticId("fc", responseId, nextOutputIndex) else id;
      var b := OpenItem(index, ToolBlock, CallItem(itemId, false, callId, name, ""));
    }

    method HandleContentStart(index: nat, id: string, phase: CT.Phase, kind: CT.StartKind)
      requires Valid()
      modifies this, Cells()
      ensures Valid() && Value() == OnStart(old(Value()), index, id, phase, kind) && Grown()
    {
      hide ResponsesStreamServer.Valid, ResponsesStreamServer.Value;
      match kind {
        case TextStart =>
          if phase.Reasoning? {
            FlushPendingText();
            StartReasoningBlock(index, id);
          } else {
            FlushPendingReasoning();
            StartTextBlock(index, id, IsFinalAnswer(phase));
          }
        case ToolStart(callId, name) =>
          FlushPendingItems();
          StartToolBlock(index, id, callId, name);
        case NoStart =>
          FlushPendingItems();
      }
    }

    method HandleContentDelta(index: nat, d: CT.Delta)
      requires Valid()
      modifies this
      ensures Valid() && Value() == OnDelta(old(Value()), index, d) && Cells() == old(Cells())
    {
      hide ResponsesStreamServer.Linked, ResponsesStreamServer.Items;
      Views();
      if index in blocks && !d.SignatureDelta? {
        var b := blocks[index];
        HeldItem(b);
        hide ResponsesStreamServer.Valid, ResponsesStreamServer.Value, Server.Valid, Server.Fits;
        var b' := b.(block := b.block.(text := b.block.text + d.text));
        SameBlockFits(Value(), index, b'.block);
        PutBlock(index, b');
        WriteEvent(DeltaWire(b.block, b.cell.item.id, d));
      }
    }

    method FinishTextBlock(b: OpenBlock)
      requires Valid() && Holds(b) && b.block.kind.TextBlock? && Value().Fits(b.block)
      modifies this, b.cell
      ensures Valid() && Value() == FinishText(old(Value()), b.block) && Cells() == old(Cells())
    {
      HeldItem(b);
      hide ResponsesStreamServer.Valid, ResponsesStreamServer.Value, Server.Valid;
      var item, text := b.cell.item, b.block.text;
      Retexted(Value(), b.block, item.(parts := item.parts + [text]));
      SetItemOf(b, item.(parts := item.parts + [text]));
      WriteEvent(PartTextDone(b.block.out, item.id, b.block.contentIndex, false, text));
      WriteEvent(PartDone(b.block.out, item.id, b.block.contentIndex, false, text));
      Repended(Value(), b.block);
      SetPendingText(Some(b));
    }

    method FinishReasoningBlock(b: OpenBlock)
      requires Valid() && Holds(b) && b.block.kind.ReasoningBlock? && Value().Fits(b.block)
      modifies this, b.cell
      ensures Valid() && Value() == FinishReasoning(old(Value()), b.block) && Cells() == old(Cells())
    {
      HeldItem(b);
      hide ResponsesStreamServer.Valid, ResponsesStreamServer.Value, Server.Valid;
      var item, text := b.cell.item, b.block.text;
      Retexted(Value(), b.block, item.(summary := item.summary + [text]));
      SetItemOf(b, item.(summary := item.summary + [text]));
      WriteEvent(PartTextDone(b.block.out, item.id, b.block.summaryIndex, true, text));
      WriteEvent(PartDone(b.block.out, item.id, b.block.summaryIndex, true, text));
      Repended(Value(), b.block);
      SetPendingReasoning(Some(b));
    }

    method FinishToolBlock(b: OpenBlock)
      requires Valid() && Holds(b) && b.block.kind.ToolBlock? && Value().Fits(b.block)
      modifies this, b.cell
      ensures Valid() && Value() == FinishTool(old(Value()), b.block) && Cells() == old(Cells())
    {
      HeldItem(b);
      hide ResponsesStreamServer.Valid, ResponsesStreamServer.Value, Server.Valid;
      var item, text := b.cell.item, b.block.text;
      Retexted(Value(), b.block, item.(arguments := text));
      SetItemOf(b, item.(arguments := text));
      WriteEvent(ArgumentsDone(b.block.out, item.id, text));
      WriteItemDone(b);
    }

    method HandleContentStop(index: nat)
      requires Valid()
      modifies this, Cells()
      ensures Valid() && Value() == OnStop(old(Value()), index) && Cells() == old(Cells())
    {
      Views();
      if index in blocks {
        var b := blocks[index];
        assert b.cell in Cells();
        DeleteBlock(index);
        hide ResponsesStreamServer.Valid, ResponsesStreamServer.Value;
        match b.block.kind {
          case TextBlock => FinishTextBlock(b);
          case ReasoningBlock => FinishReasoningBlock(b);
          case ToolBlock => FinishToolBlock(b);
        }
      }
    }

    method HandleContentSnapshot(c: CT.Content)
      requires Valid()
      modifies this, Cells()
      ensures Valid() && Value() == OnSnapshot(old(Value()), c) && Grown()
    {
      hide ResponsesStreamServer.Valid, ResponsesStreamServer.Value, FlushText, FlushReasoning;
      FlushPendingText();
      Views();
      if pendingReasoning.Some? {
        HeldItem(pendingReasoning.value);
      }
      if !c.phase.Reasoning? || !c.body.Opaque? || c.body.data == "" {
        FlushPendingReasoning();
      } else if pendingReasoning.Some? && (c.id == "" || pendingReasoning.value.cell.item.id == c.id) {
        var b := pendingReasoning.value;
        assert b.cell in Cells();
        var item := b.cell.item;
        Retexted(Value(), b.block, item.(encrypted := c.body.data));
        SetItemOf(b, item.(encrypted := c.body.data));
        FlushPendingReasoning();
      } else {
        SealedItem(c.id, c.body.data);
      }
    }

    /** A reasoning item that is complete as it appears. */
    method SealedItem(id: string, data: string)
      requires Valid()
      modifies this, Cells()
      ensures Valid() && Grown()
      ensures Value() == var s := FlushReasoning(old(Value()));
                         Finish(AddItem(s, ReasoningItem(IdOr(id, "rs", s), false, [], data)), |s.items|)
    {
      hide ResponsesStreamServer.Valid, ResponsesStreamServer.Value;
      FlushPendingReasoning();
      Views();
      var out := nextOutputIndex;
      var item := ReasoningItem(if id == "" then SyntheticId("rs", responseId, out) else id, false, [], data);
      var cell := AppendItem(item);
      var b := OpenBlock(Block(ReasoningBlock, out, 0, 0, ""), cell);
      WriteEvent(ItemAdded(out, item));
      WriteItemDone(b);
    }

    method HandleMessageStart(requestId: string, messageId: string, model': string)
      requires Valid()
      modifies this
      ensures Valid() && Value() == OnMessageStart(old(Value()), requestId, messageId, model') && Cells() == old(Cells())
    {
      StartResponse(if messageId == "" then requestId else messageId, model');
      hide ResponsesStreamServer.Valid, ResponsesStreamServer.Value;
      WriteEvent(ResponseCreated(CurrentResponse()));
      WriteEvent(ResponseInProgress(CurrentResponse()));
    }

    /** Replaces the response by a new one without items. */
    method StartResponse(id: string, model': string)
      requires Valid()
      modifies this
      ensures Valid() && Cells() == old(Cells())
      ensures var s := old(Value());
              Value() == s.(responseId := id, model := model', status := InProgress, base := |s.items|, finalUsage := None)
    {
      EmptyOutput();
      SetHeader(id, model');
      SetStatus(InProgress, None);
    }

    method SetHeader(id: string, model': string)
      requires Valid()
      modifies `responseId, `model
      ensures Valid() && Value() == old(Value()).(responseId := id, model := model')
    {
      hide Server.Valid, ResponsesStreamServer.Linked;
      responseId, model := id, model';
      assert Items() == old(Items());
      StaysValid(old(Value()), Value());
    }

    method SetStatus(status': ResponseStatus, finalUsage': Option<CT.Usage>)
      requires Valid()
      modifies `status, `finalUsage
      ensures Valid() && Value() == old(Value()).(status := status', finalUsage := finalUsage')
    {
      hide Server.Valid, ResponsesStreamServer.Linked;
      status, finalUsage := status', finalUsage';
      assert Items() == old(Items());
      StaysValid(old(Value()), Value());
    }

    method EmptyOutput()
      requires Valid()
      modifies `earlier, `output
      ensures Valid() && Cells() == old(Cells()) && Value() == old(Value()).(base := |old(Value()).items|)
    {
      earlier, output := earlier + output, [];
      assert Cells() == old(Cells());
      assert Items() == old(Items());
    }

    function CurrentResponse(): (r: ResponsesTypes.Response)
      requires Valid()
      reads this, Cells(), output
      ensures r == Value().Response()
    {
      var cells := output;
      var items := seq(|cells|, k requires 0 <= k < |cells| reads cells => cells[k].item);
      assert Items()[|earlier|..] == items;
      ResponsesTypes.Response(responseId, model, status, items, finalUsage)
    }

    method HandleMessageStop(stop: CT.Status)
      requires Valid()
      modifies this
      ensures Valid() && Value() == OnMessageStop(old(Value()), stop) && Cells() == old(Cells())
    {
      Views();
      hide ResponsesStreamServer.Valid, ResponsesStreamServer.Value, StatusOf, TerminalOf;
      SetStatus(StatusOf(stop), usage);
      Views();
      WriteEvent(ResponseEnded(TerminalOf(status), CurrentResponse()));
    }

    method AccumulateUsage(report: Option<CT.Usage>)
      requires Valid()
      modifies `usage
      ensures Valid() && Value() == old(Value()).(usage := CT.MergeUsage(old(Value()).usage, report))
    {
      usage := CT.MergeUsage(usage, report);
      assert Items() == old(Items());
    }

    method Send(e: CT.Event)
      requires Valid()
      modifies this, Cells()
      ensures Valid() && Value() == Step(old(Value()), e) && Grown()
    {
      hide ResponsesStreamServer.Valid, ResponsesStreamServer.Value;
      hide OnMessageStart, OnStart, OnDelta, OnStop, OnSnapshot, OnMessageStop, FlushItems, Server.Valid;
      AccumulateUsage(e.usage);
      match e.payload {
        case MessageStart(messageId, model) =>
          FlushPendingItems();
          HandleMessageStart(e.requestId, messageId, model);
        case ContentStart(id, index, phase, kind) =>
          HandleContentStart(index, id, phase, kind);
        case ContentDelta(index, d) =>
          FlushPendingItems();
          HandleContentDelta(index, d);
        case ContentStop(index) =>
          FlushPendingItems();
          HandleContentStop(index);
        case ContentSnapshot(c) =>
          HandleContentSnapshot(c);
        case MessageStop(stop) =>
          FlushPendingItems();
          HandleMessageStop(stop);
        case NoPayload =>
      }
    }
  }
}
