/**
 What the deltas of the Responses stream say, and of what kind they are: text of a message, of a reasoning summary, or
 arguments of a call, as the item was added; in the order and with the text of the chat deltas.
 */
module ResponsesDeltas {
  import opened Basics
  import opened ResponsesTypes
  import opened ResponsesServers
  import opened ResponsesProtocol
  import CT = ChatTypes

  predicate IsDelta(w: Wire) {
    w.PartDelta? || w.ArgumentsDelta?
  }

  /** The text of all deltas of the stream, one after the other. */
  function DeltaTexts(sent: seq<Sent>): seq<string> {
    if sent == [] then [] else
    var n := |sent| - 1;
    DeltaTexts(sent[..n]) + if IsDelta(sent[n].event) then [sent[n].event.text] else []
  }

  /** A delta of the kind of its item, for the part it has in progress: the one added last. */
  predicate Fitting(l: Life, w: Wire) {
    match w
    case PartDelta(_, id, part, summary, _) => OpenPart(l, id, part, summary)
    case ArgumentsDelta(_, id, _) => l.Calling? && l.id == id
    case _ => true
  }

  /** All deltas fit what the stream has said of their items before. */
  ghost predicate Typed(sent: seq<Sent>) {
    forall k | 0 <= k < |sent| && IsDelta(sent[k].event) :: Fitting(LifeOf(sent[..k], sent[k].event.out), sent[k].event)
  }

  // ----- The chat events, read without the server -----

  /** Whether an index has been started and not stopped since: None if not, otherwise whether as a call. */
  function OpenKind(es: seq<CT.Event>, index: nat): Option<bool> {
    if es == [] then None else
    var before, p := OpenKind(es[..|es| - 1], index), es[|es| - 1].payload;
    if p.ContentStart? && p.index == index && !p.kind.NoStart? then Some(p.kind.ToolStart?)
    else if p.ContentStop? && p.index == index then None
    else before
  }

  /** A delta with something to say for a block that is open. */
  predicate Heard(es: seq<CT.Event>, e: CT.Event) {
    e.payload.ContentDelta? && !e.payload.delta.SignatureDelta? && OpenKind(es, e.payload.index).Some?
  }

  function HeardTexts(es: seq<CT.Event>): seq<string> {
    if es == [] then [] else
    var front, e := es[..|es| - 1], es[|es| - 1];
    HeardTexts(front) + if Heard(front, e) then [e.payload.delta.text] else []
  }

  /** Calls are given tool input, and all else text. */
  predicate Suited(es: seq<CT.Event>) {
    es == [] ||
    var front, e := es[..|es| - 1], es[|es| - 1];
    Suited(front) && (Heard(front, e) ==> e.payload.delta.ToolInputDelta? == OpenKind(front, e.payload.index).value)
  }

  // ----- Writing -----

  lemma TypedMore(sent: seq<Sent>, x: Sent)
    ensures Typed(sent + [x]) <==> Typed(sent) && (IsDelta(x.event) ==> Fitting(LifeOf(sent, x.event.out), x.event))
  {
    hide Fitting, LifeOf;
    var all := sent + [x];
    assert all[..|sent|] == sent && all[|sent|] == x;
    assert forall k | 0 <= k < |sent| :: all[k] == sent[k] && all[..k] == sent[..k];
  }

  /** What writing nothing but other events leaves alone. */
  ghost predicate Quiet(s: Server, r: Server) {
    DeltaTexts(r.sent) == DeltaTexts(s.sent) && (Typed(r.sent) <==> Typed(s.sent))
  }

  lemma WriteQuiet(s: Server, w: Wire)
    requires !IsDelta(w)
    ensures Quiet(s, Write(s, w))
  {
    hide Typed;
    TypedMore(s.sent, Sent(s.sequence, w));
    assert (s.sent + [Sent(s.sequence, w)])[..|s.sent|] == s.sent;
    assert DeltaTexts(s.sent) + [] == DeltaTexts(s.sent);
  }

  lemma FinishQuiet(s: Server, out: nat)
    requires out < |s.items|
    ensures Quiet(s, Finish(s, out)) && Finish(s, out).blocks == s.blocks
  {
    var item := s.items[out].(completed := true);
    WriteQuiet(SetItem(s, out, item), ItemDone(out, item));
    hide Quiet;
    SameSent(s, SetItem(s, out, item), Finish(s, out));
  }

  lemma SameSent(s: Server, s': Server, r: Server)
    requires s'.sent == s.sent && Quiet(s', r)
    ensures Quiet(s, r)
  {
  }

  lemma QuietChain(s: Server, r: Server, r': Server)
    requires Quiet(s, r) && Quiet(r, r')
    ensures Quiet(s, r')
  {
  }

  lemma FlushesQuiet(s: Server)
    requires s.Valid()
    ensures Quiet(s, FlushText(s)) && FlushText(s).blocks == s.blocks
    ensures Quiet(s, FlushReasoning(s)) && FlushReasoning(s).blocks == s.blocks
  {
    if s.pendingText.Some? {
      FinishQuiet(s.(pendingText := None), s.pendingText.value.out);
    }
    if s.pendingReasoning.Some? {
      FinishQuiet(s.(pendingReasoning := None), s.pendingReasoning.value.out);
    }
  }

  lemma FlushItemsQuiet(s: Server)
    requires s.Valid()
    ensures Quiet(s, FlushItems(s)) && FlushItems(s).blocks == s.blocks
  {
    hide Quiet, FlushText, FlushReasoning;
    FlushesQuiet(s);
    FlushesQuiet(FlushReasoning(s));
    QuietChain(s, FlushReasoning(s), FlushItems(s));
  }

  lemma AddQuiet(s: Server, item: OutputItem)
    ensures Quiet(s, AddItem(s, item)) && AddItem(s, item).blocks == s.blocks
  {
    WriteQuiet(s.(items := s.items + [item]), ItemAdded(|s.items|, item));
    hide Quiet;
    SameSent(s, s.(items := s.items + [item]), AddItem(s, item));
  }

  lemma PartQuiet(s: Server, b: Block)
    requires b.out < |s.items|
    ensures Quiet(s, AnnouncePart(s, b)) && AnnouncePart(s, b).blocks == s.blocks
  {
    WriteQuiet(s, PartAdded(b.out, s.items[b.out].id, PartIndex(b), b.kind.ReasoningBlock?));
  }

  /** A block of the given kind now has the index; no delta has been written. */
  ghost predicate Starts(s: Server, r: Server, index: nat, tool: bool) {
    && Quiet(s, r) && r.blocks.Keys == s.blocks.Keys + {index} && r.blocks[index].kind.ToolBlock? == tool
    && forall i <- s.blocks.Keys | i != index :: r.blocks[i] == s.blocks[i]
  }

  lemma TextStarts(s: Server, index: nat, id: string, finalAnswer: bool)
    requires s.Valid()
    ensures Starts(s, StartText(s, index, id, finalAnswer), index, false)
  {
    hide Quiet, FlushText;
    if TextContinues(s, id, finalAnswer) {
      var p := s.pendingText.value;
      var b := p.(contentIndex := |s.items[p.out].parts|, text := "");
      var t := SetBlock(s.(pendingText := None), index, b);
      PartQuiet(t, b);
      SameSent(s, t, AnnouncePart(t, b));
    } else {
      FlushesQuiet(s);
      var f := FlushText(s);
      var b := Block(TextBlock, |f.items|, 0, 0, "");
      var t := SetBlock(f, index, b);
      NewPartQuiet(f, t, MessageItem(IdOr(id, "msg", f), false, finalAnswer, []), b);
      QuietChain(s, f, StartText(s, index, id, finalAnswer));
    }
  }

  lemma NewPartQuiet(s: Server, t: Server, item: OutputItem, b: Block)
    requires t.sent == s.sent && b.out == |t.items|
    ensures var r := AnnouncePart(AddItem(t, item), b); Quiet(s, r) && r.blocks == t.blocks
  {
    hide Quiet;
    AddQuiet(t, item);
    PartQuiet(AddItem(t, item), b);
    QuietChain(t, AddItem(t, item), AnnouncePart(AddItem(t, item), b));
    SameSent(s, t, AnnouncePart(AddItem(t, item), b));
  }

  lemma ReasoningStarts(s: Server, index: nat, id: string)
    requires s.Valid()
    ensures Starts(s, StartReasoning(s, index, id), index, false)
  {
    hide Quiet, FlushReasoning;
    if ReasoningContinues(s, id) {
      var p := s.pendingReasoning.value;
      var b := p.(summaryIndex := |s.items[p.out].summary|, text := "");
      var t := SetBlock(s.(pendingReasoning := None), index, b);
      PartQuiet(t, b);
      SameSent(s, t, AnnouncePart(t, b));
    } else {
      FlushesQuiet(s);
      var f := FlushReasoning(s);
      var b := Block(ReasoningBlock, |f.items|, 0, 0, "");
      var t := SetBlock(f, index, b);
      NewPartQuiet(f, t, ReasoningItem(IdOr(id, "rs", f), false, [], ""), b);
      QuietChain(s, f, StartReasoning(s, index, id));
    }
  }

  lemma ToolStarts(s: Server, index: nat, id: string, callId: string, name: string)
    requires s.Valid()
    ensures Starts(s, StartTool(s, index, id, callId, name), index, true)
  {
    hide Quiet;
    var t := SetBlock(s, index, Block(ToolBlock, |s.items|, 0, 0, ""));
    AddQuiet(t, CallItem(IdOr(id, "fc", s), false, callId, name, ""));
    SameSent(s, t, StartTool(s, index, id, callId, name));
  }

  lemma StartsAfter(s: Server, f: Server, r: Server, index: nat, tool: bool)
    requires Quiet(s, f) && f.blocks == s.blocks && Starts(f, r, index, tool)
    ensures Starts(s, r, index, tool)
  {
  }

  lemma OnStartStarts(s: Server, index: nat, id: string, phase: CT.Phase, kind: CT.StartKind)
    requires s.Valid()
    ensures var r := OnStart(s, index, id, phase, kind);
            if kind.NoStart? then Quiet(s, r) && r.blocks == s.blocks else Starts(s, r, index, kind.ToolStart?)
  {
    hide Quiet, Starts, FlushText, FlushReasoning, FlushItems, StartText, StartReasoning, StartTool;
    FlushesQuiet(s);
    FlushItemsQuiet(s);
    match kind
    case TextStart =>
      if phase.Reasoning? {
        ReasoningStarts(FlushText(s), index, id);
        StartsAfter(s, FlushText(s), OnStart(s, index, id, phase, kind), index, false);
      } else {
        TextStarts(FlushReasoning(s), index, id, IsFinalAnswer(phase));
        StartsAfter(s, FlushReasoning(s), OnStart(s, index, id, phase, kind), index, false);
      }
    case ToolStart(callId, name) =>
      ToolStarts(FlushItems(s), index, id, callId, name);
      StartsAfter(s, FlushItems(s), OnStart(s, index, id, phase, kind), index, true);
    case NoStart =>
  }

  lemma StopQuiet(s: Server, index: nat)
    requires s.Valid()
    ensures Quiet(s, OnStop(s, index)) && OnStop(s, index).blocks == s.blocks - {index}
  {
    if index in s.blocks {
      var b, t := s.blocks[index], s.(blocks := s.blocks - {index});
      FinishBlockQuiet(t, b);
      hide Quiet, FinishText, FinishReasoning, FinishTool;
      SameSent(s, t, OnStop(s, index));
    }
  }

  lemma FinishBlockQuiet(s: Server, b: Block)
    requires s.Valid() && s.Fits(b)
    ensures b.kind.TextBlock? ==> Quiet(s, FinishText(s, b)) && FinishText(s, b).blocks == s.blocks
    ensures b.kind.ReasoningBlock? ==> Quiet(s, FinishReasoning(s, b)) && FinishReasoning(s, b).blocks == s.blocks
    ensures b.kind.ToolBlock? ==> Quiet(s, FinishTool(s, b)) && FinishTool(s, b).blocks == s.blocks
  {
    hide Quiet, Server.Valid;
    var item := s.items[b.out];
    match b.kind
    case TextBlock =>
      var t := SetItem(s, b.out, item.(parts := item.parts + [b.text]));
      TwoQuiet(s, t, PartTextDone(b.out, item.id, b.contentIndex, false, b.text), PartDone(b.out, item.id, b.contentIndex, false, b.text));
      SameEnd(s, FinishText(s, b).(pendingText := s.pendingText), FinishText(s, b));
    case ReasoningBlock =>
      var t := SetItem(s, b.out, item.(summary := item.summary + [b.text]));
      TwoQuiet(s, t, PartTextDone(b.out, item.id, b.summaryIndex, true, b.text), PartDone(b.out, item.id, b.summaryIndex, true, b.text));
      SameEnd(s, FinishReasoning(s, b).(pendingReasoning := s.pendingReasoning), FinishReasoning(s, b));
    case ToolBlock =>
      var t := SetItem(s, b.out, item.(arguments := b.text));
      var w := Write(t, ArgumentsDone(b.out, item.id, b.text));
      WriteQuiet(t, ArgumentsDone(b.out, item.id, b.text));
      FinishQuiet(w, b.out);
      QuietChain(t, w, Finish(w, b.out));
      SameSent(s, t, Finish(w, b.out));
  }

  lemma SameEnd(s: Server, r: Server, r': Server)
    requires Quiet(s, r) && r'.sent == r.sent
    ensures Quiet(s, r')
  {
  }

  lemma TwoQuiet(s: Server, t: Server, v: Wire, w: Wire)
    requires t.sent == s.sent && !IsDelta(v) && !IsDelta(w)
    ensures Quiet(s, Write(Write(t, v), w))
  {
    WriteQuiet(t, v);
    WriteQuiet(Write(t, v), w);
    hide Quiet;
    QuietChain(t, Write(t, v), Write(Write(t, v), w));
    SameSent(s, t, Write(Write(t, v), w));
  }

  lemma SnapshotQuiet(s: Server, c: CT.Content)
    requires s.Valid()
    ensures Quiet(s, OnSnapshot(s, c)) && OnSnapshot(s, c).blocks == s.blocks
  {
    hide Quiet, FlushText, FlushReasoning;
    FlushesQuiet(s);
    var f := FlushText(s);
    FlushesQuiet(f);
    QuietChain(s, f, FlushReasoning(f));
    if c.phase.Reasoning? && c.body.Opaque? && c.body.data != "" {
      if ReasoningContinues(f, c.id) {
        var out := f.pendingReasoning.value.out;
        var g := SetItem(f, out, f.items[out].(encrypted := c.body.data));
        FlushesQuiet(g);
        SameSent(f, g, FlushReasoning(g));
        QuietChain(s, f, FlushReasoning(g));
      } else {
        var g := FlushReasoning(f);
        var item := ReasoningItem(IdOr(c.id, "rs", g), false, [], c.body.data);
        AddQuiet(g, item);
        FinishQuiet(AddItem(g, item), |g.items|);
        QuietChain(g, AddItem(g, item), Finish(AddItem(g, item), |g.items|));
        QuietChain(s, g, OnSnapshot(s, c));
      }
    }
  }

  lemma ResponseQuiet(s: Server, requestId: string, messageId: string, model: string, status: CT.Status)
    requires s.Valid()
    ensures Quiet(s, OnMessageStart(s, requestId, messageId, model)) && OnMessageStart(s, requestId, messageId, model).blocks == s.blocks
    ensures Quiet(s, OnMessageStop(s, status)) && OnMessageStop(s, status).blocks == s.blocks
  {
    hide Quiet, StatusOf, TerminalOf;
    var t := s.(responseId := if messageId == "" then requestId else messageId, model := model, status := InProgress,
                base := |s.items|, finalUsage := None);
    var v := Write(t, ResponseCreated(t.Response()));
    TwoQuiet(s, t, ResponseCreated(t.Response()), ResponseInProgress(v.Response()));
    var u := s.(status := StatusOf(status), finalUsage := s.usage);
    WriteQuiet(u, ResponseEnded(TerminalOf(u.status), u.Response()));
    SameSent(s, u, OnMessageStop(s, status));
  }

  /** A delta is written with the text it is given, and fits its item if and only if it is of the kind of its block. */
  lemma DeltaWritten(s: Server, index: nat, d: CT.Delta)
    requires Inv(s) && s.Valid() && index in s.blocks && !d.SignatureDelta?
    ensures var r, b := OnDelta(s, index, d), s.blocks[index];
            && DeltaTexts(r.sent) == DeltaTexts(s.sent) + [d.text]
            && (Typed(r.sent) <==> Typed(s.sent) && (d.ToolInputDelta? <==> b.kind.ToolBlock?))
            && r.blocks == s.blocks[index := b.(text := b.text + d.text)]
  {
    InvBlock(s, index);
    hide Typed, LifeOf, Inv;
    var b := s.blocks[index];
    var w := DeltaWire(b, s.items[b.out].id, d);
    TypedMore(s.sent, Sent(s.sequence, w));
    assert (s.sent + [Sent(s.sequence, w)])[..|s.sent|] == s.sent;
  }

  // ----- Whole streams -----

  /** The server's blocks are the open indices, calls as calls. */
  ghost predicate KindsRead(es: seq<CT.Event>, s: Server) {
    forall i: nat :: (i in s.blocks <==> OpenKind(es, i).Some?) && (i in s.blocks ==> s.blocks[i].kind.ToolBlock? == OpenKind(es, i).value)
  }

  /** What one event does to the blocks and to the deltas, as the events say. */
  ghost predicate Spoke(es: seq<CT.Event>, e: CT.Event, s: Server, r: Server) {
    && KindsRead(es + [e], r)
    && DeltaTexts(r.sent) == DeltaTexts(s.sent) + (if Heard(es, e) then [e.payload.delta.text] else [])
    && (Typed(r.sent) <==>
          Typed(s.sent) && (Heard(es, e) ==> e.payload.delta.ToolInputDelta? == OpenKind(es, e.payload.index).value))
  }

  lemma KindMore(es: seq<CT.Event>, e: CT.Event, i: nat)
    ensures var p := e.payload;
            OpenKind(es + [e], i) ==
            if p.ContentStart? && p.index == i && !p.kind.NoStart? then Some(p.kind.ToolStart?)
            else if p.ContentStop? && p.index == i then None
            else OpenKind(es, i)
  {
    assert (es + [e])[..|es|] == es;
  }

  lemma QuietSpoke(es: seq<CT.Event>, e: CT.Event, s: Server, r: Server)
    requires KindsRead(es, s) && Quiet(s, r) && !Heard(es, e)
    requires r.blocks == if e.payload.ContentStop? then s.blocks - {e.payload.index} else s.blocks
    requires e.payload.ContentStart? ==> e.payload.kind.NoStart?
    ensures Spoke(es, e, s, r)
  {
    hide OpenKind, Typed, DeltaTexts;
    forall i: nat ensures OpenKind(es + [e], i) == if e.payload.ContentStop? && e.payload.index == i then None else OpenKind(es, i) {
      KindMore(es, e, i);
    }
    assert DeltaTexts(s.sent) + [] == DeltaTexts(s.sent);
  }

  lemma StartSpoke(es: seq<CT.Event>, e: CT.Event, s: Server, r: Server)
    requires KindsRead(es, s) && e.payload.ContentStart? && !e.payload.kind.NoStart?
    requires Starts(s, r, e.payload.index, e.payload.kind.ToolStart?)
    ensures Spoke(es, e, s, r)
  {
    hide OpenKind, Typed, DeltaTexts;
    forall i: nat ensures OpenKind(es + [e], i) == if e.payload.index == i then Some(e.payload.kind.ToolStart?) else OpenKind(es, i) {
      KindMore(es, e, i);
    }
    assert DeltaTexts(s.sent) + [] == DeltaTexts(s.sent);
  }

  lemma DeltaSpoke(es: seq<CT.Event>, e: CT.Event, s: Server, f: Server, r: Server)
    requires KindsRead(es, s) && Heard(es, e) && Quiet(s, f) && f.blocks == s.blocks && e.payload.index in f.blocks
    requires DeltaTexts(r.sent) == DeltaTexts(f.sent) + [e.payload.delta.text]
    requires var b := f.blocks[e.payload.index];
             && (Typed(r.sent) <==> Typed(f.sent) && (e.payload.delta.ToolInputDelta? <==> b.kind.ToolBlock?))
             && r.blocks == f.blocks[e.payload.index := b.(text := b.text + e.payload.delta.text)]
    ensures Spoke(es, e, s, r)
  {
    hide OpenKind, Typed, DeltaTexts;
    forall i: nat ensures OpenKind(es + [e], i) == OpenKind(es, i) {
      KindMore(es, e, i);
    }
  }

  lemma StepTyped(es: seq<CT.Event>, e: CT.Event, s: Server)
    requires Inv(s) && s.Valid() && KindsRead(es, s)
    ensures Spoke(es, e, s, Step(s, e))
  {
    hide *;
    var u := s.(usage := CT.MergeUsage(s.usage, e.usage));
    UsageInv(s, u.usage);
    InvValid(u);
    SameKinds(es, s, u);
    HandleTyped(es, e, u);
    StepHandles(s, e);
    SpokeSame(es, e, s, u, Step(s, e));
  }

  lemma StepHandles(s: Server, e: CT.Event)
    requires s.Valid()
    ensures var u := s.(usage := CT.MergeUsage(s.usage, e.usage)); u.Valid() && Step(s, e) == Handle(u, e.requestId, e.payload)
  {
  }

  lemma SameKinds(es: seq<CT.Event>, s: Server, u: Server)
    requires KindsRead(es, s) && u.blocks == s.blocks
    ensures KindsRead(es, u)
  {
  }

  lemma SpokeSame(es: seq<CT.Event>, e: CT.Event, s: Server, u: Server, r: Server)
    requires Spoke(es, e, u, r) && u.sent == s.sent
    ensures Spoke(es, e, s, r)
  {
  }

  lemma HandleTyped(es: seq<CT.Event>, e: CT.Event, s: Server)
    requires Inv(s) && s.Valid() && KindsRead(es, s)
    ensures Spoke(es, e, s, Handle(s, e.requestId, e.payload))
  {
    hide Inv, Quiet, Starts, Spoke, Typed, DeltaTexts, OnStart, OnDelta, OnStop, OnSnapshot, OnMessageStart, OnMessageStop, FlushItems, Server.Valid, OpenKind;
    FlushItemsInv(s);
    FlushItemsQuiet(s);
    var f, r := FlushItems(s), Handle(s, e.requestId, e.payload);
    InvValid(f);
    match e.payload
    case MessageStart(messageId, model) =>
      ResponseQuiet(f, e.requestId, messageId, model, CT.Completed);
      QuietChain(s, f, r);
      QuietSpoke(es, e, s, r);
    case ContentStart(id, index, phase, kind) =>
      OnStartStarts(s, index, id, phase, kind);
      if kind.NoStart? {
        QuietSpoke(es, e, s, r);
      } else {
        StartSpoke(es, e, s, r);
      }
    case ContentDelta(index, d) =>
      if index in f.blocks && !d.SignatureDelta? {
        DeltaWritten(f, index, d);
        DeltaSpoke(es, e, s, f, r);
      } else {
        NoDelta(f, index, d);
        QuietSpoke(es, e, s, r);
      }
    case ContentStop(index) =>
      StopQuiet(f, index);
      QuietChain(s, f, r);
      QuietSpoke(es, e, s, r);
    case ContentSnapshot(c) =>
      SnapshotQuiet(s, c);
      QuietSpoke(es, e, s, r);
    case MessageStop(status) =>
      ResponseQuiet(f, "", "", "", status);
      QuietChain(s, f, r);
      QuietSpoke(es, e, s, r);
    case NoPayload =>
      NothingQuiet(s);
      QuietSpoke(es, e, s, r);
  }

  lemma NothingQuiet(s: Server)
    ensures Quiet(s, s)
  {
  }

  lemma NoDelta(s: Server, index: nat, d: CT.Delta)
    requires s.Valid() && (index !in s.blocks || d.SignatureDelta?)
    ensures OnDelta(s, index, d) == s
  {
  }

  /**
   For every stream of chat events: the deltas written are those for open blocks, in their order and with their text; and
   each is text of the message part, text of the reasoning summary part, or arguments, as its item was added, for the
   part added last, if and only if calls are given tool input and all else text.
   */
  lemma {:induction false} DeltasTyped(es: seq<CT.Event>)
    ensures var s := Run(START, es);
            KindsRead(es, s) && DeltaTexts(s.sent) == HeardTexts(es) && (Typed(s.sent) <==> Suited(es))
  {
    hide *;
    NothingSpoken();
    if es != [] {
      var front, e := es[..|es| - 1], es[|es| - 1];
      DeltasTyped(front);
      ProtocolSafety(front);
      assert front + [e] == es;
      InvValid(Run(START, front));
      StepTyped(front, e, Run(START, front));
      LastEvent(front, e);
      SpokeOut(front, e, Run(START, front), Run(START, es));
    }
  }

  lemma NothingSpoken()
    ensures START.Valid() && KindsRead([], Run(START, [])) && DeltaTexts(Run(START, []).sent) == HeardTexts([])
    ensures Typed(Run(START, []).sent) && Suited([])
  {
  }

  lemma LastEvent(front: seq<CT.Event>, e: CT.Event)
    ensures START.Valid() && Run(START, front).Valid() && Run(START, front + [e]) == Step(Run(START, front), e)
    ensures HeardTexts(front + [e]) == HeardTexts(front) + if Heard(front, e) then [e.payload.delta.text] else []
    ensures Suited(front + [e]) <==>
            Suited(front) && (Heard(front, e) ==> e.payload.delta.ToolInputDelta? == OpenKind(front, e.payload.index).value)
  {
    assert (front + [e])[..|front|] == front;
  }

  lemma SpokeOut(es: seq<CT.Event>, e: CT.Event, s: Server, r: Server)
    requires Spoke(es, e, s, r)
    ensures KindsRead(es + [e], r)
    ensures DeltaTexts(r.sent) == DeltaTexts(s.sent) + (if Heard(es, e) then [e.payload.delta.text] else [])
    ensures Typed(r.sent) <==>
            Typed(s.sent) && (Heard(es, e) ==> e.payload.delta.ToolInputDelta? == OpenKind(es, e.payload.index).value)
  {
  }
}
