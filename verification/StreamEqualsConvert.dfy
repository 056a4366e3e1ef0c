/**
 The two ways to a Responses answer: streaming it, and reducing the stream and converting the result. They give the same
 response if and only if both group the contents alike.
 */
module StreamEqualsConvert {
  import opened Basics
  import opened ResponsesTypes
  import opened ResponsesServers
  import opened ResponsesHeaders
  import opened ResponsesConverters
  import opened ItemGrouping
  import opened GroupingAgreement
  import opened GroupingTraps
  import GM = GroupingMeaning
  import opened SequentialStreams
  import CT = ChatTypes
  import Reducers

  // ----- What of the server matters to the response's items -----

  /** The server but for what it has written and what usage it knows of. */
  function Work(s: Server): Server {
    s.(sequence := 0, sent := [], usage := None, finalUsage := None)
  }

  function Play(s: Server, requestId: string, ps: seq<CT.Payload>): (r: Server)
    requires s.Valid()
    ensures r.Valid()
    decreases ps
  {
    if ps == [] then s else Play(Handle(s, requestId, ps[0]), requestId, ps[1..])
  }

  lemma {:induction false} PlayAppend(s: Server, requestId: string, ps: seq<CT.Payload>, qs: seq<CT.Payload>)
    requires s.Valid()
    ensures Play(s, requestId, ps + qs) == Play(Play(s, requestId, ps), requestId, qs)
    decreases ps
  {
    if ps == [] {
      assert ps + qs == qs;
    } else {
      assert (ps + qs)[1..] == ps[1..] + qs;
      PlayAppend(Handle(s, requestId, ps[0]), requestId, ps[1..], qs);
    }
  }

  lemma PlayOne(s: Server, requestId: string, ps: seq<CT.Payload>, p: CT.Payload)
    requires s.Valid()
    ensures Play(s, requestId, ps + [p]) == Handle(Play(s, requestId, ps), requestId, p)
  {
    PlayAppend(s, requestId, ps, [p]);
    hide Handle, Server.Valid;
    assert [p][1..] == [];
  }

  ghost predicate Alike(s: Server, t: Server) {
    s.Valid() && t.Valid() && Work(s) == Work(t)
  }

  lemma AlikeFlushes(s: Server, t: Server)
    requires Alike(s, t)
    ensures Alike(FlushText(s), FlushText(t)) && Alike(FlushReasoning(s), FlushReasoning(t))
  {
  }

  lemma AlikeFlush(s: Server, t: Server)
    requires Alike(s, t)
    ensures Alike(FlushItems(s), FlushItems(t))
  {
    hide Alike;
    AlikeValid(s, t);
    AlikeFlushes(s, t);
    AlikeFlushes(FlushReasoning(s), FlushReasoning(t));
  }

  lemma AlikeValid(s: Server, t: Server)
    requires Alike(s, t)
    ensures s.Valid() && t.Valid()
  {
  }

  lemma AlikeText(s: Server, t: Server, index: nat, id: string, finalAnswer: bool)
    requires Alike(s, t)
    ensures Alike(StartText(s, index, id, finalAnswer), StartText(t, index, id, finalAnswer))
  {
    AlikeFlushes(s, t);
    hide SyntheticId, Server.Valid, FlushText;
  }

  lemma AlikeReasoning(s: Server, t: Server, index: nat, id: string)
    requires Alike(s, t)
    ensures Alike(StartReasoning(s, index, id), StartReasoning(t, index, id))
  {
    AlikeFlushes(s, t);
    hide SyntheticId, Server.Valid, FlushReasoning;
  }

  lemma AlikeStart(s: Server, t: Server, index: nat, id: string, phase: CT.Phase, kind: CT.StartKind)
    requires Alike(s, t)
    ensures Alike(OnStart(s, index, id, phase, kind), OnStart(t, index, id, phase, kind))
  {
    AlikeFlushes(s, t);
    AlikeFlush(s, t);
    match kind
    case TextStart =>
      if phase.Reasoning? {
        AlikeReasoning(FlushText(s), FlushText(t), index, id);
      } else {
        AlikeText(FlushReasoning(s), FlushReasoning(t), index, id, IsFinalAnswer(phase));
      }
    case ToolStart(callId, name) =>
      hide SyntheticId, Server.Valid, FlushItems;
    case NoStart =>
  }

  lemma AlikeDelta(s: Server, t: Server, index: nat, d: CT.Delta)
    requires Alike(s, t)
    ensures Alike(OnDelta(s, index, d), OnDelta(t, index, d))
  {
    hide Server.Valid;
  }

  lemma AlikeStop(s: Server, t: Server, index: nat)
    requires Alike(s, t)
    ensures Alike(OnStop(s, index), OnStop(t, index))
  {
    hide Server.Valid;
  }

  lemma AlikeSnapshot(s: Server, t: Server, c: CT.Content)
    requires Alike(s, t)
    ensures Alike(OnSnapshot(s, c), OnSnapshot(t, c))
  {
    hide Alike, Server.Valid;
    AlikeValid(s, t);
    AlikeFlushes(s, t);
    var s', t' := FlushText(s), FlushText(t);
    assert FlushText(s') == s' && FlushText(t') == t';
    hide FlushText;
    AlikeSealed(s', t', c);
  }

  lemma AlikeSealed(s: Server, t: Server, c: CT.Content)
    requires Alike(s, t) && s.pendingText.None? && t.pendingText.None?
    ensures Alike(OnSnapshot(s, c), OnSnapshot(t, c))
  {
    AlikeFlushes(s, t);
    if c.phase.Reasoning? && c.body.Opaque? && c.body.data != "" && ReasoningContinues(s, c.id) {
      var out := s.pendingReasoning.value.out;
      var item := s.items[out].(encrypted := c.body.data);
      AlikeFlushes(SetItem(s, out, item), SetItem(t, out, item));
    }
    hide SyntheticId, Server.Valid, FlushReasoning;
  }

  lemma AlikeHandle(s: Server, t: Server, requestId: string, p: CT.Payload)
    requires Alike(s, t)
    ensures Alike(Handle(s, requestId, p), Handle(t, requestId, p))
  {
    hide OnStart, OnDelta, OnStop, OnSnapshot, FlushItems;
    AlikeFlush(s, t);
    match p
    case ContentStart(id, index, phase, kind) => AlikeStart(s, t, index, id, phase, kind);
    case ContentDelta(index, d) => AlikeDelta(FlushItems(s), FlushItems(t), index, d);
    case ContentStop(index) => AlikeStop(FlushItems(s), FlushItems(t), index);
    case ContentSnapshot(c) => AlikeSnapshot(s, t, c);
    case MessageStart(_, _) =>
    case MessageStop(_) =>
    case NoPayload =>
  }

  lemma StepsAlike(s: Server, t: Server, e: CT.Event)
    requires Alike(s, t)
    ensures Alike(Step(s, e), if e.payload.NoPayload? then t else Handle(t, e.requestId, e.payload))
  {
    var u := s.(usage := CT.MergeUsage(s.usage, e.usage));
    assert Alike(u, t);
    AlikeHandle(u, t, e.requestId, e.payload);
    if e.payload.NoPayload? {
      assert Handle(u, e.requestId, e.payload) == u;
    }
    hide Handle;
  }

  lemma {:induction false} RunsAlike(es: seq<CT.Event>, requestId: string)
    requires forall k | 0 <= k < |es| :: es[k].requestId == requestId
    ensures Alike(ResponsesServers.Run(START, es), Play(START, requestId, Payloads(es)))
  {
    hide Handle, Alike, Step, Play, Payloads, ResponsesServers.Run;
    if es == [] {
      NothingRun(requestId);
    } else {
      var front, e := es[..|es| - 1], es[|es| - 1];
      assert front + [e] == es;
      RunsAlike(front, requestId);
      RunOne(front, e);
      PayloadsAppend(front, e);
      assert Payloads(front) + [] == Payloads(front);
      StepsAlike(ResponsesServers.Run(START, front), Play(START, requestId, Payloads(front)), e);
      PlayOne(START, requestId, Payloads(front), e.payload);
    }
  }

  lemma NothingRun(requestId: string)
    ensures Alike(ResponsesServers.Run(START, []), Play(START, requestId, Payloads([])))
  {
  }

  lemma RunOne(es: seq<CT.Event>, e: CT.Event)
    ensures ResponsesServers.Run(START, es + [e]) == Step(ResponsesServers.Run(START, es), e)
  {
    assert (es + [e])[..|es|] == es;
  }

  // ----- Between two contents -----

  function AsDone(item: OutputItem): OutputItem {
    item.(completed := true)
  }

  /** The items as they end up; all but one are complete. */
  ghost predicate Lists(s: Server, items: seq<OutputItem>, but: int) {
    && |s.items| == |items|
    && forall k | 0 <= k < |items| :: AsDone(s.items[k]) == items[k] && (k != but ==> s.items[k].completed)
  }

  ghost predicate Shows(s: Server, v: Served) {
    var n := |v.items| - 1;
    && s.Valid() && s.blocks == map[] && s.base == 0
    && Lists(s, v.items, if v.open then n else -1)
    && (v.open ==> n >= 0 && !v.items[n].CallItem?)
    && (s.pendingText.Some? <==> v.open && v.items[n].MessageItem?)
    && (s.pendingText.Some? ==> s.pendingText.value.out == n)
    && (s.pendingReasoning.Some? <==> v.open && v.items[n].ReasoningItem?)
    && (s.pendingReasoning.Some? ==> s.pendingReasoning.value.out == n)
  }

  predicate HoldsMessage(v: Served) {
    v.open && v.items != [] && v.items[|v.items| - 1].MessageItem?
  }

  lemma FlushedText(s: Server, v: Served)
    requires Shows(s, v)
    ensures Shows(FlushText(s), if HoldsMessage(v) then v.(open := false) else v)
    ensures s.Valid() && FlushText(s).responseId == s.responseId && FlushText(s).pendingText.None?
  {
  }

  lemma FlushedReasoning(s: Server, v: Served)
    requires Shows(s, v)
    ensures Shows(FlushReasoning(s), if HoldsThought(v, "") then v.(open := false) else v)
    ensures s.Valid() && FlushReasoning(s).responseId == s.responseId && FlushReasoning(s).pendingReasoning.None?
  {
  }

  lemma FlushedItems(s: Server, v: Served)
    requires Shows(s, v)
    ensures Shows(FlushItems(s), v.(open := false)) && s.Valid() && FlushItems(s).responseId == s.responseId
  {
    FlushedReasoning(s, v);
    FlushedText(FlushReasoning(s), if HoldsThought(v, "") then v.(open := false) else v);
    hide FlushText, FlushReasoning;
  }

  // ----- Within a content -----

  /** A block is open and writes to the last item. */
  ghost predicate Writes(s: Server, items: seq<OutputItem>, index: nat, b: Block) {
    && s.Valid() && s.blocks == map[index := b] && s.base == 0 && s.pendingText.None? && s.pendingReasoning.None?
    && b.out == |items| - 1 && Lists(s, items, b.out)
  }

  predicate ContinuesMessage(v: Served, id: string, finalAnswer: bool) {
    var n := |v.items| - 1;
    HoldsMessage(v) && id != "" && v.items[n].id == id && v.items[n].finalAnswer == finalAnswer
  }

  lemma TextStarted(s: Server, v: Served, index: nat, id: string, finalAnswer: bool)
    requires Shows(s, v) && s.pendingReasoning.None?
    ensures var r := StartText(s, index, id, finalAnswer);
            var items := WithMessage(s.responseId, v, id, finalAnswer);
            index in r.blocks && r.blocks[index].kind.TextBlock? && r.blocks[index].text == "" && Writes(r, items, index, r.blocks[index])
  {
    hide SyntheticId;
    if s.pendingText.Some? {
      var n := |v.items| - 1;
      assert AsDone(s.items[n]) == v.items[n];
    }
    if !ContinuesMessage(v, id, finalAnswer) {
      FlushedText(s, v);
      hide FlushText;
    }
  }

  lemma ReasoningStarted(s: Server, v: Served, index: nat, id: string)
    requires Shows(s, v) && s.pendingText.None?
    ensures var r := StartReasoning(s, index, id);
            var items := WithReasoning(s.responseId, v, id);
            index in r.blocks && r.blocks[index].kind.ReasoningBlock? && r.blocks[index].text == "" && Writes(r, items, index, r.blocks[index])
  {
    hide SyntheticId;
    if s.pendingReasoning.Some? {
      var n := |v.items| - 1;
      assert AsDone(s.items[n]) == v.items[n];
    }
    if !HoldsThought(v, id) {
      FlushedReasoning(s, v);
      hide FlushReasoning;
    }
  }

  lemma ToolStarted(s: Server, v: Served, index: nat, id: string, callId: string, name: string)
    requires Shows(s, v) && !v.open
    ensures var r := StartTool(s, index, id, callId, name);
            var items := v.items + [CallItem(GivenOr(id, "fc", s.responseId, |v.items|), true, callId, name, "")];
            index in r.blocks && r.blocks[index].kind.ToolBlock? && r.blocks[index].text == "" && Writes(r, items, index, r.blocks[index])
  {
    hide SyntheticId;
  }

  lemma DeltaWritten(s: Server, items: seq<OutputItem>, index: nat, b: Block, requestId: string, d: CT.Delta)
    requires Writes(s, items, index, b)
    ensures Writes(Handle(s, requestId, CT.ContentDelta(index, d)), items, index,
                   b.(text := b.text + if d.SignatureDelta? then "" else d.text))
  {
    assert b.text + "" == b.text;
  }

  lemma PlayFirst(s: Server, requestId: string, p: CT.Payload, ps: seq<CT.Payload>)
    requires s.Valid()
    ensures Play(s, requestId, [p] + ps) == Play(Handle(s, requestId, p), requestId, ps)
  {
    assert ([p] + ps)[1..] == ps;
  }

  lemma {:induction false} DeltasWritten(s: Server, items: seq<OutputItem>, index: nat, b: Block, requestId: string, ds: seq<CT.Delta>)
    requires Writes(s, items, index, b)
    ensures Play(s, requestId, DeltaPayloads(index, ds)).Valid()
    ensures Writes(Play(s, requestId, DeltaPayloads(index, ds)), items, index, b.(text := b.text + Said(ds)))
    decreases ds
  {
    if ds == [] {
      assert b.text + "" == b.text;
    } else {
      assert s.Valid();
      hide Writes, Handle, Play, Server.Valid;
      var t := if ds[0].SignatureDelta? then "" else ds[0].text;
      PlayFirst(s, requestId, CT.ContentDelta(index, ds[0]), DeltaPayloads(index, ds[1..]));
      DeltaWritten(s, items, index, b, requestId, ds[0]);
      DeltasWritten(Handle(s, requestId, CT.ContentDelta(index, ds[0])), items, index, b.(text := b.text + t), requestId, ds[1..]);
      hide Said;
      SaidMore(b.text, ds);
    }
  }

  lemma SaidMore(text: string, ds: seq<CT.Delta>)
    requires ds != []
    ensures text + (if ds[0].SignatureDelta? then "" else ds[0].text) + Said(ds[1..]) == text + Said(ds)
  {
    var t := if ds[0].SignatureDelta? then "" else ds[0].text;
    assert Said(ds) == t + Said(ds[1..]);
    hide Said;
    AppendAssociates(text, t, Said(ds[1..]));
  }

  lemma {:induction false} DeltasIgnored(s: Server, v: Served, index: nat, requestId: string, ds: seq<CT.Delta>)
    requires Shows(s, v) && !v.open
    ensures Play(s, requestId, DeltaPayloads(index, ds)) == s
    decreases ds
  {
    if ds != [] {
      assert DeltaPayloads(index, ds)[1..] == DeltaPayloads(index, ds[1..]);
      assert Handle(s, requestId, CT.ContentDelta(index, ds[0])) == s;
      DeltasIgnored(s, v, index, requestId, ds[1..]);
    }
  }

  function Filled(item: OutputItem, text: string): OutputItem {
    match item
    case MessageItem(_, _, _, parts) => item.(parts := parts + [text])
    case ReasoningItem(_, _, summary, _) => item.(summary := summary + [text])
    case CallItem(_, _, _, _, _) => item.(arguments := text)
  }

  lemma Stopped(s: Server, items: seq<OutputItem>, index: nat, b: Block, requestId: string)
    requires Writes(s, items, index, b)
    ensures var n := |items| - 1;
            n >= 0 && Shows(Handle(s, requestId, CT.ContentStop(index)), Served(items[n := Filled(items[n], b.text)], !b.kind.ToolBlock?))
  {
    var n := |items| - 1;
    assert AsDone(s.items[n]) == items[n];
    assert map[index := b] - {index} == map[];
  }

  lemma SnapshotShown(s: Server, v: Served, c: CT.Content)
    requires Shows(s, v) && Matching(Snapshot(c))
    ensures Shows(OnSnapshot(s, c), ServeNext(s.responseId, v, c))
  {
    hide SyntheticId;
    FlushedText(s, v);
    var v' := if HoldsMessage(v) then v.(open := false) else v;
    var s' := FlushText(s);
    assert ServeNext(s.responseId, v, c) == ServeNext(s.responseId, v', c);
    FlushedReasoning(s', v');
    hide FlushText;
    if IsSeal(c) {
      var n := |v'.items| - 1;
      assert HoldsThought(v', c.id) <==> ReasoningContinues(s', c.id) by {
        if s'.pendingReasoning.Some? {
          assert AsDone(s'.items[n]) == v'.items[n];
        }
      }
      if HoldsThought(v', c.id) {
        assert AsDone(s'.items[n]) == v'.items[n];
      } else {
        hide FlushReasoning;
      }
    }
  }

  // ----- A whole content -----

  lemma PlayStreamed(s: Server, requestId: string, index: nat, id: string, phase: CT.Phase, kind: CT.StartKind, ds: seq<CT.Delta>)
    requires s.Valid()
    ensures Play(s, requestId, Script(Streamed(index, id, phase, kind, ds)))
         == Handle(Play(OnStart(s, index, id, phase, kind), requestId, DeltaPayloads(index, ds)), requestId, CT.ContentStop(index))
  {
    var start := CT.ContentStart(id, index, phase, kind);
    hide Play, OnStart, OnStop, OnDelta, FlushItems, Server.Valid;
    PlayOne(s, requestId, [start] + DeltaPayloads(index, ds), CT.ContentStop(index));
    PlayFirst(s, requestId, start, DeltaPayloads(index, ds));
  }

  function Streaming(s: Server, requestId: string, index: nat, ds: seq<CT.Delta>): (r: Server)
    requires s.Valid()
    ensures r.Valid()
  {
    Handle(Play(s, requestId, DeltaPayloads(index, ds)), requestId, CT.ContentStop(index))
  }

  lemma Completed(s: Server, items: seq<OutputItem>, index: nat, b: Block, requestId: string, ds: seq<CT.Delta>)
    requires Writes(s, items, index, b) && b.text == ""
    ensures var n := |items| - 1;
            s.Valid() && n >= 0
            && Shows(Streaming(s, requestId, index, ds), Served(items[n := Filled(items[n], Said(ds))], !b.kind.ToolBlock?))
  {
    assert s.Valid();
    DeltasWritten(s, items, index, b, requestId, ds);
    assert "" + Said(ds) == Said(ds);
    hide Writes, Handle, Play, Shows, DeltaPayloads, Server.Valid;
    Stopped(Play(s, requestId, DeltaPayloads(index, ds)), items, index, b.(text := Said(ds)), requestId);
  }

  lemma ShowsValid(s: Server, v: Served)
    requires Shows(s, v)
    ensures s.Valid()
  {
  }

  /** The items once a message has been started for c, before its text. */
  function WithMessage(responseId: string, v: Served, id: string, finalAnswer: bool): seq<OutputItem> {
    if ContinuesMessage(v, id, finalAnswer) then v.items
    else v.items + [MessageItem(GivenOr(id, "msg", responseId, |v.items|), true, finalAnswer, [])]
  }

  function WithReasoning(responseId: string, v: Served, id: string): seq<OutputItem> {
    if HoldsThought(v, id) then v.items else v.items + [ReasoningItem(GivenOr(id, "rs", responseId, |v.items|), true, [], "")]
  }

  lemma TextServed(responseId: string, v: Served, c: CT.Content)
    requires IsText(c)
    ensures var v' := if HoldsThought(v, "") then v.(open := false) else v;
            var items := WithMessage(responseId, v', c.id, IsFinalAnswer(c.phase));
            ServeNext(responseId, v, c) == Served(items[|items| - 1 := Filled(items[|items| - 1], c.body.text)], true)
  {
    hide SyntheticId;
    assert [] + [c.body.text] == [c.body.text];
  }

  lemma SummaryServed(responseId: string, v: Served, c: CT.Content)
    requires IsSummary(c)
    ensures var v' := if HoldsMessage(v) then v.(open := false) else v;
            var items := WithReasoning(responseId, v', c.id);
            ServeNext(responseId, v, c) == Served(items[|items| - 1 := Filled(items[|items| - 1], c.body.text)], true)
  {
    hide SyntheticId;
    assert [] + [c.body.text] == [c.body.text];
  }

  lemma TextShown(s: Server, v: Served, requestId: string, index: nat, id: string, phase: CT.Phase, ds: seq<CT.Delta>)
    requires Shows(s, v) && !phase.Reasoning? && forall k | 0 <= k < |ds| :: !ds[k].ToolInputDelta?
    ensures s.Valid() && Shows(Streaming(OnStart(s, index, id, phase, CT.TextStart), requestId, index, ds),
                               ServeNext(s.responseId, v, ContentOf(Streamed(index, id, phase, CT.TextStart, ds))))
  {
    hide Shows, Streaming, StartText, FlushReasoning, Writes, Server.Valid, Said, ServeNext, ContentOf, HoldsThought, WithMessage;
    var v' := if HoldsThought(v, "") then v.(open := false) else v;
    TextBody(index, id, phase, ds);
    FlushedReasoning(s, v);
    TextServed(s.responseId, v, ContentOf(Streamed(index, id, phase, CT.TextStart, ds)));
    TextStarted(FlushReasoning(s), v', index, id, IsFinalAnswer(phase));
    var r := OnStart(s, index, id, phase, CT.TextStart);
    Completed(r, WithMessage(s.responseId, v', id, IsFinalAnswer(phase)), index, r.blocks[index], requestId, ds);
  }

  lemma SummaryShown(s: Server, v: Served, requestId: string, index: nat, id: string, phase: CT.Phase, ds: seq<CT.Delta>)
    requires Shows(s, v) && phase.Reasoning? && forall k | 0 <= k < |ds| :: !ds[k].ToolInputDelta?
    ensures s.Valid() && Shows(Streaming(OnStart(s, index, id, phase, CT.TextStart), requestId, index, ds),
                               ServeNext(s.responseId, v, ContentOf(Streamed(index, id, phase, CT.TextStart, ds))))
  {
    hide Shows, Streaming, StartReasoning, FlushText, Writes, Server.Valid, Said, ServeNext, ContentOf, HoldsMessage, WithReasoning;
    var v' := if HoldsMessage(v) then v.(open := false) else v;
    TextBody(index, id, phase, ds);
    FlushedText(s, v);
    SummaryServed(s.responseId, v, ContentOf(Streamed(index, id, phase, CT.TextStart, ds)));
    ReasoningStarted(FlushText(s), v', index, id);
    var r := OnStart(s, index, id, phase, CT.TextStart);
    Completed(r, WithReasoning(s.responseId, v', id), index, r.blocks[index], requestId, ds);
  }

  lemma ToolShown(s: Server, v: Served, requestId: string, index: nat, id: string, phase: CT.Phase,
                  callId: string, name: string, ds: seq<CT.Delta>)
    requires Shows(s, v) && forall k | 0 <= k < |ds| :: !ds[k].TextDelta?
    ensures s.Valid() && Shows(Streaming(OnStart(s, index, id, phase, CT.ToolStart(callId, name)), requestId, index, ds),
                               ServeNext(s.responseId, v, ContentOf(Streamed(index, id, phase, CT.ToolStart(callId, name), ds))))
  {
    hide SyntheticId, Shows, Streaming, StartTool, FlushItems, Writes, Server.Valid, Said, ContentOf, CT.TextualInput;
    ToolBody(index, id, phase, callId, name, ds);
    FlushedItems(s, v);
    ToolStarted(FlushItems(s), v.(open := false), index, id, callId, name);
    var r := OnStart(s, index, id, phase, CT.ToolStart(callId, name));
    var call := CallItem(GivenOr(id, "fc", s.responseId, |v.items|), true, callId, name, "");
    Completed(r, v.items + [call], index, r.blocks[index], requestId, ds);
    assert (v.items + [call])[|v.items| := Filled(call, Said(ds))] == v.items + [Filled(call, Said(ds))];
  }

  lemma NothingShown(s: Server, v: Served, requestId: string, index: nat, id: string, phase: CT.Phase, ds: seq<CT.Delta>)
    requires Shows(s, v)
    ensures s.Valid() && Shows(Streaming(OnStart(s, index, id, phase, CT.NoStart), requestId, index, ds),
                               ServeNext(s.responseId, v, ContentOf(Streamed(index, id, phase, CT.NoStart, ds))))
  {
    FlushedItems(s, v);
    DeltasIgnored(FlushItems(s), v.(open := false), index, requestId, ds);
    assert Handle(FlushItems(s), requestId, CT.ContentStop(index)) == FlushItems(s);
  }

  lemma ScriptShown(s: Server, v: Served, requestId: string, p: Part)
    requires Shows(s, v) && Matching(p)
    ensures s.Valid() && Shows(Play(s, requestId, Script(p)), ServeNext(s.responseId, v, ContentOf(p)))
  {
    ShowsValid(s, v);
    match p
    case Snapshot(c) =>
      SnapshotShown(s, v, c);
      hide Shows, Server.Valid, Handle;
      PlayFirst(s, requestId, CT.ContentSnapshot(c), []);
      SnapshotHandled(s, requestId, c);
    case Streamed(index, id, phase, kind, ds) =>
      hide Shows, Server.Valid, Handle, Play, OnStart, ServeNext, ContentOf, Script;
      PlayStreamed(s, requestId, index, id, phase, kind, ds);
      match kind
      case TextStart =>
        if phase.Reasoning? {
          SummaryShown(s, v, requestId, index, id, phase, ds);
        } else {
          TextShown(s, v, requestId, index, id, phase, ds);
        }
      case ToolStart(callId, name) => ToolShown(s, v, requestId, index, id, phase, callId, name, ds);
      case NoStart => NothingShown(s, v, requestId, index, id, phase, ds);
  }

  lemma SnapshotHandled(s: Server, requestId: string, c: CT.Content)
    requires s.Valid()
    ensures Handle(s, requestId, CT.ContentSnapshot(c)) == OnSnapshot(s, c)
  {
  }

  // ----- A whole stream -----

  lemma {:induction false} PlayKeepsHead(s: Server, requestId: string, ps: seq<CT.Payload>)
    requires s.Valid() && forall k | 0 <= k < |ps| :: !ps[k].MessageStart?
    ensures var r := Play(s, requestId, ps); r.responseId == s.responseId && r.model == s.model
    decreases ps
  {
    if ps != [] {
      HandleKeepsHead(s, requestId, ps[0]);
      PlayKeepsHead(Handle(s, requestId, ps[0]), requestId, ps[1..]);
    }
  }

  lemma {:induction false} ScriptsShown(s: Server, requestId: string, bs: seq<Part>)
    requires Shows(s, Served([], false)) && forall k | 0 <= k < |bs| :: Matching(bs[k])
    ensures s.Valid() && Shows(Play(s, requestId, Scripts(bs)), Serve(s.responseId, ContentsOf(bs)))
  {
    hide *;
    ShowsValid(s, Served([], false));
    if bs == [] {
      NothingScripted(s, requestId);
    } else {
      var n := |bs| - 1;
      ScriptsShown(s, requestId, bs[..n]);
      ScriptsSplit(bs[..n], bs[n]);
      assert bs[..n] + [bs[n]] == bs;
      PlayAppend(s, requestId, Scripts(bs[..n]), Script(bs[n]));
      ScriptsInside(bs[..n]);
      PlayKeepsHead(s, requestId, Scripts(bs[..n]));
      ScriptShown(Play(s, requestId, Scripts(bs[..n])), Serve(s.responseId, ContentsOf(bs[..n])), requestId, bs[n]);
      ServeOne(s.responseId, ContentsOf(bs[..n]), ContentOf(bs[n]));
    }
  }

  lemma NothingScripted(s: Server, requestId: string)
    requires s.Valid()
    ensures Scripts([]) == [] && ContentsOf([]) == [] && Play(s, requestId, []) == s && Serve(s.responseId, []) == Served([], false)
  {
  }

  lemma ServeOne(responseId: string, cs: seq<CT.Content>, c: CT.Content)
    ensures Serve(responseId, cs + [c]) == ServeNext(responseId, Serve(responseId, cs), c)
  {
    assert (cs + [c])[..|cs|] == cs;
  }

  lemma {:induction false} RunUsage(es: seq<CT.Event>)
    ensures ResponsesServers.Run(START, es).usage == Reported(es)
  {
    if es != [] {
      var front, e := es[..|es| - 1], es[|es| - 1];
      RunUsage(front);
      var s := ResponsesServers.Run(START, front);
      HandleKeepsHead(s.(usage := CT.MergeUsage(s.usage, e.usage)), e.requestId, e.payload);
      hide Handle;
    }
  }

  function ResponseId(requestId: string, messageId: string): string {
    if messageId == "" then requestId else messageId
  }

  lemma Opening(requestId: string, messageId: string, model: string)
    ensures var s := Handle(START, requestId, CT.MessageStart(messageId, model));
            Shows(s, Served([], false)) && s.responseId == ResponseId(requestId, messageId) && s.model == model
  {
  }

  lemma Closing(s: Server, v: Served, requestId: string, status: CT.Status)
    requires Shows(s, v)
    ensures var r := Handle(s, requestId, CT.MessageStop(status));
            r.items == v.items && r.base == 0 && r.responseId == s.responseId && r.model == s.model && r.status == StatusOf(status)
  {
    FlushedItems(s, v);
    var f := FlushItems(s);
    assert f.model == s.model;
    assert f.items == v.items by {
      forall k | 0 <= k < |f.items| ensures f.items[k] == v.items[k] {
        assert AsDone(f.items[k]) == v.items[k];
      }
    }
    hide FlushItems, StatusOf, TerminalOf;
  }

  lemma Played(requestId: string, messageId: string, model: string, bs: seq<Part>, status: CT.Status)
    requires forall k | 0 <= k < |bs| :: Matching(bs[k])
    ensures var ps := [CT.MessageStart(messageId, model)] + Scripts(bs) + [CT.MessageStop(status)];
            var r, id := Play(START, requestId, ps), ResponseId(requestId, messageId);
            r.items == Serve(id, ContentsOf(bs)).items && r.base == 0 && r.responseId == id && r.model == model && r.status == StatusOf(status)
  {
    hide Handle, Play, Shows, Server.Valid, Serve, StatusOf;
    var start, id := CT.MessageStart(messageId, model), ResponseId(requestId, messageId);
    StartValid();
    Opening(requestId, messageId, model);
    var s := Handle(START, requestId, start);
    ScriptsShown(s, requestId, bs);
    ScriptsInside(bs);
    PlayKeepsHead(s, requestId, Scripts(bs));
    PlayFirst(START, requestId, start, Scripts(bs));
    PlayOne(START, requestId, [start] + Scripts(bs), CT.MessageStop(status));
    Closing(Play(s, requestId, Scripts(bs)), Serve(id, ContentsOf(bs)), requestId, status);
  }

  lemma StartValid()
    ensures START.Valid()
  {
  }

  lemma {:induction false} FinalUsage(es: seq<CT.Event>, status: CT.Status)
    requires es != [] && es[|es| - 1].payload == CT.MessageStop(status)
    ensures ResponsesServers.Run(START, es).finalUsage == Reported(es)
  {
    RunUsage(es);
    var n := |es| - 1;
    var s := ResponsesServers.Run(START, es[..n]);
    StopUsage(s.(usage := CT.MergeUsage(s.usage, es[n].usage)), es[n].requestId, status);
    hide Handle;
  }

  lemma StopUsage(s: Server, requestId: string, status: CT.Status)
    requires s.Valid()
    ensures var r := Handle(s, requestId, CT.MessageStop(status)); r.finalUsage == r.usage
  {
  }

  /** Either way the response is the same but for its items, which the stream server groups as they come. */
  lemma BothResponses(es: seq<CT.Event>, requestId: string, messageId: string, model: string, bs: seq<Part>, status: CT.Status)
    requires Sequential(es, requestId, messageId, model, bs, status)
    ensures var s, c := ResponsesServers.Run(START, es).Response(), ConvertedResponse(Reducers.Run(Reducers.EMPTY, es).resp);
            var id := ResponseId(requestId, messageId);
            && s.(output := []) == c.(output := [])
            && s.output == Serve(id, ContentsOf(bs)).items && c.output == Converted(id, ContentsOf(bs))
  {
    var id := ResponseId(requestId, messageId);
    var ps := [CT.MessageStart(messageId, model)] + Scripts(bs) + [CT.MessageStop(status)];
    ReducedSequential(es, requestId, messageId, model, bs, status);
    RunsAlike(es, requestId);
    Played(requestId, messageId, model, bs, status);
    FinalUsage(es, status);
    var r := ResponsesServers.Run(START, es);
    assert Work(r) == Work(Play(START, requestId, ps));
    assert r.items[0..] == r.items;
  }

  /**
   Streaming equals converting: for every sequential stream, whatever ids it gives, the response the stream server ends
   with is the conversion of the reduced stream if and only if every content joins an item in both or in neither.
   Otherwise they differ in nothing but their output.
   */
  lemma StreamEqualsConversion(es: seq<CT.Event>, requestId: string, messageId: string, model: string, bs: seq<Part>, status: CT.Status)
    requires Sequential(es, requestId, messageId, model, bs, status)
    ensures var s, c := ResponsesServers.Run(START, es).Response(), ConvertedResponse(Reducers.Run(Reducers.EMPTY, es).resp);
            && (s == c <==> Agree(ResponseId(requestId, messageId), ContentsOf(bs)))
            && s.(output := []) == c.(output := [])
  {
    hide Sequential;
    BothResponses(es, requestId, messageId, model, bs, status);
    SameItemsIfAgree(ResponseId(requestId, messageId), ContentsOf(bs));
    hide ResponsesServers.Run, Reducers.Run, Serve, Converted, ConvertedResponse, Agree;
  }

  /**
   As long as no id has the form of those made up where one must be made up, that is a matter of traps alone, and the
   streamed output has one item more for every trap.
   */
  lemma OneItemMorePerTrap(es: seq<CT.Event>, requestId: string, messageId: string, model: string, bs: seq<Part>, status: CT.Status)
    requires Sequential(es, requestId, messageId, model, bs, status)
    requires Genuine(ResponseId(requestId, messageId), ContentsOf(bs))
    ensures var s, c := ResponsesServers.Run(START, es).Response(), ConvertedResponse(Reducers.Run(Reducers.EMPTY, es).resp);
            && (s == c <==> Traps(ContentsOf(bs)) == 0)
            && |s.output| == |c.output| + Traps(ContentsOf(bs))
  {
    hide Sequential;
    BothResponses(es, requestId, messageId, model, bs, status);
    ServedEqualsConverted(ResponseId(requestId, messageId), ContentsOf(bs));
    hide ResponsesServers.Run, Reducers.Run, Serve, Converted, ConvertedResponse, Traps;
  }

  /**
   The streamed output says what the contents say, in order: which text is the final answer's, and what is reasoning.
   Items have ids that contents gave, or ones made up of their kind and place.
   */
  lemma StreamTells(es: seq<CT.Event>, requestId: string, messageId: string, model: string, bs: seq<Part>, status: CT.Status)
    requires Sequential(es, requestId, messageId, model, bs, status)
    ensures var output := ResponsesServers.Run(START, es).Response().output;
            && GM.Marks(output) == GM.AllTold(ContentsOf(bs))
            && GM.AllNamed(ResponseId(requestId, messageId), ContentsOf(bs), output)
  {
    hide *;
    BothResponses(es, requestId, messageId, model, bs, status);
    GM.ServedTells(ResponseId(requestId, messageId), ContentsOf(bs));
    GM.ServedNamed(ResponseId(requestId, messageId), ContentsOf(bs));
  }

  lemma TwoContents(bs: seq<Part>)
    requires |bs| == 2
    ensures ContentsOf(bs) == [ContentOf(bs[0]), ContentOf(bs[1])]
  {
    assert bs == [] + [bs[0]] + [bs[1]];
    ScriptsSplit([] + [bs[0]], bs[1]);
    ScriptsSplit([], bs[0]);
  }

  /**
   Why ids must be genuine: a stream without traps of a text without id and one with the id that the router makes up for
   it. Streamed, they are parts of one message; converted, they are two messages.
   */
  lemma MadeUpIdsCollideOnARun(es: seq<CT.Event>, requestId: string, messageId: string, model: string, bs: seq<Part>, status: CT.Status)
    requires Sequential(es, requestId, messageId, model, bs, status) && |bs| == 2
    requires var a, b := ContentOf(bs[0]), ContentOf(bs[1]);
             && IsText(a) && IsText(b) && IsFinalAnswer(a.phase) == IsFinalAnswer(b.phase)
             && a.id == "" && b.id == SyntheticId("msg", ResponseId(requestId, messageId), 0)
    ensures Traps(ContentsOf(bs)) == 0
    ensures |ResponsesServers.Run(START, es).Response().output| == 1
    ensures |ConvertedResponse(Reducers.Run(Reducers.EMPTY, es).resp).output| == 2
  {
    hide Sequential;
    BothResponses(es, requestId, messageId, model, bs, status);
    var a, b := ContentOf(bs[0]), ContentOf(bs[1]);
    TwoContents(bs);
    hide ResponsesServers.Run, Reducers.Run, Serve, Converted, ConvertedResponse, Traps;
    MadeUpIdsCollide(ResponseId(requestId, messageId), a, b);
  }

  /** The promise as it is commonly made: with ids given and reasoning in one piece, streaming equals converting. */
  lemma TidyStreamEqualsConversion(es: seq<CT.Event>, requestId: string, messageId: string, model: string, bs: seq<Part>, status: CT.Status)
    requires Sequential(es, requestId, messageId, model, bs, status)
    requires Tidy(ContentsOf(bs))
    ensures ResponsesServers.Run(START, es).Response() == ConvertedResponse(Reducers.Run(Reducers.EMPTY, es).resp)
  {
    TidyHasNoTraps(ContentsOf(bs));
    TidyIsGenuine(ResponseId(requestId, messageId), ContentsOf(bs));
    OneItemMorePerTrap(es, requestId, messageId, model, bs, status);
  }
}
