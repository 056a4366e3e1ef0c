/** When the events decoded from a chat completion stream are well formed, and how often they end the message. */
module ChatUpstreamShape {
  import opened Basics
  import opened ChatTypes
  import opened ChatWire
  import opened StreamShape
  import opened ChatUpstream

  predicate Reports(chunk: Chunk) {
    chunk.usage != NO_USAGE
  }

  /** A chunk that says nothing of the message. */
  predicate Silent(chunk: Chunk) {
    !Reports(chunk) && (chunk.choice.Some? ==> var m := chunk.choice.value; m.content == "" && m.reasoning == "" && m.toolCalls == [])
  }

  /** Usage comes last: nothing is said after it. */
  ghost predicate UsageLast(chunks: seq<Chunk>) {
    forall j, k | 0 <= j < k < |chunks| && Reports(chunks[j]) :: Silent(chunks[k])
  }

  ghost predicate Agrees(c: Client) {
    && Watching(c.emitted) == Watch(c.nextIndex, if c.hasOpen then Some(c.openIndex) else None, c.stopEmitted)
    && (c.stopEmitted ==> c.messageStarted && !c.hasOpen)
  }

  lemma EmitWatched(c: Client, requestId: string, p: Payload)
    ensures Watching(Emit(c, requestId, p).emitted) == Watched(Watching(c.emitted), p)
  {
    WatchingMore(c.emitted, Event(requestId, None, p));
  }

  lemma CloseAgrees(c: Client, requestId: string)
    requires Agrees(c)
    ensures Agrees(CloseOpen(c, requestId)) && !CloseOpen(c, requestId).hasOpen && CloseOpen(c, requestId).stopEmitted == c.stopEmitted
  {
    EmitWatched(c, requestId, ContentStop(c.openIndex));
  }

  /** Agrees if nothing was over yet, and is broken otherwise. */
  ghost predicate AgreesUnlessOver(c: Client, r: Client) {
    r.messageStarted == c.messageStarted && r.stopEmitted == c.stopEmitted && if c.stopEmitted then Watching(r.emitted).Broken? else Agrees(r)
  }

  /** A new block after the open one, if any, was closed. */
  lemma NewBlockAgrees(c: Client, requestId: string, o: Client, id: string, phase: Phase, kind: StartKind)
    requires Agrees(c) && !c.hasOpen
    requires o == c.(nextIndex := c.nextIndex + 1, hasOpen := true, openIndex := c.nextIndex,
                     openIsTool := o.openIsTool, openPhase := o.openPhase, openToolIndex := o.openToolIndex)
    ensures AgreesUnlessOver(c, Emit(o, requestId, ContentStart(id, c.nextIndex, phase, kind)))
  {
    EmitWatched(o, requestId, ContentStart(id, c.nextIndex, phase, kind));
    hide Watching;
  }

  lemma OpenAgrees(c: Client, requestId: string, phase: Phase, t: ToolCall)
    requires Agrees(c)
    ensures AgreesUnlessOver(c, OpenText(c, requestId, phase)) && OpenText(c, requestId, phase).hasOpen
    ensures AgreesUnlessOver(c, OpenTool(c, requestId, t)) && OpenTool(c, requestId, t).hasOpen
  {
    hide Watching, CloseOpen;
    CloseAgrees(c, requestId);
    CloseStarted(c, requestId);
    var d := CloseOpen(c, requestId);
    NewBlockAgrees(d, requestId, d.(nextIndex := d.nextIndex + 1, hasOpen := true, openIsTool := false, openPhase := phase, openIndex := d.nextIndex),
                   "", phase, TextStart);
    NewBlockAgrees(d, requestId, d.(nextIndex := d.nextIndex + 1, hasOpen := true, openIsTool := true, openIndex := d.nextIndex, openToolIndex := t.index),
                   "", Normal, ToolStart(t.id, t.name));
  }

  lemma TextAgrees(c: Client, requestId: string, phase: Phase, text: string)
    requires Agrees(c)
    ensures var r := AddText(c, requestId, phase, text); if text == "" then r == c else AgreesUnlessOver(c, r)
  {
    hide Watching, OpenText;
    OpenAgrees(c, requestId, phase, ToolCall(0, "", "", ""));
    var o := OpenText(c, requestId, phase);
    EmitWatched(o, requestId, ContentDelta(o.openIndex, TextDelta(text)));
  }

  lemma CallAgrees(c: Client, requestId: string, t: ToolCall)
    requires Agrees(c)
    ensures AgreesUnlessOver(c, AddCall(c, requestId, t))
  {
    hide Watching, OpenTool;
    OpenAgrees(c, requestId, Normal, t);
    var o := OpenTool(c, requestId, t);
    EmitWatched(o, requestId, ContentDelta(o.openIndex, ToolInputDelta(t.arguments)));
  }

  lemma {:induction false} CallsAgree(c: Client, requestId: string, ts: seq<ToolCall>)
    requires Agrees(c)
    ensures var r := AddCalls(c, requestId, ts); if ts == [] then r == c else AgreesUnlessOver(c, r)
    decreases ts
  {
    if ts != [] {
      var n := |ts| - 1;
      CallsAgree(c, requestId, ts[..n]);
      var f := AddCalls(c, requestId, ts[..n]);
      hide Watching, AddCall;
      if Agrees(f) {
        CallAgrees(f, requestId, ts[n]);
      } else {
        CallGrows(f, requestId, ts[n]);
        BrokenForGood(f.emitted, AddCall(f, requestId, ts[n]).emitted);
      }
    }
  }

  lemma CallGrows(c: Client, requestId: string, t: ToolCall)
    ensures var r := AddCall(c, requestId, t);
            c.emitted <= r.emitted && r.messageStarted == c.messageStarted && r.stopEmitted == c.stopEmitted
  {
  }

  lemma {:induction false} CallsGrow(c: Client, requestId: string, ts: seq<ToolCall>)
    ensures var r := AddCalls(c, requestId, ts);
            c.emitted <= r.emitted && r.messageStarted == c.messageStarted && r.stopEmitted == c.stopEmitted
    decreases ts
  {
    if ts != [] {
      CallsGrow(c, requestId, ts[..|ts| - 1]);
      hide AddCall;
      CallGrows(AddCalls(c, requestId, ts[..|ts| - 1]), requestId, ts[|ts| - 1]);
    }
  }

  lemma TextGrows(c: Client, requestId: string, phase: Phase, text: string)
    ensures var r := AddText(c, requestId, phase, text);
            c.emitted <= r.emitted && r.messageStarted == c.messageStarted && r.stopEmitted == c.stopEmitted
  {
  }

  predicate SaysNothing(m: Choice) {
    m.content == "" && m.reasoning == "" && m.toolCalls == []
  }

  lemma ChoiceGrows(c: Client, requestId: string, m: Choice)
    ensures var r := AddChoice(c, requestId, m);
            c.emitted <= r.emitted && r.messageStarted == c.messageStarted && r.stopEmitted == c.stopEmitted
  {
    hide AddText, AddCalls;
    TextGrows(c, requestId, Reasoning, m.reasoning);
    var d := AddText(c, requestId, Reasoning, m.reasoning);
    TextGrows(d, requestId, Normal, m.content);
    CallsGrow(AddText(d, requestId, Normal, m.content), requestId, m.toolCalls);
  }

  lemma ChoiceAgrees(c: Client, requestId: string, m: Choice)
    requires Agrees(c)
    ensures var r := AddChoice(c, requestId, m); if SaysNothing(m) then Agrees(r) && r.stopEmitted == c.stopEmitted else AgreesUnlessOver(c, r)
  {
    hide Watching, AddText, AddCalls, StatusFrom;
    TextAgrees(c, requestId, Reasoning, m.reasoning);
    var d := AddText(c, requestId, Reasoning, m.reasoning);
    var e := AddText(d, requestId, Normal, m.content);
    TextGrows(d, requestId, Normal, m.content);
    CallsGrow(e, requestId, m.toolCalls);
    if Watching(d.emitted).Broken? {
      BrokenForGood(d.emitted, AddCalls(e, requestId, m.toolCalls).emitted);
    } else {
      TextAgrees(d, requestId, Normal, m.content);
      if Watching(e.emitted).Broken? {
        BrokenForGood(e.emitted, AddCalls(e, requestId, m.toolCalls).emitted);
      } else {
        CallsAgree(e, requestId, m.toolCalls);
      }
    }
  }

  lemma EndAgrees(c: Client, requestId: string, usage: Option<Usage>)
    requires Agrees(c) && c.messageStarted
    ensures var r := End(c, requestId, usage); if c.stopEmitted then Watching(r.emitted).Broken? else Agrees(r) && r.stopEmitted
  {
    hide Watching, CloseOpen;
    CloseAgrees(c, requestId);
    CloseStarted(c, requestId);
    var d := CloseOpen(c, requestId);
    WatchingMore(d.emitted, Event(requestId, usage, MessageStop(d.status)));
  }

  lemma CloseStarted(c: Client, requestId: string)
    ensures var d := CloseOpen(c, requestId);
            d.messageStarted == c.messageStarted && d.nextIndex == c.nextIndex && c.emitted <= d.emitted && d.stopEmitted == c.stopEmitted
  {
  }

  lemma BeginAgrees(c: Client, requestId: string, id: string, model: string)
    requires Agrees(c)
    ensures var r := Begin(c, requestId, id, model); Agrees(r) && r.messageStarted && r.stopEmitted == c.stopEmitted
  {
    EmitWatched(c.(messageStarted := true), requestId, MessageStart(id, model));
    hide Watching;
  }

  lemma StepAgrees(c: Client, requestId: string, chunk: Chunk)
    requires Agrees(c)
    ensures var r := Step(c, requestId, chunk);
            if c.stopEmitted && !Silent(chunk) then Watching(r.emitted).Broken? else Agrees(r) && r.messageStarted
                                                                                     && r.stopEmitted == (c.stopEmitted || Reports(chunk))
  {
    hide Watching, Begin, AddChoice, End;
    BeginAgrees(c, requestId, chunk.id, chunk.model);
    var b := Begin(c, requestId, chunk.id, chunk.model);
    if chunk.choice.Some? {
      ChoiceAgrees(b, requestId, chunk.choice.value);
      ChoiceGrows(b, requestId, chunk.choice.value);
    }
    var d := if chunk.choice.Some? then AddChoice(b, requestId, chunk.choice.value) else b;
    if Reports(chunk) {
      EndGrows(d, requestId, Some(chunk.usage));
      if Watching(d.emitted).Broken? {
        BrokenForGood(d.emitted, End(d, requestId, Some(chunk.usage)).emitted);
      } else {
        EndAgrees(d, requestId, Some(chunk.usage));
      }
    }
  }

  lemma EndGrows(c: Client, requestId: string, usage: Option<Usage>)
    ensures c.emitted <= End(c, requestId, usage).emitted
    ensures var r := End(c, requestId, usage); r.messageStarted == c.messageStarted && r.stopEmitted
  {
  }

  lemma StepGrows(c: Client, requestId: string, chunk: Chunk)
    ensures c.emitted <= Step(c, requestId, chunk).emitted
  {
    hide AddChoice, End;
    var b := Begin(c, requestId, chunk.id, chunk.model);
    if chunk.choice.Some? {
      ChoiceGrows(b, requestId, chunk.choice.value);
    }
    EndGrows(if chunk.choice.Some? then AddChoice(b, requestId, chunk.choice.value) else b, requestId, Some(chunk.usage));
  }

  ghost predicate AnyReports(chunks: seq<Chunk>) {
    exists k | 0 <= k < |chunks| :: Reports(chunks[k])
  }

  lemma UsageLastMore(chunks: seq<Chunk>, chunk: Chunk)
    ensures UsageLast(chunks + [chunk]) <==> UsageLast(chunks) && (AnyReports(chunks) ==> Silent(chunk))
    ensures AnyReports(chunks + [chunk]) <==> AnyReports(chunks) || Reports(chunk)
  {
    var all := chunks + [chunk];
    assert all[|chunks|] == chunk && forall k | 0 <= k < |chunks| :: all[k] == chunks[k];
    if AnyReports(chunks) {
      var j :| 0 <= j < |chunks| && Reports(chunks[j]);
      assert Reports(all[j]);
    }
  }

  lemma {:induction false} RunWatched(requestId: string, chunks: seq<Chunk>)
    ensures var c := Run(requestId, chunks);
            if UsageLast(chunks) then Agrees(c) && c.messageStarted == (chunks != []) && c.stopEmitted == AnyReports(chunks)
            else Watching(c.emitted).Broken?
  {
    if chunks != [] {
      var front, chunk := chunks[..|chunks| - 1], chunks[|chunks| - 1];
      RunWatched(requestId, front);
      UsageLastMore(front, chunk);
      assert front + [chunk] == chunks;
      var c := Run(requestId, front);
      hide Watching, Step, UsageLast, AnyReports, Silent;
      if UsageLast(front) {
        StepAgrees(c, requestId, chunk);
      } else {
        StepGrows(c, requestId, chunk);
        BrokenForGood(c.emitted, Step(c, requestId, chunk).emitted);
      }
    }
  }

  /** The decoded events are well formed if and only if nothing is said after a report of usage. */
  lemma DecodedWellFormed(requestId: string, chunks: seq<Chunk>)
    ensures WellFormed(Decoded(requestId, chunks)) <==> UsageLast(chunks)
    ensures UsageLast(chunks) && chunks != [] ==> Watching(Decoded(requestId, chunks)).over
  {
    RunWatched(requestId, chunks);
    var c := Run(requestId, chunks);
    hide Watching, End, UsageLast, AnyReports;
    EndGrows(c, requestId, None);
    if c.messageStarted && !c.stopEmitted {
      if UsageLast(chunks) {
        EndAgrees(c, requestId, None);
      } else {
        BrokenForGood(c.emitted, End(c, requestId, None).emitted);
      }
    }
  }

  // ----- How often the message ends -----

  function Report(chunk: Chunk): int {
    if Reports(chunk) then 1 else 0
  }

  lemma {:induction false} CallsEndNothing(c: Client, requestId: string, ts: seq<ToolCall>)
    ensures SumOver(IsStop, AddCalls(c, requestId, ts).emitted) == SumOver(IsStop, c.emitted)
    decreases ts
  {
    if ts != [] {
      CallsEndNothing(c, requestId, ts[..|ts| - 1]);
      hide AddCall;
      CallEndsNothing(AddCalls(c, requestId, ts[..|ts| - 1]), requestId, ts[|ts| - 1]);
    }
  }

  lemma EmitEnds(c: Client, requestId: string, p: Payload)
    ensures SumOver(IsStop, Emit(c, requestId, p).emitted) == SumOver(IsStop, c.emitted) + if p.MessageStop? then 1 else 0
  {
    SumAppend(IsStop, c.emitted, Event(requestId, None, p));
  }

  lemma CloseEndsNothing(c: Client, requestId: string)
    ensures SumOver(IsStop, CloseOpen(c, requestId).emitted) == SumOver(IsStop, c.emitted)
  {
    EmitEnds(c, requestId, ContentStop(c.openIndex));
  }

  lemma OpenEndsNothing(c: Client, requestId: string, phase: Phase, t: ToolCall)
    ensures SumOver(IsStop, OpenText(c, requestId, phase).emitted) == SumOver(IsStop, c.emitted)
    ensures SumOver(IsStop, OpenTool(c, requestId, t).emitted) == SumOver(IsStop, c.emitted)
  {
    hide SumOver, CloseOpen;
    CloseEndsNothing(c, requestId);
    var d := CloseOpen(c, requestId);
    EmitEnds(d.(nextIndex := d.nextIndex + 1, hasOpen := true, openIsTool := false, openPhase := phase, openIndex := d.nextIndex),
             requestId, ContentStart("", d.nextIndex, phase, TextStart));
    EmitEnds(d.(nextIndex := d.nextIndex + 1, hasOpen := true, openIsTool := true, openIndex := d.nextIndex, openToolIndex := t.index),
             requestId, ContentStart("", d.nextIndex, Normal, ToolStart(t.id, t.name)));
  }

  lemma CallEndsNothing(c: Client, requestId: string, t: ToolCall)
    ensures SumOver(IsStop, AddCall(c, requestId, t).emitted) == SumOver(IsStop, c.emitted)
  {
    hide SumOver, OpenTool;
    OpenEndsNothing(c, requestId, Normal, t);
    var o := OpenTool(c, requestId, t);
    EmitEnds(o, requestId, ContentDelta(o.openIndex, ToolInputDelta(t.arguments)));
  }

  lemma TextEndsNothing(c: Client, requestId: string, phase: Phase, text: string)
    ensures SumOver(IsStop, AddText(c, requestId, phase, text).emitted) == SumOver(IsStop, c.emitted)
  {
    hide SumOver, OpenText;
    OpenEndsNothing(c, requestId, phase, ToolCall(0, "", "", ""));
    var o := OpenText(c, requestId, phase);
    EmitEnds(o, requestId, ContentDelta(o.openIndex, TextDelta(text)));
  }

  lemma ChoiceEndsNothing(c: Client, requestId: string, m: Choice)
    ensures SumOver(IsStop, AddChoice(c, requestId, m).emitted) == SumOver(IsStop, c.emitted)
  {
    hide SumOver, AddText, AddCalls;
    TextEndsNothing(c, requestId, Reasoning, m.reasoning);
    var d := AddText(c, requestId, Reasoning, m.reasoning);
    TextEndsNothing(d, requestId, Normal, m.content);
    CallsEndNothing(AddText(d, requestId, Normal, m.content), requestId, m.toolCalls);
  }

  lemma EndEnds(c: Client, requestId: string, usage: Option<Usage>)
    ensures SumOver(IsStop, End(c, requestId, usage).emitted) == SumOver(IsStop, c.emitted) + 1
  {
    CloseEndsNothing(c, requestId);
    var d := CloseOpen(c, requestId);
    SumAppend(IsStop, d.emitted, Event(requestId, usage, MessageStop(d.status)));
  }

  lemma StepEnds(c: Client, requestId: string, chunk: Chunk)
    ensures var r := Step(c, requestId, chunk);
            && SumOver(IsStop, r.emitted) == SumOver(IsStop, c.emitted) + Report(chunk)
            && r.messageStarted && r.stopEmitted == (c.stopEmitted || Reports(chunk))
  {
    hide SumOver, AddChoice, End;
    EmitEnds(c.(messageStarted := true), requestId, MessageStart(chunk.id, chunk.model));
    var b := Begin(c, requestId, chunk.id, chunk.model);
    if chunk.choice.Some? {
      ChoiceEndsNothing(b, requestId, chunk.choice.value);
      ChoiceGrows(b, requestId, chunk.choice.value);
    }
    var d := if chunk.choice.Some? then AddChoice(b, requestId, chunk.choice.value) else b;
    EndEnds(d, requestId, Some(chunk.usage));
    EndGrows(d, requestId, Some(chunk.usage));
  }

  lemma {:induction false} RunEnds(requestId: string, chunks: seq<Chunk>)
    ensures var c := Run(requestId, chunks);
            && SumOver(IsStop, c.emitted) == SumOver(Report, chunks) >= 0
            && c.messageStarted == (chunks != []) && c.stopEmitted == (SumOver(Report, chunks) > 0)
  {
    if chunks != [] {
      RunEnds(requestId, chunks[..|chunks| - 1]);
      hide Step;
      StepEnds(Run(requestId, chunks[..|chunks| - 1]), requestId, chunks[|chunks| - 1]);
    }
  }

  /** Every chunk with usage ends the message; if there is none, the end of the stream does. */
  lemma EveryReportEnds(requestId: string, chunks: seq<Chunk>)
    ensures SumOver(IsStop, Decoded(requestId, chunks))
         == if chunks == [] then 0 else MaxInt(1, SumOver(Report, chunks))
  {
    RunEnds(requestId, chunks);
    hide SumOver, End, Run;
    EndEnds(Run(requestId, chunks), requestId, None);
    if chunks == [] {
      NothingDecoded(requestId);
    }
  }

  lemma NothingDecoded(requestId: string)
    ensures Decoded(requestId, []) == [] && SumOver(IsStop, []) == 0
  {
  }
}
