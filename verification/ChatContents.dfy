/** What a chat completion stream is decoded into, told from its chunks alone, for all streams. */
module ChatContents {
  import opened Basics
  import opened ChatTypes
  import opened ChatWire
  import opened ChatMeaning
  import R = Reducers
  import C = ChatUpstream

  // ----- Contents -----

  /** What the chunks say; a report of usage ends the message, and with it what is open. */
  function Heard(chunks: seq<Chunk>): seq<Piece> {
    if chunks == [] then [] else
    var chunk := chunks[|chunks| - 1];
    (Heard(chunks[..|chunks| - 1]) + if chunk.choice.Some? then PiecesOf(chunk.choice.value) else [])
    + if chunk.usage == NO_USAGE then [] else [Break]
  }

  /** A piece of the same kind as the one before it: text of the same phase, or a fragment of the same call. */
  predicate Continues(ps: seq<Piece>, p: Piece) {
    ps != [] && match p
    case Uttered(phase, _) => ps[|ps| - 1].Uttered? && ps[|ps| - 1].phase == phase
    case Fragment(index, _, _, _) => ps[|ps| - 1].Fragment? && ps[|ps| - 1].index == index
    case Break => false
  }

  /** A content that begins with a piece, and one that goes on with it. */
  function Begun(k: nat, p: Piece): seq<Content> {
    match p
    case Uttered(phase, text) => [Content("", Some(k), phase, "", Text(text))]
    case Fragment(_, id, name, arguments) => [Content("", Some(k), Normal, "", ToolUse(id, name, if arguments == "" then [] else [arguments]))]
    case Break => []
  }

  function More(b: Body, p: Piece): Body {
    if p.Uttered? && b.Text? then Text(b.text + p.text)
    else if p.Fragment? && b.ToolUse? && p.arguments != "" then
      b.(inputs := if b.inputs == [] then [p.arguments] else b.inputs[0 := b.inputs[0] + p.arguments])
    else b
  }

  /** The contents that the pieces make up, in order. */
  function Drafted(ps: seq<Piece>): seq<Content> {
    if ps == [] then [] else
    var front, p := ps[..|ps| - 1], ps[|ps| - 1];
    var cs := Drafted(front);
    if Continues(front, p) && cs != [] then cs[|cs| - 1 := cs[|cs| - 1].(body := More(cs[|cs| - 1].body, p))] else cs + Begun(|cs|, p)
  }

  lemma DraftedMore(ps: seq<Piece>, p: Piece)
    ensures var cs := Drafted(ps);
            Drafted(ps + [p]) == if Continues(ps, p) && cs != [] then cs[|cs| - 1 := cs[|cs| - 1].(body := More(cs[|cs| - 1].body, p))]
                                 else cs + Begun(|cs|, p)
  {
    assert (ps + [p])[..|ps|] == ps;
    hide Begun, More, Continues;
  }

  // ----- The decoding client -----

  function Reduction(c: C.Client): R.Reducer {
    R.Run(R.EMPTY, c.emitted)
  }

  function Out(c: C.Client): seq<Content> {
    Contents(Reduction(c).resp)
  }

  /** What is open is what was said last. */
  ghost predicate OpenAs(c: C.Client, ps: seq<Piece>) {
    if ps == [] then !c.hasOpen else
    match ps[|ps| - 1]
    case Uttered(phase, _) => c.hasOpen && !c.openIsTool && c.openPhase == phase
    case Fragment(index, _, _, _) => c.hasOpen && c.openIsTool && c.openToolIndex == index
    case Break => !c.hasOpen
  }

  ghost predicate Refers(c: C.Client) {
    var slots := Reduction(c).slots;
    && c.nextIndex == |Out(c)|
    && (c.hasOpen ==>
          && Out(c) != [] && c.openIndex in slots && slots[c.openIndex] == |Out(c)| - 1
          && if c.openIsTool then Out(c)[|Out(c)| - 1].body.ToolUse? else Out(c)[|Out(c)| - 1].body.Text?)
  }

  ghost predicate Reads(c: C.Client, ps: seq<Piece>) {
    Refers(c) && OpenAs(c, ps) && Out(c) == Drafted(ps)
  }

  lemma EmitReduced(c: C.Client, requestId: string, p: Payload)
    ensures Reduction(C.Emit(c, requestId, p)) == R.Reduced(Reduction(c), Event(requestId, None, p))
  {
    R.RunAppend(R.EMPTY, c.emitted, Event(requestId, None, p));
    hide R.Run, R.Reduced;
  }

  lemma CloseRead(c: C.Client, requestId: string)
    requires Refers(c)
    ensures var d := C.CloseOpen(c, requestId);
            && Refers(d) && !d.hasOpen && Out(d) == Out(c) && d.nextIndex == c.nextIndex
  {
    EmitReduced(c, requestId, ContentStop(c.openIndex));
    hide R.Run;
  }

  /** A new block is a new content. */
  lemma BlockRead(d: C.Client, requestId: string, o: C.Client, phase: Phase, kind: StartKind)
    requires Refers(d) && !d.hasOpen && !kind.NoStart?
    requires o == d.(nextIndex := d.nextIndex + 1, hasOpen := true, openIndex := d.nextIndex, openIsTool := kind.ToolStart?,
                     openPhase := o.openPhase, openToolIndex := o.openToolIndex)
    ensures var e := C.Emit(o, requestId, ContentStart("", d.nextIndex, phase, kind));
            && Refers(e) && e == o.(emitted := e.emitted)
            && Out(e) == Out(d) + [Content("", Some(|Out(d)|), phase, "", R.StartedBody(kind))]
  {
    assert Reduction(o) == Reduction(d);
    EmitReduced(o, requestId, ContentStart("", d.nextIndex, phase, kind));
    hide R.Run, Reduction;
  }

  /** A delta for the open block is a delta for the last content. */
  lemma DeltaRead(c: C.Client, requestId: string, d: Delta)
    requires Refers(c) && c.hasOpen
    ensures var r, out := C.Emit(c, requestId, ContentDelta(c.openIndex, d)), Out(c);
            && Refers(r) && r == c.(emitted := r.emitted)
            && out != [] && Out(r) == out[|out| - 1 := R.ApplyDelta(out[|out| - 1], d)]
  {
    EmitReduced(c, requestId, ContentDelta(c.openIndex, d));
    hide R.Run, Reduction;
  }

  lemma ReadsMore(c: C.Client, r: C.Client, ps: seq<Piece>, p: Piece)
    requires Reads(c, ps) && Refers(r) && OpenAs(r, [p])
    requires var cs := Out(c);
             Out(r) == if Continues(ps, p) && cs != [] then cs[|cs| - 1 := cs[|cs| - 1].(body := More(cs[|cs| - 1].body, p))]
                       else cs + Begun(|cs|, p)
    ensures Reads(r, ps + [p])
  {
    DraftedMore(ps, p);
    hide Drafted, Refers, Out, More, Begun, Continues;
  }

  /** Exactly a piece that continues the last one finds its block open. */
  lemma OpenFor(c: C.Client, ps: seq<Piece>, phase: Phase, text: string, t: ToolCall)
    requires Reads(c, ps)
    ensures Continues(ps, Uttered(phase, text)) <==> c.hasOpen && !c.openIsTool && c.openPhase == phase
    ensures Continues(ps, Fragment(t.index, t.id, t.name, t.arguments)) <==> c.hasOpen && c.openIsTool && c.openToolIndex == t.index
    ensures Refers(c)
  {
    hide Refers, Drafted;
  }

  lemma OpenContent(c: C.Client)
    requires Refers(c) && c.hasOpen
    ensures Out(c) != [] && if c.openIsTool then Out(c)[|Out(c)| - 1].body.ToolUse? else Out(c)[|Out(c)| - 1].body.Text?
  {
    hide Out;
  }

  lemma UtteredRead(c: C.Client, requestId: string, phase: Phase, text: string, ps: seq<Piece>)
    requires Reads(c, ps) && text != ""
    ensures Reads(C.AddText(c, requestId, phase, text), ps + [Uttered(phase, text)])
  {
    hide Reads, Refers, Out, Continues, C.CloseOpen, C.Emit;
    var p := Uttered(phase, text);
    OpenFor(c, ps, phase, text, ToolCall(0, "", "", ""));
    if Continues(ps, p) {
      OpenContent(c);
      DeltaRead(c, requestId, TextDelta(text));
    } else {
      CloseRead(c, requestId);
      var d := C.CloseOpen(c, requestId);
      var o := d.(nextIndex := d.nextIndex + 1, hasOpen := true, openIsTool := false, openPhase := phase, openIndex := d.nextIndex);
      BlockRead(d, requestId, o, phase, TextStart);
      var e := C.Emit(o, requestId, ContentStart("", d.nextIndex, phase, TextStart));
      DeltaRead(e, requestId, TextDelta(text));
      assert "" + text == text;
    }
    ReadsMore(c, C.AddText(c, requestId, phase, text), ps, p);
  }

  lemma FragmentRead(c: C.Client, requestId: string, t: ToolCall, ps: seq<Piece>)
    requires Reads(c, ps)
    ensures Reads(C.AddCall(c, requestId, t), ps + [Fragment(t.index, t.id, t.name, t.arguments)])
  {
    hide Reads, Refers, Out, Continues, C.CloseOpen, C.Emit;
    var p := Fragment(t.index, t.id, t.name, t.arguments);
    OpenFor(c, ps, Normal, "", t);
    if Continues(ps, p) {
      OpenContent(c);
      DeltaRead(c, requestId, ToolInputDelta(t.arguments));
    } else {
      CloseRead(c, requestId);
      var d := C.CloseOpen(c, requestId);
      var o := d.(nextIndex := d.nextIndex + 1, hasOpen := true, openIsTool := true, openIndex := d.nextIndex, openToolIndex := t.index);
      BlockRead(d, requestId, o, Normal, ToolStart(t.id, t.name));
      var e := C.Emit(o, requestId, ContentStart("", d.nextIndex, Normal, ToolStart(t.id, t.name)));
      DeltaRead(e, requestId, ToolInputDelta(t.arguments));
    }
    ReadsMore(c, C.AddCall(c, requestId, t), ps, p);
  }

  lemma TextRead(c: C.Client, requestId: string, phase: Phase, text: string, ps: seq<Piece>)
    requires Reads(c, ps)
    ensures Reads(C.AddText(c, requestId, phase, text), ps + Utterance(phase, text))
  {
    hide Reads;
    if text == "" {
      assert ps + [] == ps;
    } else {
      UtteredRead(c, requestId, phase, text, ps);
    }
  }

  lemma {:induction false} CallsRead(c: C.Client, requestId: string, ts: seq<ToolCall>, ps: seq<Piece>)
    requires Reads(c, ps)
    ensures Reads(C.AddCalls(c, requestId, ts), ps + Fragments(ts))
    decreases ts
  {
    hide Reads, C.AddCall;
    if ts == [] {
      assert ps + [] == ps;
    } else {
      var n, t := |ts| - 1, ts[|ts| - 1];
      CallsRead(c, requestId, ts[..n], ps);
      FragmentRead(C.AddCalls(c, requestId, ts[..n]), requestId, t, ps + Fragments(ts[..n]));
      Assoc(ps, Fragments(ts[..n]), [Fragment(t.index, t.id, t.name, t.arguments)]);
    }
  }

  lemma Assoc(a: seq<Piece>, b: seq<Piece>, c: seq<Piece>)
    ensures (a + b) + c == a + (b + c)
  {
  }

  lemma SameReads(c: C.Client, d: C.Client, ps: seq<Piece>)
    requires Reads(c, ps) && d == c.(status := d.status, messageStarted := d.messageStarted, stopEmitted := d.stopEmitted)
    ensures Reads(d, ps)
  {
    hide Drafted, R.Run;
  }

  lemma ChoiceRead(c: C.Client, requestId: string, m: Choice, ps: seq<Piece>)
    requires Reads(c, ps)
    ensures Reads(C.AddChoice(c, requestId, m), ps + PiecesOf(m))
  {
    hide Reads, C.AddText, C.AddCalls, StatusFrom, Fragments, Utterance;
    var u, v, w := Utterance(Reasoning, m.reasoning), Utterance(Normal, m.content), Fragments(m.toolCalls);
    var d := C.AddText(c, requestId, Reasoning, m.reasoning);
    var e := C.AddText(d, requestId, Normal, m.content);
    var f := C.AddCalls(e, requestId, m.toolCalls);
    TextRead(c, requestId, Reasoning, m.reasoning, ps);
    TextRead(d, requestId, Normal, m.content, ps + u);
    CallsRead(e, requestId, m.toolCalls, (ps + u) + v);
    Assoc(ps, u, v);
    Assoc(ps, u + v, w);
    SameReads(f, C.AddChoice(c, requestId, m), ps + PiecesOf(m));
  }

  lemma BeginRead(c: C.Client, requestId: string, id: string, model: string, ps: seq<Piece>)
    requires Reads(c, ps)
    ensures Reads(C.Begin(c, requestId, id, model), ps)
  {
    EmitReduced(c.(messageStarted := true), requestId, MessageStart(id, model));
    hide R.Run, Drafted;
  }

  lemma EndRead(c: C.Client, requestId: string, usage: Option<Usage>, ps: seq<Piece>)
    requires Reads(c, ps)
    ensures Reads(C.End(c, requestId, usage), ps + [Break])
  {
    hide Drafted, R.Run, Continues;
    CloseRead(c, requestId);
    var d := C.CloseOpen(c, requestId);
    R.RunAppend(R.EMPTY, d.emitted, Event(requestId, usage, MessageStop(d.status)));
    ReadsMore(c, C.End(c, requestId, usage), ps, Break) by { NeverContinues(ps); }
  }

  lemma NeverContinues(ps: seq<Piece>)
    ensures !Continues(ps, Break)
  {
  }

  lemma StepRead(c: C.Client, requestId: string, chunk: Chunk, ps: seq<Piece>)
    requires Reads(c, ps)
    ensures Reads(C.Step(c, requestId, chunk),
                  (ps + if chunk.choice.Some? then PiecesOf(chunk.choice.value) else []) + if chunk.usage == NO_USAGE then [] else [Break])
  {
    hide Reads, PiecesOf, C.Begin, C.AddChoice, C.End;
    var b := C.Begin(c, requestId, chunk.id, chunk.model);
    BeginRead(c, requestId, chunk.id, chunk.model, ps);
    var said := if chunk.choice.Some? then PiecesOf(chunk.choice.value) else [];
    assert ps + [] == ps && (ps + said) + [] == ps + said;
    if chunk.choice.Some? {
      ChoiceRead(b, requestId, chunk.choice.value, ps);
    }
    if chunk.usage != NO_USAGE {
      EndRead(if chunk.choice.Some? then C.AddChoice(b, requestId, chunk.choice.value) else b, requestId, Some(chunk.usage), ps + said);
    }
  }

  lemma {:induction false} RunRead(requestId: string, chunks: seq<Chunk>)
    ensures Reads(C.Run(requestId, chunks), Heard(chunks))
  {
    if chunks != [] {
      var n := |chunks| - 1;
      RunRead(requestId, chunks[..n]);
      StepRead(C.Run(requestId, chunks[..n]), requestId, chunks[n], Heard(chunks[..n]));
      hide Reads, C.Step, PiecesOf;
    }
  }

  /**
   For every stream of chunks, whatever their order: the reduced contents are those that the pieces make up, adjacent text
   of one phase and adjacent fragments of one call being one content each.
   */
  lemma DecodedContents(requestId: string, chunks: seq<Chunk>)
    ensures Contents(R.Run(R.EMPTY, C.Decoded(requestId, chunks)).resp) == Drafted(Heard(chunks))
  {
    RunRead(requestId, chunks);
    var c := C.Run(requestId, chunks);
    EndRead(c, requestId, None, Heard(chunks));
    ReadOut(c, Heard(chunks));
    ReadOut(C.End(c, requestId, None), Heard(chunks) + [Break]);
    DraftedMore(Heard(chunks), Break);
    NeverContinues(Heard(chunks));
    hide Reads, R.Run, Drafted, Heard, C.Run, C.End;
    assert Drafted(Heard(chunks)) + [] == Drafted(Heard(chunks));
  }

  lemma ReadOut(c: C.Client, ps: seq<Piece>)
    requires Reads(c, ps)
    ensures Contents(R.Run(R.EMPTY, c.emitted).resp) == Drafted(ps)
  {
    hide R.Run, Drafted;
  }

  // ----- Id, model, status and usage -----

  /** What the finish reasons mean; reasons to come leave the turn in progress. */
  function Meant(reason: string): Status {
    if reason == "stop" then Completed
    else if reason == "length" then ReachedTokenLimit
    else if reason == "tool_calls" then PendingToolUse
    else if reason == "function_call" then PendingToolUse
    else if reason == "content_filter" then Refused
    else InProgress
  }

  /** The meaning of the last finish reason so far. */
  function Finishing(chunks: seq<Chunk>): Status {
    if chunks == [] then Unspecified else
    var m := chunks[|chunks| - 1].choice;
    if m.Some? && m.value.finishReason != "" then Meant(m.value.finishReason) else Finishing(chunks[..|chunks| - 1])
  }

  function Reporting(chunks: seq<Chunk>): bool {
    chunks != [] && (chunks[|chunks| - 1].usage != NO_USAGE || Reporting(chunks[..|chunks| - 1]))
  }

  /** The status that the last report of usage ends the message with. */
  function Reported(chunks: seq<Chunk>): Status {
    if chunks == [] then Unspecified
    else if chunks[|chunks| - 1].usage != NO_USAGE then Finishing(chunks)
    else Reported(chunks[..|chunks| - 1])
  }

  function TokensHeard(f: R.UsageField, chunks: seq<Chunk>): nat {
    if chunks == [] then 0 else
    var tokens := R.FieldOf(Some(chunks[|chunks| - 1].usage), f);
    if tokens != 0 then tokens else TokensHeard(f, chunks[..|chunks| - 1])
  }

  function StartHeard(chunks: seq<Chunk>): (string, string) {
    if chunks == [] then ("", "") else (chunks[0].id, chunks[0].model)
  }

  /** What the events say besides contents. */
  datatype Header = Header(start: (string, string), stop: Status, tokens: nat)

  ghost predicate Says(es: seq<Event>, f: R.UsageField, h: Header) {
    h == Header(LastStart(es), LastStop(es), R.LastReport(f, es))
  }

  lemma SaysMore(es: seq<Event>, e: Event, f: R.UsageField, h: Header)
    requires Says(es, f, h)
    ensures Says(es + [e], f, Header(if e.payload.MessageStart? then (e.payload.messageId, e.payload.model) else h.start,
                                     if e.payload.MessageStop? then e.payload.status else h.stop,
                                     if R.FieldOf(e.usage, f) != 0 then R.FieldOf(e.usage, f) else h.tokens))
  {
    assert (es + [e])[..|es|] == es;
  }

  /** Has said nothing but contents in between. */
  ghost predicate Keeps(c: C.Client, r: C.Client, f: R.UsageField, h: Header) {
    Says(r.emitted, f, h) && r.status == c.status && r.messageStarted == c.messageStarted && r.stopEmitted == c.stopEmitted
  }

  lemma EmitKeeps(c: C.Client, d: C.Client, requestId: string, p: Payload, f: R.UsageField, h: Header)
    requires Keeps(c, d, f, h) && !p.MessageStart? && !p.MessageStop?
    ensures Keeps(c, C.Emit(d, requestId, p), f, h)
  {
    hide Says;
    SaysMore(d.emitted, Event(requestId, None, p), f, h);
  }

  lemma CloseKeeps(c: C.Client, d: C.Client, requestId: string, f: R.UsageField, h: Header)
    requires Keeps(c, d, f, h)
    ensures Keeps(c, C.CloseOpen(d, requestId), f, h)
  {
    EmitKeeps(c, d, requestId, ContentStop(d.openIndex), f, h);
    hide Says;
  }

  lemma OpenKeeps(c: C.Client, d: C.Client, requestId: string, phase: Phase, t: ToolCall, f: R.UsageField, h: Header)
    requires Keeps(c, d, f, h)
    ensures Keeps(c, C.OpenText(d, requestId, phase), f, h) && Keeps(c, C.OpenTool(d, requestId, t), f, h)
  {
    hide Says, C.CloseOpen, C.Emit;
    CloseKeeps(c, d, requestId, f, h);
    var e := C.CloseOpen(d, requestId);
    EmitKeeps(c, e.(nextIndex := e.nextIndex + 1, hasOpen := true, openIsTool := false, openPhase := phase, openIndex := e.nextIndex),
              requestId, ContentStart("", e.nextIndex, phase, TextStart), f, h);
    EmitKeeps(c, e.(nextIndex := e.nextIndex + 1, hasOpen := true, openIsTool := true, openIndex := e.nextIndex, openToolIndex := t.index),
              requestId, ContentStart("", e.nextIndex, Normal, ToolStart(t.id, t.name)), f, h);
  }

  lemma TextKeeps(c: C.Client, d: C.Client, requestId: string, phase: Phase, text: string, f: R.UsageField, h: Header)
    requires Keeps(c, d, f, h)
    ensures Keeps(c, C.AddText(d, requestId, phase, text), f, h)
  {
    hide Keeps, C.OpenText, C.Emit;
    OpenKeeps(c, d, requestId, phase, ToolCall(0, "", "", ""), f, h);
    var o := C.OpenText(d, requestId, phase);
    EmitKeeps(c, o, requestId, ContentDelta(o.openIndex, TextDelta(text)), f, h);
  }

  lemma CallKeeps(c: C.Client, d: C.Client, requestId: string, t: ToolCall, f: R.UsageField, h: Header)
    requires Keeps(c, d, f, h)
    ensures Keeps(c, C.AddCall(d, requestId, t), f, h)
  {
    hide Keeps, C.OpenTool, C.Emit;
    OpenKeeps(c, d, requestId, Normal, t, f, h);
    var o := C.OpenTool(d, requestId, t);
    EmitKeeps(c, o, requestId, ContentDelta(o.openIndex, ToolInputDelta(t.arguments)), f, h);
  }

  lemma {:induction false} CallsKeep(c: C.Client, d: C.Client, requestId: string, ts: seq<ToolCall>, f: R.UsageField, h: Header)
    requires Keeps(c, d, f, h)
    ensures Keeps(c, C.AddCalls(d, requestId, ts), f, h)
    decreases ts
  {
    hide Keeps, C.AddCall;
    if ts != [] {
      CallsKeep(c, d, requestId, ts[..|ts| - 1], f, h);
      CallKeeps(c, C.AddCalls(d, requestId, ts[..|ts| - 1]), requestId, ts[|ts| - 1], f, h);
    }
  }

  lemma MeantStatus(reason: string)
    ensures StatusFrom(reason) == Meant(reason)
  {
  }

  lemma ChoiceKeeps(c: C.Client, requestId: string, m: Choice, f: R.UsageField, h: Header)
    requires Says(c.emitted, f, h)
    ensures var r := C.AddChoice(c, requestId, m);
            Keeps(c.(status := if m.finishReason == "" then c.status else Meant(m.finishReason)), r, f, h)
  {
    hide Says, C.AddText, C.AddCalls, StatusFrom, Meant;
    var d := C.AddText(c, requestId, Reasoning, m.reasoning);
    TextKeeps(c, c, requestId, Reasoning, m.reasoning, f, h);
    TextKeeps(c, d, requestId, Normal, m.content, f, h);
    CallsKeep(c, C.AddText(d, requestId, Normal, m.content), requestId, m.toolCalls, f, h);
    MeantStatus(m.finishReason);
  }

  lemma EndSays(c: C.Client, requestId: string, usage: Option<Usage>, f: R.UsageField, h: Header)
    requires Says(c.emitted, f, h)
    ensures var r := C.End(c, requestId, usage);
            && Says(r.emitted, f, Header(h.start, c.status, if R.FieldOf(usage, f) != 0 then R.FieldOf(usage, f) else h.tokens))
            && r.status == c.status && r.messageStarted == c.messageStarted && r.stopEmitted
  {
    hide Says, C.CloseOpen;
    CloseKeeps(c, c, requestId, f, h);
    var d := C.CloseOpen(c, requestId);
    SaysMore(d.emitted, Event(requestId, usage, MessageStop(d.status)), f, h);
  }

  ghost predicate Tells(c: C.Client, f: R.UsageField, chunks: seq<Chunk>) {
    && Says(c.emitted, f, Header(StartHeard(chunks), Reported(chunks), TokensHeard(f, chunks)))
    && c.status == Finishing(chunks) && c.messageStarted == (chunks != []) && c.stopEmitted == Reporting(chunks)
  }

  lemma StepTells(c: C.Client, requestId: string, chunks: seq<Chunk>, f: R.UsageField)
    requires chunks != [] && Tells(c, f, chunks[..|chunks| - 1])
    ensures Tells(C.Step(c, requestId, chunks[|chunks| - 1]), f, chunks)
  {
    hide Says, Meant, C.AddChoice, C.End;
    var front, chunk := chunks[..|chunks| - 1], chunks[|chunks| - 1];
    var h := Header(StartHeard(front), Reported(front), TokensHeard(f, front));
    SaysMore(c.emitted, Event(requestId, None, MessageStart(chunk.id, chunk.model)), f, h);
    var b := C.Begin(c, requestId, chunk.id, chunk.model);
    var h' := h.(start := StartHeard(chunks));
    if chunk.choice.Some? {
      ChoiceKeeps(b, requestId, chunk.choice.value, f, h');
    }
    if chunk.usage == NO_USAGE {
      NothingCounted(f);
    } else {
      EndSays(if chunk.choice.Some? then C.AddChoice(b, requestId, chunk.choice.value) else b, requestId, Some(chunk.usage), f, h');
    }
  }

  lemma NothingCounted(f: R.UsageField)
    ensures R.FieldOf(Some(NO_USAGE), f) == 0
  {
  }

  lemma {:induction false} RunTells(requestId: string, chunks: seq<Chunk>, f: R.UsageField)
    ensures Tells(C.Run(requestId, chunks), f, chunks)
  {
    if chunks != [] {
      RunTells(requestId, chunks[..|chunks| - 1], f);
      hide Tells, C.Step;
      StepTells(C.Run(requestId, chunks[..|chunks| - 1]), requestId, chunks, f);
    }
  }

  /**
   Id and model are those of the first chunk; the status is what the finish reasons meant when usage was last reported, or
   at the end if it never was; counts are the last ones.
   */
  lemma DecodedHeader(requestId: string, chunks: seq<Chunk>, f: R.UsageField)
    ensures var r := R.Run(R.EMPTY, C.Decoded(requestId, chunks)).resp;
            && (R.MessageOf(r).id, r.model) == StartHeard(chunks)
            && r.status == (if Reporting(chunks) then Reported(chunks) else Finishing(chunks))
            && R.FieldOf(r.usage, f) == TokensHeard(f, chunks)
  {
    RunTells(requestId, chunks, f);
    EndSays(C.Run(requestId, chunks), requestId, None, f, Header(StartHeard(chunks), Reported(chunks), TokensHeard(f, chunks)));
    R.HeaderIsLast(C.Decoded(requestId, chunks));
    R.UsageIsLastReport(C.Decoded(requestId, chunks), f);
    hide C.Run, C.End, R.Run, R.LastReport, LastStart, LastStop, Meant;
  }
}
