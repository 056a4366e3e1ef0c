/**
 A message streamed as chat completion chunks and decoded again: what arrives is the normal form of what was sent.
 */
module ChatRoundTrip {
  import opened Basics
  import opened ChatTypes
  import opened ChatWire
  import opened ChatNormalForm
  import opened SequentialStreams
  import R = Reducers
  import C = ChatUpstream
  import S = ChatStreamServers

  // ----- The decoding client, as its consumer's reducer sees it -----

  function Reduction(c: C.Client): R.Reducer {
    R.Run(R.EMPTY, c.emitted)
  }

  /** A message of this id and model has begun and not ended, and its contents so far are out. */
  ghost predicate Pictures(c: C.Client, requestId: string, messageId: string, model: string, out: seq<Content>) {
    var r := Reduction(c);
    && c.messageStarted && !c.stopEmitted && c.nextIndex == |out|
    && r.resp == Response(requestId, model, Unspecified, Some(Message(messageId, out)), None)
    && (c.hasOpen <==> out != [])
    && (c.hasOpen ==>
          && c.openIndex == |out| - 1 && c.openIndex in r.slots && r.slots[c.openIndex] == |out| - 1
          && if c.openIsTool then out[|out| - 1].body.ToolUse? else out[|out| - 1].body.Text? && out[|out| - 1].phase == c.openPhase)
  }

  lemma EmitReduced(c: C.Client, requestId: string, p: Payload)
    requires Reduction(c).resp.id == requestId
    ensures Reduction(C.Emit(c, requestId, p)) == R.ReducedBy(Reduction(c), p)
  {
    R.RunAppend(R.EMPTY, c.emitted, Event(requestId, None, p));
    hide R.Run;
  }

  /** The part of the picture that closing a block leaves. */
  lemma ClosePictured(c: C.Client, requestId: string)
    requires Reduction(c).resp.id == requestId
    ensures var d := C.CloseOpen(c, requestId);
            && Reduction(d) == Reduction(c) && !d.hasOpen
            && d.nextIndex == c.nextIndex && d.messageStarted == c.messageStarted && d.stopEmitted == c.stopEmitted && d.status == c.status
  {
    EmitReduced(c, requestId, ContentStop(c.openIndex));
    hide R.Run;
  }

  /** A new block is a new content. */
  lemma BlockPictured(d: C.Client, requestId: string, messageId: string, model: string, out: seq<Content>, o: C.Client,
                      phase: Phase, kind: StartKind)
    requires d.messageStarted && !d.stopEmitted && !d.hasOpen && d.nextIndex == |out|
    requires Reduction(d).resp == Response(requestId, model, Unspecified, Some(Message(messageId, out)), None)
    requires o == d.(nextIndex := d.nextIndex + 1, hasOpen := true, openIndex := d.nextIndex, openIsTool := kind.ToolStart?,
                     openPhase := o.openPhase, openToolIndex := o.openToolIndex)
    requires !kind.NoStart? && (kind.TextStart? ==> o.openPhase == phase)
    ensures Pictures(C.Emit(o, requestId, ContentStart("", d.nextIndex, phase, kind)), requestId, messageId, model,
                     out + [Content("", Some(|out|), phase, "", R.StartedBody(kind))])
  {
    assert Reduction(o) == Reduction(d);
    EmitReduced(o, requestId, ContentStart("", d.nextIndex, phase, kind));
    hide R.Run, Reduction;
  }

  /** A delta for the open block is a delta for the last content. */
  lemma DeltaPictured(c: C.Client, requestId: string, messageId: string, model: string, out: seq<Content>, d: Delta)
    requires Pictures(c, requestId, messageId, model, out) && out != []
    ensures Pictures(C.Emit(c, requestId, ContentDelta(c.openIndex, d)), requestId, messageId, model,
                     out[|out| - 1 := R.ApplyDelta(out[|out| - 1], d)])
  {
    EmitReduced(c, requestId, ContentDelta(c.openIndex, d));
    hide R.Run, Reduction;
  }

  lemma TextPictured(c: C.Client, requestId: string, messageId: string, model: string, out: seq<Content>, phase: Phase, text: string)
    requires Pictures(c, requestId, messageId, model, out)
    ensures Pictures(C.AddText(c, requestId, phase, text), requestId, messageId, model, PushText(out, phase, text))
    ensures C.AddText(c, requestId, phase, text).status == c.status
  {
    if text != "" {
      if c.hasOpen && !c.openIsTool && c.openPhase == phase {
        DeltaPictured(c, requestId, messageId, model, out, TextDelta(text));
      } else {
        ClosePictured(c, requestId);
        var d := C.CloseOpen(c, requestId);
        var o := d.(nextIndex := d.nextIndex + 1, hasOpen := true, openIsTool := false, openPhase := phase, openIndex := d.nextIndex);
        BlockPictured(d, requestId, messageId, model, out, o, phase, TextStart);
        var more := out + [Content("", Some(|out|), phase, "", Text(""))];
        DeltaPictured(C.Emit(o, requestId, ContentStart("", d.nextIndex, phase, TextStart)), requestId, messageId, model, more, TextDelta(text));
        assert "" + text == text;
        assert more[|more| - 1 := R.ApplyDelta(more[|more| - 1], TextDelta(text))] == PushText(out, phase, text);
        hide Pictures, Reduction, C.CloseOpen;
      }
    }
  }

  /** A call of another index than the open one is a new content, without input yet. */
  lemma CallPictured(c: C.Client, requestId: string, messageId: string, model: string, out: seq<Content>, t: ToolCall)
    requires Pictures(c, requestId, messageId, model, out) && t.arguments == ""
    requires c.hasOpen && c.openIsTool ==> c.openToolIndex != t.index
    ensures var r := C.AddCall(c, requestId, t);
            && Pictures(r, requestId, messageId, model, PushCall(out, t.id, t.name, ""))
            && r.hasOpen && r.openIsTool && r.openToolIndex == t.index && r.status == c.status
  {
    hide Reduction, C.CloseOpen, C.Emit;
    ClosePictured(c, requestId);
    var d := C.CloseOpen(c, requestId);
    var o := d.(nextIndex := d.nextIndex + 1, hasOpen := true, openIsTool := true, openIndex := d.nextIndex, openToolIndex := t.index);
    BlockPictured(d, requestId, messageId, model, out, o, Normal, ToolStart(t.id, t.name));
    EmitKeeps(o, requestId, ContentStart("", d.nextIndex, Normal, ToolStart(t.id, t.name)));
  }

  lemma EmitKeeps(c: C.Client, requestId: string, p: Payload)
    ensures C.Emit(c, requestId, p) == c.(emitted := C.Emit(c, requestId, p).emitted)
  {
  }

  function PushInput(out: seq<Content>, text: string): seq<Content> {
    if out == [] || text == "" then out else out[|out| - 1 := R.ApplyDelta(out[|out| - 1], ToolInputDelta(text))]
  }

  /** A fragment of input for the open call. */
  lemma InputPictured(c: C.Client, requestId: string, messageId: string, model: string, out: seq<Content>, t: ToolCall)
    requires Pictures(c, requestId, messageId, model, out) && c.hasOpen && c.openIsTool && c.openToolIndex == t.index
    ensures var r := C.AddCall(c, requestId, t);
            && Pictures(r, requestId, messageId, model, PushInput(out, t.arguments))
            && r.hasOpen && r.openIsTool && r.openToolIndex == t.index && r.status == c.status
  {
    if t.arguments != "" {
      DeltaPictured(c, requestId, messageId, model, out, ToolInputDelta(t.arguments));
      hide Pictures;
    }
  }

  // ----- One chunk at a time -----

  function Decoding(requestId: string, s: S.Server): C.Client {
    C.Run(requestId, s.written)
  }

  /** The decoding client is abreast of the server, and has not seen the ordinals to come. */
  ghost predicate Abreast(s: S.Server, requestId: string, messageId: string, model: string, out: seq<Content>) {
    var c := Decoding(requestId, s);
    && Pictures(c, requestId, messageId, model, out) && c.status == Unspecified
    && (c.hasOpen && c.openIsTool ==> c.openToolIndex < s.toolCount)
    && !s.usageSent
  }

  lemma WriteDecoded(s: S.Server, requestId: string, choice: Choice)
    ensures Decoding(requestId, S.Write(s, choice))
         == C.Step(Decoding(requestId, s), requestId, Chunk(s.id, s.model, Some(choice), NO_USAGE))
  {
    var w := S.Write(s, choice).written;
    assert w[..|w| - 1] == s.written;
  }

  lemma StepText(c: C.Client, requestId: string, id: string, model: string, phase: Phase, text: string)
    requires c.messageStarted && phase == NormalPhase(phase)
    ensures C.Step(c, requestId, Chunk(id, model, Some(if phase.Reasoning? then Choice("", text, [], "") else Choice(text, "", [], "")), NO_USAGE))
         == C.AddText(c, requestId, phase, text)
  {
    hide C.OpenText;
  }

  lemma StepCall(c: C.Client, requestId: string, id: string, model: string, t: ToolCall)
    requires c.messageStarted
    ensures C.Step(c, requestId, Chunk(id, model, Some(Choice("", "", [t], "")), NO_USAGE)) == C.AddCall(c, requestId, t)
  {
    assert C.AddCalls(c, requestId, [t][..0]) == c;
    assert C.AddCalls(c, requestId, [t]) == C.AddCall(c, requestId, t);
    hide C.AddCall, C.AddCalls;
  }

  lemma TextAbreast(s: S.Server, requestId: string, messageId: string, model: string, out: seq<Content>, phase: Phase, text: string)
    requires Abreast(s, requestId, messageId, model, out) && phase == NormalPhase(phase)
    ensures Abreast(S.Write(s, if phase.Reasoning? then Choice("", text, [], "") else Choice(text, "", [], "")),
                    requestId, messageId, model, PushText(out, phase, text))
  {
    var c := Decoding(requestId, s);
    hide Pictures, Decoding, C.Step, C.AddText;
    PicturesStarted(c, requestId, messageId, model, out);
    WriteDecoded(s, requestId, if phase.Reasoning? then Choice("", text, [], "") else Choice(text, "", [], ""));
    StepText(c, requestId, s.id, s.model, phase, text);
    TextPictured(c, requestId, messageId, model, out, phase, text);
    TextKeepsTool(c, requestId, phase, text);
  }

  lemma PicturesStarted(c: C.Client, requestId: string, messageId: string, model: string, out: seq<Content>)
    requires Pictures(c, requestId, messageId, model, out)
    ensures c.messageStarted && !c.stopEmitted && (c.hasOpen <==> out != [])
    ensures Reduction(c).resp == Response(requestId, model, Unspecified, Some(Message(messageId, out)), None)
  {
  }

  lemma TextKeepsTool(c: C.Client, requestId: string, phase: Phase, text: string)
    ensures var r := C.AddText(c, requestId, phase, text); r.hasOpen && r.openIsTool ==> c.hasOpen && c.openIsTool && r.openToolIndex == c.openToolIndex
  {
  }

  lemma CallAbreast(s: S.Server, requestId: string, messageId: string, model: string, out: seq<Content>, index: nat, phase: Phase, callId: string, name: string)
    requires Abreast(s, requestId, messageId, model, out)
    ensures var r := S.OnStart(s, index, phase, ToolStart(callId, name));
            && Abreast(r, requestId, messageId, model, PushCall(out, callId, name, ""))
            && CallOpen(r, requestId, s.toolCount)
            && S.BlockAt(r, index) == S.BlockState(false, s.toolCount)
  {
    var s' := s.(toolCount := s.toolCount + 1, blocks := s.blocks[index := S.BlockState(false, s.toolCount)]);
    var c := Decoding(requestId, s);
    assert Decoding(requestId, s') == c;
    hide Pictures, Decoding, C.Step, C.AddCall, PushCall;
    var t := ToolCall(s.toolCount, callId, name, "");
    PicturesStarted(c, requestId, messageId, model, out);
    WriteDecoded(s', requestId, Choice("", "", [t], ""));
    StepCall(c, requestId, s.id, s.model, t);
    CallPictured(c, requestId, messageId, model, out, t);
  }

  /** The call of this ordinal is open in the decoding client. */
  ghost predicate CallOpen(s: S.Server, requestId: string, ordinal: nat) {
    var c := Decoding(requestId, s);
    c.hasOpen && c.openIsTool && c.openToolIndex == ordinal
  }

  lemma InputAbreast(s: S.Server, requestId: string, messageId: string, model: string, out: seq<Content>, ordinal: nat, text: string)
    requires Abreast(s, requestId, messageId, model, out) && CallOpen(s, requestId, ordinal)
    ensures var r := S.Write(s, Choice("", "", [ToolCall(ordinal, "", "", text)], ""));
            Abreast(r, requestId, messageId, model, PushInput(out, text)) && CallOpen(r, requestId, ordinal)
  {
    var c := Decoding(requestId, s);
    hide Pictures, Decoding, C.Step, C.AddCall, PushInput;
    var t := ToolCall(ordinal, "", "", text);
    PicturesStarted(c, requestId, messageId, model, out);
    WriteDecoded(s, requestId, Choice("", "", [t], ""));
    StepCall(c, requestId, s.id, s.model, t);
    InputPictured(c, requestId, messageId, model, out, t);
  }

  // ----- One content at a time -----

  function Play(s: S.Server, ps: seq<Payload>): S.Server
    decreases ps
  {
    if ps == [] then s else Play(S.Handle(s, ps[0]), ps[1..])
  }

  lemma {:induction false} PlayAppend(s: S.Server, ps: seq<Payload>, qs: seq<Payload>)
    ensures Play(s, ps + qs) == Play(Play(s, ps), qs)
    decreases ps
  {
    if ps == [] {
      assert ps + qs == qs;
    } else {
      assert (ps + qs)[1..] == ps[1..] + qs;
      hide S.Handle;
      PlayAppend(S.Handle(s, ps[0]), ps[1..], qs);
    }
  }

  lemma PlayOne(s: S.Server, ps: seq<Payload>, p: Payload)
    ensures Play(s, ps + [p]) == S.Handle(Play(s, ps), p)
  {
    PlayAppend(s, ps, [p]);
    hide S.Handle;
    assert [p][1..] == [];
  }

  lemma PlayFirst(s: S.Server, p: Payload, ps: seq<Payload>)
    ensures Play(s, [p] + ps) == Play(S.Handle(s, p), ps)
  {
    assert ([p] + ps)[1..] == ps;
  }

  lemma {:induction false} TextDeltasAbreast(s: S.Server, requestId: string, messageId: string, model: string, out: seq<Content>,
                                             index: nat, phase: Phase, ds: seq<Delta>)
    requires Abreast(s, requestId, messageId, model, out) && phase == NormalPhase(phase)
    requires S.BlockAt(s, index).isReasoning == phase.Reasoning? && forall k | 0 <= k < |ds| :: !ds[k].ToolInputDelta?
    ensures Abreast(Play(s, DeltaPayloads(index, ds)), requestId, messageId, model, PushText(out, phase, Said(ds)))
    decreases ds
  {
    if ds != [] {
      var d, rest := ds[0], ds[1..];
      var text := if d.SignatureDelta? then "" else d.text;
      var r := S.Handle(s, ContentDelta(index, d));
      assert DeltaPayloads(index, ds) == [ContentDelta(index, d)] + DeltaPayloads(index, rest) && Said(ds) == text + Said(rest);
      assert d.SignatureDelta? ==> r == s;
      assert !d.SignatureDelta? ==> r == S.Write(s, if phase.Reasoning? then Choice("", text, [], "") else Choice(text, "", [], ""));
      assert S.BlockAt(r, index) == S.BlockAt(s, index);
      hide Abreast, S.Handle, S.Write, PushText, Said, DeltaPayloads, Play;
      PlayFirst(s, ContentDelta(index, d), DeltaPayloads(index, rest));
      if d.SignatureDelta? {
        EmptyPushed(out, phase);
      } else {
        TextAbreast(s, requestId, messageId, model, out, phase, text);
      }
      TextDeltasAbreast(r, requestId, messageId, model, PushText(out, phase, text), index, phase, rest);
      PushTwice(out, phase, text, Said(rest));
    }
  }

  lemma EmptyPushed(out: seq<Content>, phase: Phase)
    ensures PushText(out, phase, "") == out
  {
  }

  lemma InputPushed(out: seq<Content>, callId: string, name: string, s: string, t: string)
    ensures PushInput(PushCall(out, callId, name, s), t) == PushCall(out, callId, name, s + t)
  {
    var whole := PushCall(out, callId, name, s);
    if t == "" {
      assert s + t == s;
    } else if s == "" {
      assert s + t == t;
    } else {
      assert [s][0 := s + t] == [s + t];
    }
  }

  lemma {:induction false} InputDeltasAbreast(s: S.Server, requestId: string, messageId: string, model: string, out: seq<Content>,
                                              index: nat, ordinal: nat, callId: string, name: string, input: string, ds: seq<Delta>)
    requires Abreast(s, requestId, messageId, model, PushCall(out, callId, name, input)) && CallOpen(s, requestId, ordinal)
    requires S.BlockAt(s, index).toolOrdinal == ordinal && forall k | 0 <= k < |ds| :: !ds[k].TextDelta?
    ensures Abreast(Play(s, DeltaPayloads(index, ds)), requestId, messageId, model, PushCall(out, callId, name, input + Said(ds)))
    decreases ds
  {
    if ds == [] {
      assert input + "" == input;
    } else {
      var d, rest := ds[0], ds[1..];
      var text := if d.SignatureDelta? then "" else d.text;
      var r := S.Handle(s, ContentDelta(index, d));
      assert DeltaPayloads(index, ds) == [ContentDelta(index, d)] + DeltaPayloads(index, rest) && Said(ds) == text + Said(rest);
      assert d.SignatureDelta? ==> r == s;
      assert !d.SignatureDelta? ==> r == S.Write(s, Choice("", "", [ToolCall(ordinal, "", "", text)], ""));
      assert S.BlockAt(r, index) == S.BlockAt(s, index);
      hide Abreast, CallOpen, S.Handle, S.Write, PushCall, Said, DeltaPayloads, Play, PushInput;
      PlayFirst(s, ContentDelta(index, d), DeltaPayloads(index, rest));
      if d.SignatureDelta? {
        assert input + "" == input;
      } else {
        InputAbreast(s, requestId, messageId, model, PushCall(out, callId, name, input), ordinal, text);
        InputPushed(out, callId, name, input, text);
      }
      InputDeltasAbreast(r, requestId, messageId, model, out, index, ordinal, callId, name, input + text, rest);
      AppendAssociates(input, text, Said(rest));
    }
  }

  /** Deltas are of the kind of their content, and contents of no kind have none. */
  predicate Kindred(p: Part) {
    Matching(p) && (p.Streamed? && p.kind.NoStart? ==> forall k | 0 <= k < |p.deltas| :: p.deltas[k].SignatureDelta?)
  }

  lemma {:induction false} SignaturesIgnored(s: S.Server, index: nat, ds: seq<Delta>)
    requires forall k | 0 <= k < |ds| :: ds[k].SignatureDelta?
    ensures Play(s, DeltaPayloads(index, ds)) == s
    decreases ds
  {
    if ds != [] {
      assert DeltaPayloads(index, ds)[1..] == DeltaPayloads(index, ds[1..]);
      SignaturesIgnored(s, index, ds[1..]);
    }
  }

  lemma StopAbreast(s: S.Server, requestId: string, messageId: string, model: string, out: seq<Content>, index: nat)
    requires Abreast(s, requestId, messageId, model, out)
    ensures Abreast(S.Handle(s, ContentStop(index)), requestId, messageId, model, out)
  {
  }

  lemma PlayStreamed(s: S.Server, index: nat, id: string, phase: Phase, kind: StartKind, ds: seq<Delta>)
    ensures Play(s, Script(Streamed(index, id, phase, kind, ds)))
         == S.Handle(Play(S.OnStart(s, index, phase, kind), DeltaPayloads(index, ds)), ContentStop(index))
  {
    var start := ContentStart(id, index, phase, kind);
    assert S.Handle(s, start) == S.OnStart(s, index, phase, kind);
    hide Play, S.OnStart, S.Handle;
    PlayOne(s, [start] + DeltaPayloads(index, ds), ContentStop(index));
    PlayFirst(s, start, DeltaPayloads(index, ds));
  }

  lemma ScriptAbreast(s: S.Server, requestId: string, messageId: string, model: string, out: seq<Content>, p: Part)
    requires Abreast(s, requestId, messageId, model, out) && Kindred(p)
    ensures Abreast(Play(s, Script(p)), requestId, messageId, model, Push(out, ContentOf(p)))
  {
    match p
    case Snapshot(c) =>
      hide Abreast;
      PlayFirst(s, ContentSnapshot(c), []);
    case Streamed(index, id, phase, kind, ds) =>
      hide Abreast, Play, S.OnStart, S.Handle, Script, ContentOf;
      PlayStreamed(s, index, id, phase, kind, ds);
      StreamedAbreast(s, requestId, messageId, model, out, index, id, phase, kind, ds);
      StopAbreast(Play(S.OnStart(s, index, phase, kind), DeltaPayloads(index, ds)), requestId, messageId, model, Push(out, ContentOf(p)), index);
  }

  lemma StreamedAbreast(s: S.Server, requestId: string, messageId: string, model: string, out: seq<Content>,
                        index: nat, id: string, phase: Phase, kind: StartKind, ds: seq<Delta>)
    requires Abreast(s, requestId, messageId, model, out) && Kindred(Streamed(index, id, phase, kind, ds))
    ensures Abreast(Play(S.OnStart(s, index, phase, kind), DeltaPayloads(index, ds)), requestId, messageId, model,
                    Push(out, ContentOf(Streamed(index, id, phase, kind, ds))))
  {
    match kind
    case TextStart =>
      OpenedAbreast(s, requestId, messageId, model, out, index, phase);
      hide Abreast, Play, S.OnStart, ContentOf;
      TextBody(index, id, phase, ds);
      TextDeltasAbreast(S.OnStart(s, index, phase, kind), requestId, messageId, model, out, index, NormalPhase(phase), ds);
    case ToolStart(callId, name) =>
      hide Abreast, CallOpen, Play, S.OnStart, ContentOf, PushCall;
      ToolBody(index, id, phase, callId, name, ds);
      CallAbreast(s, requestId, messageId, model, out, index, phase, callId, name);
      InputDeltasAbreast(S.OnStart(s, index, phase, kind), requestId, messageId, model, out, index, s.toolCount, callId, name, "", ds);
      assert "" + Said(ds) == Said(ds);
    case NoStart =>
      OpenedAbreast(s, requestId, messageId, model, out, index, phase);
      SignaturesIgnored(S.OnStart(s, index, phase, kind), index, ds);
      hide Abreast, Play, S.OnStart;
  }

  lemma OpenedAbreast(s: S.Server, requestId: string, messageId: string, model: string, out: seq<Content>, index: nat, phase: Phase)
    requires Abreast(s, requestId, messageId, model, out)
    ensures forall kind: StartKind | !kind.ToolStart? ::
              var r := S.OnStart(s, index, phase, kind);
              Abreast(r, requestId, messageId, model, out) && S.BlockAt(r, index).isReasoning == NormalPhase(phase).Reasoning?
  {
  }

  lemma {:induction false} ScriptsAbreast(s: S.Server, requestId: string, messageId: string, model: string, bs: seq<Part>)
    requires Abreast(s, requestId, messageId, model, []) && forall k | 0 <= k < |bs| :: Kindred(bs[k])
    ensures Abreast(Play(s, Scripts(bs)), requestId, messageId, model, Normalized(ContentsOf(bs)))
  {
    if bs != [] {
      var front, b := bs[..|bs| - 1], bs[|bs| - 1];
      assert front + [b] == bs;
      hide Abreast, Play, Push, Script, ContentOf, Normalized;
      ScriptsAbreast(s, requestId, messageId, model, front);
      ScriptsSplit(front, b);
      PlayAppend(s, Scripts(front), Script(b));
      ScriptAbreast(Play(s, Scripts(front)), requestId, messageId, model, Normalized(ContentsOf(front)), b);
      NormalizedMore(ContentsOf(front), ContentOf(b));
    }
  }

  // ----- The whole message -----

  lemma Opening(requestId: string, messageId: string, model: string)
    ensures Abreast(S.Handle(S.START, MessageStart(messageId, model)), requestId, messageId, model, [])
  {
    var s := S.Handle(S.START, MessageStart(messageId, model));
    var chunk := Chunk(messageId, model, Some(Choice("", "", [], "")), NO_USAGE);
    assert s.written == [chunk] && [chunk][..0] == [];
    assert C.Run(requestId, [chunk][..0]) == C.START;
    var c := C.Begin(C.START, requestId, messageId, model);
    assert C.Run(requestId, [chunk]) == C.Step(C.START, requestId, chunk) == c;
    var e := Event(requestId, None, MessageStart(messageId, model));
    assert c.emitted == [] + [e];
    R.RunAppend(R.EMPTY, [], e);
    assert R.Run(R.EMPTY, []) == R.EMPTY;
  }

  /** The status that a finish reason carries over. */
  function Arriving(s: Status): Status {
    if s.Completed? || s.Refused? || s.ReachedTokenLimit? || s.PendingToolUse? then s else Unspecified
  }

  function ArrivingUsage(u: Option<Usage>): Option<Usage> {
    if u == Some(NO_USAGE) then None else u
  }

  lemma EndReduced(c: C.Client, requestId: string, messageId: string, model: string, out: seq<Content>, status: Status, usage: Option<Usage>)
    requires Pictures(c.(status := Unspecified), requestId, messageId, model, out) && c.status == status
    ensures R.Run(R.EMPTY, C.End(c, requestId, usage).emitted).resp
         == Response(requestId, model, status, Some(Message(messageId, out)), MergeUsage(None, usage))
  {
    assert Reduction(c.(status := Unspecified)) == Reduction(c);
    ClosePictured(c, requestId);
    var d := C.CloseOpen(c, requestId);
    R.RunAppend(R.EMPTY, d.emitted, Event(requestId, usage, MessageStop(status)));
    hide R.Run, C.CloseOpen;
  }

  /** The chunk that carries the finish reason. */
  lemma FinishDecoded(c: C.Client, requestId: string, id: string, model: string, status: Status)
    requires c.messageStarted && c.status == Unspecified
    ensures C.Step(c, requestId, Chunk(id, model, Some(Choice("", "", [], FinishReasonOf(status))), NO_USAGE)) == c.(status := Arriving(status))
  {
  }

  lemma UsageDecoded(c: C.Client, requestId: string, id: string, model: string, u: Usage)
    requires c.messageStarted
    ensures C.Step(c, requestId, Chunk(id, model, None, u)) == if u == NO_USAGE then c else C.End(c, requestId, Some(u))
  {
  }

  lemma Closing(s: S.Server, requestId: string, messageId: string, model: string, out: seq<Content>, status: Status)
    requires Abreast(s, requestId, messageId, model, out)
    ensures R.Run(R.EMPTY, C.Decoded(requestId, S.Handle(s, MessageStop(status)).written)).resp
         == Response(requestId, model, Arriving(status), Some(Message(messageId, out)), MergeUsage(None, ArrivingUsage(s.usage)))
  {
    var c := Decoding(requestId, s);
    var choice := Choice("", "", [], FinishReasonOf(status));
    var w := S.Write(s.(status := status), choice);
    var f := S.WriteUsage(w);
    assert Decoding(requestId, s.(status := status)) == c;
    PicturesStarted(c, requestId, messageId, model, out);
    var d := c.(status := Arriving(status));
    assert d.(status := Unspecified) == c;
    hide Pictures, C.Step, R.Run, Arriving;
    WriteDecoded(s.(status := status), requestId, choice);
    FinishDecoded(c, requestId, s.id, s.model, status);
    assert Decoding(requestId, w) == d;
    if s.usage.Some? {
      assert f.written[..|f.written| - 1] == w.written;
      UsageDecoded(d, requestId, s.id, s.model, s.usage.value);
    }
    EndReduced(d, requestId, messageId, model, out, Arriving(status), ArrivingUsage(s.usage));
  }

  lemma UsageApart(s: S.Server, usage: Option<Usage>, p: Payload)
    requires !p.MessageStop?
    ensures S.Handle(s.(usage := usage), p) == S.Handle(s, p).(usage := usage)
  {
  }

  lemma {:induction false} RunPlays(es: seq<Event>)
    requires forall k | 0 <= k < |Payloads(es)| :: !Payloads(es)[k].MessageStop?
    ensures S.Run(es) == Play(S.START, Payloads(es)).(usage := Reported(es))
  {
    if es != [] {
      var front, e := es[..|es| - 1], es[|es| - 1];
      assert front + [e] == es;
      PayloadsAppend(front, e);
      var ps := Payloads(front);
      assert forall k | 0 <= k < |ps| :: ps[k] == Payloads(es)[k];
      assert !e.payload.NoPayload? ==> e.payload == Payloads(es)[|ps|];
      hide Payloads, Play, MergeUsage;
      RunPlays(front);
      if e.payload.NoPayload? {
        assert ps + [] == ps;
      } else {
        UsageApart(Play(S.START, ps), Reported(es), e.payload);
        hide S.Handle;
        PlayOne(S.START, ps, e.payload);
      }
    }
  }

  /**
   The chat completion round trip: decoding what the stream server writes for a sequential stream, and reducing that, gives
   the reduced response with its contents in normal form. The four statuses that have a finish reason come back; usage that
   is all zeros does not.
   */
  lemma ChatRoundTrips(es: seq<Event>, sender: string, messageId: string, model: string, bs: seq<Part>, status: Status, requestId: string)
    requires Sequential(es, sender, messageId, model, bs, status) && forall k | 0 <= k < |bs| :: Kindred(bs[k])
    ensures var sent, received := R.Run(R.EMPTY, es).resp, R.Run(R.EMPTY, C.Decoded(requestId, S.Run(es).written)).resp;
            received == Response(requestId, model, Arriving(sent.status), Some(Message(messageId, Normalized(Contents(sent)))),
                                 MergeUsage(None, ArrivingUsage(sent.usage)))
  {
    var n := |es| - 1;
    var front, stop := es[..n], es[n];
    var ps := [MessageStart(messageId, model)] + Scripts(bs);
    assert front + [stop] == es;
    PayloadsAppend(front, stop);
    assert Payloads(front) == ps by {
      assert Payloads(es)[..|ps|] == Payloads(front)[..|ps|];
    }
    ScriptsInside(bs);
    var s := S.Handle(S.START, MessageStart(messageId, model));
    hide R.Run, Abreast, Play, Payloads, Normalized, C.Decoded, Arriving, Scripts;
    ReducedSequential(es, sender, messageId, model, bs, status);
    RunPlays(front);
    Opening(requestId, messageId, model);
    PlayFirst(S.START, MessageStart(messageId, model), Scripts(bs));
    ScriptsAbreast(s, requestId, messageId, model, bs);
    var last := Play(s, Scripts(bs)).(usage := Reported(es));
    AbreastAnyUsage(Play(s, Scripts(bs)), requestId, messageId, model, Normalized(ContentsOf(bs)), Reported(es));
    Closing(last, requestId, messageId, model, Normalized(ContentsOf(bs)), status);
    RunOne(es, front, stop);
  }

  lemma AbreastAnyUsage(s: S.Server, requestId: string, messageId: string, model: string, out: seq<Content>, usage: Option<Usage>)
    requires Abreast(s, requestId, messageId, model, out)
    ensures Abreast(s.(usage := usage), requestId, messageId, model, out)
  {
  }

  lemma RunOne(es: seq<Event>, front: seq<Event>, e: Event)
    requires es != [] && front == es[..|es| - 1] && e == es[|es| - 1]
    ensures S.Run(es) == S.Handle(S.Run(front).(usage := MergeUsage(S.Run(front).usage, e.usage)), e.payload)
  {
  }
}
