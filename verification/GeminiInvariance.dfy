/**
 How Gemini's answers are cut into chunks does not matter: the streamed contents are the coalesced contents of all parts,
 except where a chunk with a finish reason cuts a text in two.
 */
module GeminiInvariance {
  import opened Basics
  import opened ChatTypes
  import opened GeminiUpstream
  import R = Reducers
  import SS = SequentialStreams

  /** What a stream comes down to: its parts, and the breaks that finish reasons make. */
  datatype Piece = Heard(part: Part) | Break

  function HeardParts(ps: seq<Part>): (r: seq<Piece>)
    ensures |r| == |ps|
  {
    if ps == [] then [] else HeardParts(ps[..|ps| - 1]) + [Heard(ps[|ps| - 1])]
  }

  function PiecesOf(a: Answer): seq<Piece> {
    if a.NoContent? then [] else HeardParts(a.parts) + if a.finishReason == "" then [] else [Break]
  }

  function Pieces(answers: seq<Answer>): seq<Piece> {
    if answers == [] then [] else Pieces(answers[..|answers| - 1]) + PiecesOf(answers[|answers| - 1])
  }

  /** Contents under construction; `open` if the last one is a text that may grow. */
  datatype Out = Out(contents: seq<Content>, open: bool)

  function Grow(c: Content, d: Content): Content
    requires c.body.Text? && d.body.Text?
  {
    c.(body := Text(c.body.text + d.body.text), signature := c.signature + d.signature)
  }

  predicate Continues(o: Out, c: Content) {
    o.open && o.contents != [] && o.contents[|o.contents| - 1].body.Text? && c.body.Text? && o.contents[|o.contents| - 1].phase == c.phase
  }

  function PushContent(o: Out, c: Content): Out {
    var n := |o.contents|;
    if Continues(o, c) then o.(contents := o.contents[n - 1 := Grow(o.contents[n - 1], c)])
    else Out(o.contents + [c.(index := Some(n))], c.body.Text?)
  }

  function PushPiece(o: Out, p: Piece): Out {
    match p
    case Break => o.(open := false)
    case Heard(part) => var c := ContentOf(part); if c.Some? then PushContent(o, c.value) else o
  }

  function PushAll(ps: seq<Piece>): Out {
    if ps == [] then Out([], false) else PushPiece(PushAll(ps[..|ps| - 1]), ps[|ps| - 1])
  }

  // ----- The client, as its consumer's reducer sees it -----

  function Reduction(c: Client): R.Reducer {
    R.Run(R.EMPTY, c.emitted)
  }

  ghost predicate Pictures(c: Client, requestId: string, messageId: string, model: string, o: Out) {
    var r, n := Reduction(c), |o.contents|;
    && c.messageStarted && c.nextIndex == n && c.hasOpen == o.open
    && r.resp.id == requestId && r.resp.model == model && r.resp.message == Some(Message(messageId, o.contents))
    && (c.hasOpen ==>
          && n > 0 && c.openIndex == n - 1 && c.openIndex in r.slots && r.slots[c.openIndex] == n - 1
          && o.contents[n - 1].body.Text? && o.contents[n - 1].phase == c.openPhase)
  }

  lemma EmitReduced(c: Client, requestId: string, p: Payload)
    requires Reduction(c).resp.id == requestId
    ensures Reduction(Emit(c, requestId, p)) == R.ReducedBy(Reduction(c), p)
  {
    R.RunAppend(R.EMPTY, c.emitted, Event(requestId, None, p));
    hide R.Run;
  }

  lemma ClosePictured(c: Client, requestId: string, messageId: string, model: string, o: Out)
    requires Pictures(c, requestId, messageId, model, o)
    ensures Pictures(CloseOpen(c, requestId), requestId, messageId, model, o.(open := false))
    ensures CloseOpen(c, requestId).nextIndex == c.nextIndex && CloseOpen(c, requestId).lastUsage == c.lastUsage
  {
    EmitReduced(c, requestId, ContentStop(c.openIndex));
    hide R.Run, Reduction;
  }

  /** The block of this index writes to the last of the contents. */
  ghost predicate Writes(c: Client, requestId: string, messageId: string, model: string, contents: seq<Content>, index: nat) {
    var r := Reduction(c);
    && r.resp.id == requestId && r.resp.model == model && r.resp.message == Some(Message(messageId, contents))
    && contents != [] && index in r.slots && r.slots[index] == |contents| - 1
  }

  lemma BlockWrites(c: Client, requestId: string, messageId: string, model: string, o: Out, d: Client, phase: Phase, kind: StartKind)
    requires Pictures(c, requestId, messageId, model, o) && d.emitted == c.emitted
    ensures Writes(Emit(d, requestId, ContentStart("", c.nextIndex, phase, kind)), requestId, messageId, model,
                   o.contents + [Content("", Some(|o.contents|), phase, "", R.StartedBody(kind))], c.nextIndex)
  {
    assert Reduction(d) == Reduction(c);
    EmitReduced(d, requestId, ContentStart("", c.nextIndex, phase, kind));
    hide R.Run, Reduction;
  }

  lemma DeltaWrites(c: Client, requestId: string, messageId: string, model: string, contents: seq<Content>, index: nat, d: Delta)
    requires Writes(c, requestId, messageId, model, contents, index)
    ensures Writes(Emit(c, requestId, ContentDelta(index, d)), requestId, messageId, model,
                   contents[|contents| - 1 := R.ApplyDelta(contents[|contents| - 1], d)], index)
  {
    EmitReduced(c, requestId, ContentDelta(index, d));
    hide R.Run, Reduction;
  }

  function Signed(c: Content, signature: string): Content {
    c.(signature := c.signature + signature)
  }

  lemma SignWrites(c: Client, requestId: string, messageId: string, model: string, contents: seq<Content>, index: nat, signature: string)
    requires Writes(c, requestId, messageId, model, contents, index)
    ensures Writes(Sign(c, requestId, index, signature), requestId, messageId, model,
                   contents[|contents| - 1 := Signed(contents[|contents| - 1], signature)], index)
  {
    var last := contents[|contents| - 1];
    if signature == "" {
      assert last.signature + "" == last.signature;
      assert contents[|contents| - 1 := last] == contents;
    } else {
      hide Writes;
      DeltaWrites(c, requestId, messageId, model, contents, index, SignatureDelta(signature));
    }
  }

  /** The text and signature of a part go to the last content. */
  lemma TextWrites(c: Client, requestId: string, messageId: string, model: string, contents: seq<Content>, index: nat, p: Part)
    requires contents != [] && Writes(c, requestId, messageId, model, contents, index) && contents[|contents| - 1].body.Text? && p.text != ""
    ensures var n := |contents| - 1;
            Writes(Sign(Emit(c, requestId, ContentDelta(index, TextDelta(p.text))), requestId, index, p.signature),
                   requestId, messageId, model, contents[n := Grow(contents[n], ContentOf(p).value)], index)
  {
    var n := |contents| - 1;
    hide Writes;
    DeltaWrites(c, requestId, messageId, model, contents, index, TextDelta(p.text));
    var t := contents[n := R.ApplyDelta(contents[n], TextDelta(p.text))];
    SignWrites(Emit(c, requestId, ContentDelta(index, TextDelta(p.text))), requestId, messageId, model, t, index, p.signature);
    assert t[n := Signed(t[n], p.signature)] == contents[n := Grow(contents[n], ContentOf(p).value)];
  }

  lemma WritesPictured(c: Client, requestId: string, messageId: string, model: string, o: Out)
    requires c.messageStarted && c.nextIndex == |o.contents| && c.hasOpen == o.open
    requires o.contents != [] && Writes(c, requestId, messageId, model, o.contents, |o.contents| - 1)
    requires o.open ==> c.openIndex == |o.contents| - 1 && o.contents[|o.contents| - 1].body.Text? && o.contents[|o.contents| - 1].phase == c.openPhase
    ensures Pictures(c, requestId, messageId, model, o)
  {
  }

  lemma PicturesWrites(c: Client, requestId: string, messageId: string, model: string, o: Out)
    requires Pictures(c, requestId, messageId, model, o)
    ensures c.messageStarted && c.nextIndex == |o.contents| && c.hasOpen == o.open && Reduction(c).resp.id == requestId
    ensures o.open ==> o.contents != [] && Writes(c, requestId, messageId, model, o.contents, c.openIndex) && c.openIndex == |o.contents| - 1
                       && o.contents[|o.contents| - 1].body.Text? && o.contents[|o.contents| - 1].phase == c.openPhase
  {
  }

  lemma TextPictured(c: Client, requestId: string, messageId: string, model: string, o: Out, p: Part)
    requires Pictures(c, requestId, messageId, model, o) && p.text != ""
    ensures Pictures(AddText(c, requestId, p), requestId, messageId, model, PushContent(o, ContentOf(p).value))
    ensures AddText(c, requestId, p).lastUsage == c.lastUsage
  {
    var phase, n := PhaseOf(p), |o.contents|;
    hide Pictures, Writes, Reduction, R.Run;
    PicturesWrites(c, requestId, messageId, model, o);
    if c.hasOpen && c.openPhase == phase {
      TextWrites(c, requestId, messageId, model, o.contents, c.openIndex, p);
    } else {
      ClosePictured(c, requestId, messageId, model, o);
      var d := CloseOpen(c, requestId);
      PicturesWrites(d, requestId, messageId, model, o.(open := false));
      var e := d.(nextIndex := d.nextIndex + 1, hasOpen := true, openPhase := phase, openIndex := d.nextIndex);
      BlockWrites(d, requestId, messageId, model, o.(open := false), e, phase, TextStart);
      var more := o.contents + [Content("", Some(n), phase, "", Text(""))];
      TextWrites(Emit(e, requestId, ContentStart("", n, phase, TextStart)), requestId, messageId, model, more, n, p);
      assert "" + p.text == p.text && "" + p.signature == p.signature;
      assert more[n := Grow(more[n], ContentOf(p).value)] == o.contents + [ContentOf(p).value.(index := Some(n))];
      hide CloseOpen;
    }
    WritesPictured(AddText(c, requestId, p), requestId, messageId, model, PushContent(o, ContentOf(p).value));
  }

  lemma CallPictured(c: Client, requestId: string, messageId: string, model: string, o: Out, p: Part)
    requires Pictures(c, requestId, messageId, model, o) && p.text == "" && p.call.Some? && p.call.value.arguments.Some?
    ensures var r := AddCall(c, requestId, p.call.value, p.call.value.arguments.value, p.signature);
            Pictures(r, requestId, messageId, model, PushContent(o, ContentOf(p).value)) && r.lastUsage == c.lastUsage
  {
    var call, arguments, n := p.call.value, p.call.value.arguments.value, |o.contents|;
    hide Pictures, Writes, Reduction, R.Run, CloseOpen;
    PicturesWrites(c, requestId, messageId, model, o);
    ClosePictured(c, requestId, messageId, model, o);
    var d := CloseOpen(c, requestId);
    PicturesWrites(d, requestId, messageId, model, o.(open := false));
    var e := d.(nextIndex := n + 1);
    BlockWrites(d, requestId, messageId, model, o.(open := false), e, Normal, ToolStart(call.id, call.name));
    var more := o.contents + [Content("", Some(n), Normal, "", ToolUse(call.id, call.name, []))];
    var f := Emit(e, requestId, ContentStart("", n, Normal, ToolStart(call.id, call.name)));
    DeltaWrites(f, requestId, messageId, model, more, n, ToolInputDelta(arguments));
    var g := Emit(f, requestId, ContentDelta(n, ToolInputDelta(arguments)));
    var more' := more[n := R.ApplyDelta(more[n], ToolInputDelta(arguments))];
    SignWrites(g, requestId, messageId, model, more', n, p.signature);
    assert "" + p.signature == p.signature;
    assert more'[n := Signed(more'[n], p.signature)] == o.contents + [ContentOf(p).value.(index := Some(n))];
    StopWrites(Sign(g, requestId, n, p.signature), requestId, messageId, model, o.contents + [ContentOf(p).value.(index := Some(n))], n);
    WritesPictured(AddCall(c, requestId, call, arguments, p.signature), requestId, messageId, model, PushContent(o, ContentOf(p).value));
  }

  lemma StopWrites(c: Client, requestId: string, messageId: string, model: string, contents: seq<Content>, index: nat)
    requires Writes(c, requestId, messageId, model, contents, index)
    ensures Writes(Emit(c, requestId, ContentStop(index)), requestId, messageId, model, contents, index)
  {
    EmitReduced(c, requestId, ContentStop(index));
    hide R.Run, Reduction;
  }

  lemma PartPictured(c: Client, requestId: string, messageId: string, model: string, o: Out, p: Part)
    requires Pictures(c, requestId, messageId, model, o)
    ensures Pictures(AddPart(c, requestId, p), requestId, messageId, model, PushPiece(o, Heard(p)))
    ensures AddPart(c, requestId, p).lastUsage == c.lastUsage
  {
    hide Pictures, PushContent, AddText, AddCall;
    if p.text != "" {
      TextPictured(c, requestId, messageId, model, o, p);
    } else if p.call.Some? && p.call.value.arguments.Some? {
      CallPictured(c, requestId, messageId, model, o, p);
    }
  }

  function PushMore(o: Out, ps: seq<Piece>): Out {
    if ps == [] then o else PushPiece(PushMore(o, ps[..|ps| - 1]), ps[|ps| - 1])
  }

  lemma {:induction false} PushAllAppend(xs: seq<Piece>, ys: seq<Piece>)
    ensures PushAll(xs + ys) == PushMore(PushAll(xs), ys)
    decreases ys
  {
    if ys == [] {
      assert xs + ys == xs;
    } else {
      assert (xs + ys)[..|xs + ys| - 1] == xs + ys[..|ys| - 1];
      hide PushPiece;
      PushAllAppend(xs, ys[..|ys| - 1]);
    }
  }

  lemma {:induction false} PartsPictured(c: Client, requestId: string, messageId: string, model: string, o: Out, ps: seq<Part>)
    requires Pictures(c, requestId, messageId, model, o)
    ensures Pictures(AddParts(c, requestId, ps), requestId, messageId, model, PushMore(o, HeardParts(ps)))
    ensures AddParts(c, requestId, ps).lastUsage == c.lastUsage
    decreases ps
  {
    if ps != [] {
      var n := |ps| - 1;
      PartsPictured(c, requestId, messageId, model, o, ps[..n]);
      assert HeardParts(ps)[..n] == HeardParts(ps[..n]);
      hide Pictures, AddPart, PushPiece;
      PartPictured(AddParts(c, requestId, ps[..n]), requestId, messageId, model, PushMore(o, HeardParts(ps[..n])), ps[n]);
    }
  }

  // ----- A whole stream -----

  /** The id and model of the first answer with content, which begins the message. */
  function FirstOf(answers: seq<Answer>): Answer {
    if answers == [] then NoContent("", None) else
    var a := FirstOf(answers[..|answers| - 1]);
    if a.NoContent? then answers[|answers| - 1] else a
  }

  /** The usage last reported. */
  function LastUsage(answers: seq<Answer>): Option<Usage> {
    if answers == [] then None else
    var a := answers[|answers| - 1];
    if a.Answer? && a.usage.Some? then a.usage else LastUsage(answers[..|answers| - 1])
  }

  lemma BeginPictured(c: Client, requestId: string, a: Answer)
    requires a.Answer? && c == START.(lastUsage := c.lastUsage)
    ensures Pictures(Begin(c, requestId, a.id, a.model), requestId, a.id, a.model, Out([], false))
    ensures Begin(c, requestId, a.id, a.model).lastUsage == c.lastUsage
  {
    var e := Event(requestId, None, MessageStart(a.id, a.model));
    assert Begin(c, requestId, a.id, a.model).emitted == [] + [e];
    R.RunAppend(R.EMPTY, [], e);
    assert R.Run(R.EMPTY, []) == R.EMPTY;
  }

  lemma EndPictured(c: Client, requestId: string, messageId: string, model: string, o: Out, status: Status)
    requires Pictures(c, requestId, messageId, model, o)
    ensures Pictures(End(c, requestId, status), requestId, messageId, model, PushPiece(o, Break))
    ensures var r := Reduction(End(c, requestId, status)).resp;
            r.status == status && r.usage == MergeUsage(Reduction(CloseOpen(c, requestId)).resp.usage, c.lastUsage)
    ensures End(c, requestId, status).lastUsage == c.lastUsage
  {
    ClosePictured(c, requestId, messageId, model, o);
    var d := CloseOpen(c, requestId);
    R.RunAppend(R.EMPTY, d.emitted, Event(requestId, d.lastUsage, MessageStop(status)));
    hide R.Run, CloseOpen;
  }

  lemma PictureKeepsUsage(c: Client, requestId: string, messageId: string, model: string, o: Out, usage: Option<Usage>)
    requires Pictures(c, requestId, messageId, model, o)
    ensures Pictures(c.(lastUsage := usage), requestId, messageId, model, o)
  {
    assert Reduction(c.(lastUsage := usage)) == Reduction(c);
  }

  lemma StepPictured(c: Client, requestId: string, messageId: string, model: string, o: Out, a: Answer)
    requires Pictures(c, requestId, messageId, model, o) && a.Answer?
    ensures Pictures(Step(c, requestId, a), requestId, messageId, model, PushMore(o, PiecesOf(a)))
    ensures Step(c, requestId, a).lastUsage == if a.usage.Some? then a.usage else c.lastUsage
  {
    var parts := HeardParts(a.parts);
    assert (parts + [Break])[..|parts|] == parts && parts + [] == parts;
    PicturesWrites(c, requestId, messageId, model, o);
    PartsPictured(c, requestId, messageId, model, o, a.parts);
    var d := AddParts(c, requestId, a.parts);
    hide Pictures, AddParts, End, PushPiece;
    PictureKeepsUsage(d, requestId, messageId, model, PushMore(o, parts), a.usage);
    var e := if a.usage.Some? then d.(lastUsage := a.usage) else d;
    if a.finishReason != "" {
      EndPictured(e, requestId, messageId, model, PushMore(o, parts), StatusFrom(a.finishReason, a.parts));
    }
  }

  lemma {:induction false} RunPictured(requestId: string, answers: seq<Answer>)
    ensures var c, f := Run(requestId, answers), FirstOf(answers);
            && c.lastUsage == LastUsage(answers)
            && if f.NoContent? then c == START && Pieces(answers) == []
               else Pictures(c, requestId, f.id, f.model, PushAll(Pieces(answers)))
  {
    if answers != [] {
      var front, a := answers[..|answers| - 1], answers[|answers| - 1];
      RunPictured(requestId, front);
      var c, f := Run(requestId, front), FirstOf(front);
      PushAllAppend(Pieces(front), PiecesOf(a));
      assert Pieces(front) + [] == Pieces(front);
      if a.Answer? {
        if f.NoContent? {
          BeginPictured(c, requestId, a);
          var b := Begin(c, requestId, a.id, a.model);
          BegunOnce(c, requestId, a);
          hide Pictures, Begin, AddParts, End, PiecesOf, PushPiece;
          StepPictured(b, requestId, a.id, a.model, Out([], false), a);
        } else {
          hide Pictures, Step, PiecesOf, PushPiece;
          StepPictured(c, requestId, f.id, f.model, PushAll(Pieces(front)), a);
        }
      }
    }
  }

  lemma BegunOnce(c: Client, requestId: string, a: Answer)
    requires a.Answer?
    ensures Step(Begin(c, requestId, a.id, a.model), requestId, a) == Step(c, requestId, a)
  {
    hide AddParts, End;
  }

  /**
   The contents of a stream depend only on its pieces: not on how the parts are distributed over the answers.
   */
  lemma StreamedContents(requestId: string, answers: seq<Answer>)
    ensures Contents(R.Run(R.EMPTY, Run(requestId, answers).emitted).resp) == PushAll(Pieces(answers)).contents
  {
    RunPictured(requestId, answers);
    if FirstOf(answers).NoContent? {
      assert Run(requestId, answers).emitted == [];
    }
  }

  lemma ChunkingDoesNotMatter(requestId: string, xs: seq<Answer>, ys: seq<Answer>)
    requires Pieces(xs) == Pieces(ys)
    ensures Contents(R.Run(R.EMPTY, Run(requestId, xs).emitted).resp) == Contents(R.Run(R.EMPTY, Run(requestId, ys).emitted).resp)
  {
    StreamedContents(requestId, xs);
    StreamedContents(requestId, ys);
  }

  // ----- Coalesced contents -----

  function Coalesce(out: seq<Content>, c: Content): seq<Content> {
    PushContent(Out(out, out != [] && out[|out| - 1].body.Text?), c).contents
  }

  /** Adjacent texts of one phase made one, with texts and signatures joined; positions as indices. */
  function Coalesced(cs: seq<Content>): seq<Content> {
    if cs == [] then [] else Coalesce(Coalesced(cs[..|cs| - 1]), cs[|cs| - 1])
  }

  function PartsOf(ps: seq<Piece>): seq<Part> {
    if ps == [] then [] else PartsOf(ps[..|ps| - 1]) + if ps[|ps| - 1].Heard? then [ps[|ps| - 1].part] else []
  }

  /** The phase of the text that the pieces end with, if they do, breaks aside. */
  function TextAtEnd(ps: seq<Piece>): Option<Phase> {
    if ps == [] then None else
    var front, p := ps[..|ps| - 1], ps[|ps| - 1];
    if p.Break? || ContentOf(p.part).None? then TextAtEnd(front)
    else if ContentOf(p.part).value.body.Text? then Some(ContentOf(p.part).value.phase) else None
  }

  /** Whether a break has come since the last content. */
  predicate BrokenAtEnd(ps: seq<Piece>) {
    ps != [] &&
    var front, p := ps[..|ps| - 1], ps[|ps| - 1];
    p.Break? || (ContentOf(p.part).None? && BrokenAtEnd(front))
  }

  /** A break stands between this text and the one it would continue. */
  predicate Splits(front: seq<Piece>, p: Piece) {
    && p.Heard? && ContentOf(p.part).Some? && ContentOf(p.part).value.body.Text?
    && TextAtEnd(front) == Some(ContentOf(p.part).value.phase) && BrokenAtEnd(front)
  }

  function SplitTexts(ps: seq<Piece>): nat {
    if ps == [] then 0 else SplitTexts(ps[..|ps| - 1]) + if Splits(ps[..|ps| - 1], ps[|ps| - 1]) then 1 else 0
  }

  function PhaseAtEnd(cs: seq<Content>): Option<Phase> {
    if cs != [] && cs[|cs| - 1].body.Text? then Some(cs[|cs| - 1].phase) else None
  }

  /** The two ways of building contents, side by side. */
  ghost predicate Beside(ps: seq<Piece>, o: Out, out: seq<Content>) {
    && PhaseAtEnd(o.contents) == PhaseAtEnd(out) == TextAtEnd(ps)
    && (o.open <==> TextAtEnd(ps).Some? && !BrokenAtEnd(ps))
    && |o.contents| == |out| + SplitTexts(ps)
    && (SplitTexts(ps) == 0 ==> o.contents == out)
  }

  lemma ContentBeside(front: seq<Piece>, o: Out, out: seq<Content>, p: Piece, ps: seq<Piece>, c: Content)
    requires Beside(front, o, out) && ps == front + [p] && p.Heard? && ContentOf(p.part) == Some(c)
    ensures Beside(ps, PushContent(o, c), Coalesce(out, c))
  {
    assert ps[..|ps| - 1] == front && ps[|ps| - 1] == p;
    hide ContentOf;
    if Continues(o, c) {
      assert PhaseAtEnd(PushContent(o, c).contents) == Some(c.phase);
    }
  }

  lemma OtherBeside(front: seq<Piece>, o: Out, out: seq<Content>, p: Piece, ps: seq<Piece>)
    requires Beside(front, o, out) && ps == front + [p] && (p.Heard? ==> ContentOf(p.part).None?)
    ensures Beside(ps, PushPiece(o, p), out)
  {
    assert ps[..|ps| - 1] == front && ps[|ps| - 1] == p;
    hide ContentOf;
  }

  lemma ConvertedMore(parts: seq<Part>, p: Part)
    ensures Converted(parts + [p]) == Converted(parts) + if ContentOf(p).Some? then [ContentOf(p).value] else []
  {
    assert (parts + [p])[..|parts|] == parts;
  }

  lemma CoalescedMore(cs: seq<Content>, c: Content)
    ensures Coalesced(cs + [c]) == Coalesce(Coalesced(cs), c)
  {
    assert (cs + [c])[..|cs|] == cs;
  }

  lemma {:induction false} CoalescedBeside(ps: seq<Piece>)
    ensures Beside(ps, PushAll(ps), Coalesced(Converted(PartsOf(ps))))
  {
    if ps != [] {
      var front, p := ps[..|ps| - 1], ps[|ps| - 1];
      assert ps == front + [p];
      CoalescedBeside(front);
      var parts, o := PartsOf(front), PushAll(front);
      hide Beside, ContentOf, Converted, Coalesced, Coalesce, PushContent;
      if p.Break? {
        assert parts + [] == parts;
        OtherBeside(front, o, Coalesced(Converted(parts)), p, ps);
      } else {
        ConvertedMore(parts, p.part);
        if ContentOf(p.part).Some? {
          CoalescedMore(Converted(parts), ContentOf(p.part).value);
          ContentBeside(front, o, Coalesced(Converted(parts)), p, ps, ContentOf(p.part).value);
        } else {
          assert Converted(parts) + [] == Converted(parts);
          OtherBeside(front, o, Coalesced(Converted(parts)), p, ps);
        }
      }
    }
  }

  /**
   Streaming against converting: the streamed contents are the coalesced contents of the complete answer if and only if
   no finish reason cuts a text in two; every cut is one content more.
   */
  lemma StreamedEqualsCoalesced(requestId: string, answers: seq<Answer>)
    ensures var streamed := Contents(R.Run(R.EMPTY, Run(requestId, answers).emitted).resp);
            var complete := Coalesced(Converted(PartsOf(Pieces(answers))));
            && (streamed == complete <==> SplitTexts(Pieces(answers)) == 0)
            && |streamed| == |complete| + SplitTexts(Pieces(answers))
  {
    StreamedContents(requestId, answers);
    CoalescedBeside(Pieces(answers));
  }

  // ----- How often the message ends -----

  function Finishes(a: Answer): int {
    if a.Answer? && a.finishReason != "" then 1 else 0
  }

  lemma EmitEnds(c: Client, requestId: string, p: Payload)
    ensures SumOver(IsStop, Emit(c, requestId, p).emitted) == SumOver(IsStop, c.emitted) + if p.MessageStop? then 1 else 0
  {
    SumAppend(IsStop, c.emitted, Event(requestId, None, p));
  }

  lemma CloseEndsNothing(c: Client, requestId: string)
    ensures SumOver(IsStop, CloseOpen(c, requestId).emitted) == SumOver(IsStop, c.emitted)
  {
    EmitEnds(c, requestId, ContentStop(c.openIndex));
  }

  lemma SignEndsNothing(c: Client, requestId: string, index: nat, signature: string)
    ensures SumOver(IsStop, Sign(c, requestId, index, signature).emitted) == SumOver(IsStop, c.emitted)
  {
    EmitEnds(c, requestId, ContentDelta(index, SignatureDelta(signature)));
  }

  lemma TextEndsNothing(c: Client, requestId: string, p: Part)
    ensures SumOver(IsStop, AddText(c, requestId, p).emitted) == SumOver(IsStop, c.emitted)
  {
    hide SumOver, CloseOpen, Sign;
    CloseEndsNothing(c, requestId);
    var d := CloseOpen(c, requestId);
    EmitEnds(d.(nextIndex := d.nextIndex + 1, hasOpen := true, openPhase := PhaseOf(p), openIndex := d.nextIndex),
             requestId, ContentStart("", d.nextIndex, PhaseOf(p), TextStart));
    var o := OpenText(c, requestId, PhaseOf(p));
    var t := Emit(o, requestId, ContentDelta(o.openIndex, TextDelta(p.text)));
    EmitEnds(o, requestId, ContentDelta(o.openIndex, TextDelta(p.text)));
    SignEndsNothing(t, requestId, o.openIndex, p.signature);
  }

  lemma CallEndsNothing(c: Client, requestId: string, call: Call, arguments: string, signature: string)
    ensures SumOver(IsStop, AddCall(c, requestId, call, arguments, signature).emitted) == SumOver(IsStop, c.emitted)
  {
    hide SumOver, CloseOpen, Sign;
    CloseEndsNothing(c, requestId);
    var d := CloseOpen(c, requestId);
    var index := d.nextIndex;
    var s := Emit(d.(nextIndex := index + 1), requestId, ContentStart("", index, Normal, ToolStart(call.id, call.name)));
    EmitEnds(d.(nextIndex := index + 1), requestId, ContentStart("", index, Normal, ToolStart(call.id, call.name)));
    EmitEnds(s, requestId, ContentDelta(index, ToolInputDelta(arguments)));
    var t := Emit(s, requestId, ContentDelta(index, ToolInputDelta(arguments)));
    SignEndsNothing(t, requestId, index, signature);
    EmitEnds(Sign(t, requestId, index, signature), requestId, ContentStop(index));
  }

  lemma {:induction false} PartsEndNothing(c: Client, requestId: string, ps: seq<Part>)
    ensures SumOver(IsStop, AddParts(c, requestId, ps).emitted) == SumOver(IsStop, c.emitted)
    decreases ps
  {
    if ps != [] {
      var front, p := AddParts(c, requestId, ps[..|ps| - 1]), ps[|ps| - 1];
      PartsEndNothing(c, requestId, ps[..|ps| - 1]);
      hide AddText, AddCall, SumOver;
      TextEndsNothing(front, requestId, p);
      if p.call.Some? && p.call.value.arguments.Some? {
        CallEndsNothing(front, requestId, p.call.value, p.call.value.arguments.value, p.signature);
      }
    }
  }

  lemma BeginEndsNothing(c: Client, requestId: string, id: string, model: string)
    ensures SumOver(IsStop, Begin(c, requestId, id, model).emitted) == SumOver(IsStop, c.emitted)
  {
    EmitEnds(c.(messageStarted := true), requestId, MessageStart(id, model));
  }

  lemma EndEnds(c: Client, requestId: string, status: Status)
    ensures SumOver(IsStop, End(c, requestId, status).emitted) == SumOver(IsStop, c.emitted) + 1
  {
    hide SumOver, CloseOpen;
    CloseEndsNothing(c, requestId);
    var d := CloseOpen(c, requestId);
    SumAppend(IsStop, d.emitted, Event(requestId, d.lastUsage, MessageStop(status)));
  }

  lemma StepEnds(c: Client, requestId: string, a: Answer)
    ensures SumOver(IsStop, Step(c, requestId, a).emitted) == SumOver(IsStop, c.emitted) + Finishes(a)
  {
    hide SumOver, AddParts, Begin, End, StatusFrom;
    if a.Answer? {
      BeginEndsNothing(c, requestId, a.id, a.model);
      var b := Begin(c, requestId, a.id, a.model);
      PartsEndNothing(b, requestId, a.parts);
      var p := AddParts(b, requestId, a.parts);
      EndEnds(if a.usage.Some? then p.(lastUsage := a.usage) else p, requestId, StatusFrom(a.finishReason, a.parts));
    }
  }

  lemma {:induction false} EveryFinishEnds(requestId: string, answers: seq<Answer>)
    ensures SumOver(IsStop, Run(requestId, answers).emitted) == SumOver(Finishes, answers)
  {
    if answers != [] {
      var n := |answers| - 1;
      EveryFinishEnds(requestId, answers[..n]);
      hide Step;
      StepEnds(Run(requestId, answers[..n]), requestId, answers[n]);
    }
  }

  /**
   The message is stopped if and only if some answer with content has a finish reason: one that comes without content is
   not passed on, and neither is its usage.
   */
  lemma StoppedIfFinished(requestId: string, answers: seq<Answer>)
    ensures (exists e <- Run(requestId, answers).emitted :: e.payload.MessageStop?) <==> exists a <- answers :: a.Answer? && a.finishReason != ""
  {
    hide Run;
    EveryFinishEnds(requestId, answers);
    SumCounts(IsStop, Run(requestId, answers).emitted);
    SumCounts(Finishes, answers);
  }

  // ----- An answer with one finish reason, at its end -----

  ghost predicate FinishedOnce(answers: seq<Answer>) {
    && answers != [] && answers[|answers| - 1].Answer? && answers[|answers| - 1].finishReason != ""
    && forall k | 0 <= k < |answers| - 1 && answers[k].Answer? :: answers[k].finishReason == ""
  }

  /** The complete answer that a stream stands for. */
  function Whole(answers: seq<Answer>): Answer
    requires answers != [] && answers[|answers| - 1].Answer?
  {
    var f := FirstOf(answers);
    Answer(if f.Answer? then f.id else "", if f.Answer? then f.model else "", PartsOf(Pieces(answers)),
           answers[|answers| - 1].finishReason, LastUsage(answers))
  }

  lemma {:induction false} NoBreaks(answers: seq<Answer>)
    requires forall k | 0 <= k < |answers| && answers[k].Answer? :: answers[k].finishReason == ""
    ensures forall k | 0 <= k < |Pieces(answers)| :: Pieces(answers)[k].Heard?
  {
    if answers != [] {
      NoBreaks(answers[..|answers| - 1]);
      if answers[|answers| - 1].Answer? {
        OnlyHeard(answers[|answers| - 1].parts);
      }
    }
  }

  lemma {:induction false} OnlyHeard(ps: seq<Part>)
    ensures forall k | 0 <= k < |ps| :: HeardParts(ps)[k] == Heard(ps[k])
  {
    if ps != [] {
      OnlyHeard(ps[..|ps| - 1]);
    }
  }

  lemma {:induction false} NothingSplit(ps: seq<Piece>)
    requires forall k | 0 <= k < |ps| :: ps[k].Heard?
    ensures SplitTexts(ps) == 0 && !BrokenAtEnd(ps)
  {
    if ps != [] {
      NothingSplit(ps[..|ps| - 1]);
    }
  }

  lemma FinishedPieces(answers: seq<Answer>)
    requires FinishedOnce(answers)
    ensures SplitTexts(Pieces(answers)) == 0
  {
    var n := |answers| - 1;
    var front, parts := Pieces(answers[..n]), HeardParts(answers[n].parts);
    NoBreaks(answers[..n]);
    OnlyHeard(answers[n].parts);
    NothingSplit(front + parts);
    assert Pieces(answers) == (front + parts) + [Break];
    assert ((front + parts) + [Break])[..|front + parts|] == front + parts;
  }

  /** The status of a stream only knows the parts of its last answer. */
  predicate CallsComeLast(answers: seq<Answer>)
    requires answers != [] && answers[|answers| - 1].Answer?
  {
    var last := answers[|answers| - 1];
    last.finishReason == "STOP" ==> (HasCall(Whole(answers).parts) <==> HasCall(last.parts))
  }

  // ----- Usage is reported with the end of the message -----

  ghost predicate Unreported(es: seq<Event>) {
    forall k | 0 <= k < |es| :: es[k].usage.None?
  }

  lemma {:induction false} UnreportedReduced(es: seq<Event>)
    requires Unreported(es)
    ensures R.Run(R.EMPTY, es).resp.usage.None?
  {
    if es != [] {
      var front, e := es[..|es| - 1], es[|es| - 1];
      assert front + [e] == es;
      UnreportedReduced(front);
      R.RunAppend(R.EMPTY, front, e);
      hide R.Run;
      SS.HeaderStep(R.Run(R.EMPTY, front), e);
    }
  }

  lemma PartUnreported(c: Client, requestId: string, p: Part)
    requires Unreported(c.emitted)
    ensures Unreported(AddPart(c, requestId, p).emitted)
  {
  }

  lemma {:induction false} PartsUnreported(c: Client, requestId: string, ps: seq<Part>)
    requires Unreported(c.emitted)
    ensures Unreported(AddParts(c, requestId, ps).emitted)
    decreases ps
  {
    if ps != [] {
      PartsUnreported(c, requestId, ps[..|ps| - 1]);
      hide AddPart, Unreported;
      PartUnreported(AddParts(c, requestId, ps[..|ps| - 1]), requestId, ps[|ps| - 1]);
    }
  }

  lemma {:induction false} RunUnreported(requestId: string, answers: seq<Answer>)
    requires forall k | 0 <= k < |answers| && answers[k].Answer? :: answers[k].finishReason == ""
    ensures Unreported(Run(requestId, answers).emitted)
  {
    if answers != [] {
      var c, a := Run(requestId, answers[..|answers| - 1]), answers[|answers| - 1];
      RunUnreported(requestId, answers[..|answers| - 1]);
      if a.Answer? {
        assert Unreported(Begin(c, requestId, a.id, a.model).emitted);
        hide Unreported, Begin, AddParts;
        PartsUnreported(Begin(c, requestId, a.id, a.model), requestId, a.parts);
      }
    }
  }

  lemma EndReported(requestId: string, answers: seq<Answer>)
    requires FinishedOnce(answers)
    ensures R.Run(R.EMPTY, Run(requestId, answers).emitted).resp.usage == LastUsage(answers)
  {
    hide *;
    var e, status := BeforeStop(requestId, answers), StatusFrom(Final(answers).finishReason, Final(answers).parts);
    StoppedLast(requestId, answers);
    UnreportedBefore(requestId, answers);
    UnreportedReduced(e.emitted);
    UsageOfLast(e.emitted, requestId, LastUsage(answers), status);
  }

  /** The one answer with a finish reason. */
  function Final(answers: seq<Answer>): (a: Answer)
    requires FinishedOnce(answers)
    ensures a.Answer?
  {
    answers[|answers| - 1]
  }

  /** The client with all parts decoded and the open block closed, just before it sends the message stop. */
  ghost function BeforeStop(requestId: string, answers: seq<Answer>): Client
    requires FinishedOnce(answers)
  {
    var a := Final(answers);
    var p := AddParts(Begin(Run(requestId, answers[..|answers| - 1]), requestId, a.id, a.model), requestId, a.parts);
    CloseOpen(if a.usage.Some? then p.(lastUsage := a.usage) else p, requestId)
  }

  lemma StoppedLast(requestId: string, answers: seq<Answer>)
    requires FinishedOnce(answers)
    ensures var status := StatusFrom(Final(answers).finishReason, Final(answers).parts);
            Run(requestId, answers).emitted ==
            BeforeStop(requestId, answers).emitted + [Event(requestId, LastUsage(answers), MessageStop(status))]
  {
    hide AddParts, Begin, Pictures, LastUsage, StatusFrom, PushAll;
    RunPictured(requestId, answers);
  }

  lemma UnreportedBefore(requestId: string, answers: seq<Answer>)
    requires FinishedOnce(answers)
    ensures Unreported(BeforeStop(requestId, answers).emitted)
  {
    var a, c := Final(answers), Run(requestId, answers[..|answers| - 1]);
    RunUnreported(requestId, answers[..|answers| - 1]);
    hide AddParts, Run;
    PartsUnreported(Begin(c, requestId, a.id, a.model), requestId, a.parts);
  }

  lemma UsageOfLast(es: seq<Event>, requestId: string, usage: Option<Usage>, status: Status)
    requires R.Run(R.EMPTY, es).resp.usage.None?
    ensures R.Run(R.EMPTY, es + [Event(requestId, usage, MessageStop(status))]).resp.usage == usage
  {
    R.RunAppend(R.EMPTY, es, Event(requestId, usage, MessageStop(status)));
  }

  /**
   A stream with one finish reason, at its end, is reduced to the conversion of the complete answer with its contents
   coalesced; the statuses agree if and only if calls, should the model stop after some, are among the last answer's parts.
   */
  lemma StreamedResponse(requestId: string, answers: seq<Answer>)
    requires FinishedOnce(answers)
    ensures var streamed, complete := R.Run(R.EMPTY, Run(requestId, answers).emitted).resp, ConvertedResponse(requestId, Whole(answers));
            && streamed.(status := complete.status)
            == complete.(message := Some(Message(complete.message.value.id, Coalesced(complete.message.value.contents))))
            && (streamed.status == complete.status <==> CallsComeLast(answers))
  {
    var n := |answers| - 1;
    var a, f := answers[n], FirstOf(answers);
    FinishedPieces(answers);
    StreamedEqualsCoalesced(requestId, answers);
    RunPictured(requestId, answers);
    LastStatus(requestId, answers);
    EndReported(requestId, answers);
    hide R.Run, Run, Pieces, Coalesced, Converted, LastUsage;
    assert f.Answer?;
  }

  lemma LastStatus(requestId: string, answers: seq<Answer>)
    requires answers != [] && answers[|answers| - 1].Answer? && answers[|answers| - 1].finishReason != ""
    ensures var a := answers[|answers| - 1];
            R.Run(R.EMPTY, Run(requestId, answers).emitted).resp.status == StatusFrom(a.finishReason, a.parts)
  {
    var n := |answers| - 1;
    var a, c := answers[n], Run(requestId, answers[..n]);
    var b := AddParts(Begin(c, requestId, a.id, a.model), requestId, a.parts);
    var d := if a.usage.Some? then b.(lastUsage := a.usage) else b;
    var e := CloseOpen(d, requestId);
    assert Run(requestId, answers) == End(d, requestId, StatusFrom(a.finishReason, a.parts));
    hide R.Run, AddParts, Begin, CloseOpen;
    R.RunAppend(R.EMPTY, e.emitted, Event(requestId, e.lastUsage, MessageStop(StatusFrom(a.finishReason, a.parts))));
  }
}
