/**
 What Gemini's answers come to, said of their parts alone: thoughts are reasoning, all other text is the answer, and both
 ways of decoding keep every character, call and signature in order.
 */
module GeminiMeaning {
  import opened Basics
  import opened ChatTypes
  import opened ChatNormalForm
  import opened GeminiUpstream
  import opened GeminiInvariance
  import R = Reducers

  /** A part that says something: text, or a call whose arguments can be marshalled. */
  predicate Telling(p: Part) {
    p.text != "" || (p.call.Some? && p.call.value.arguments.Some?)
  }

  function MarksOfPart(p: Part): seq<Mark> {
    if p.text != "" then Utterance(if p.thought then Reasoning else Normal, p.text)
    else if p.call.Some? && p.call.value.arguments.Some? then [Called(p.call.value.id, p.call.value.name, p.call.value.arguments.value)]
    else []
  }

  function Told(ps: seq<Part>): seq<Mark> {
    if ps == [] then [] else Told(ps[..|ps| - 1]) + MarksOfPart(ps[|ps| - 1])
  }

  function Signatures(ps: seq<Part>): string {
    if ps == [] then "" else Signatures(ps[..|ps| - 1]) + if Telling(ps[|ps| - 1]) then ps[|ps| - 1].signature else ""
  }

  function SignaturesOf(cs: seq<Content>): string {
    if cs == [] then "" else SignaturesOf(cs[..|cs| - 1]) + cs[|cs| - 1].signature
  }

  /** Texts are of phase Reasoning or Normal, and calls Normal. */
  ghost predicate Plain(cs: seq<Content>) {
    forall k | 0 <= k < |cs| :: if cs[k].body.Text? then cs[k].phase.Reasoning? || cs[k].phase.Normal? else cs[k].body.ToolUse? && cs[k].phase.Normal?
  }

  /** The contents tell what the parts tell. */
  ghost predicate Tells(cs: seq<Content>, ps: seq<Part>) {
    Transcript(cs) == Told(ps) && SignaturesOf(cs) == Signatures(ps) && Plain(cs)
  }

  lemma PartTells(p: Part)
    ensures Telling(p) <==> ContentOf(p).Some?
    ensures MarksOfPart(p) == if ContentOf(p).Some? then MarksOf(ContentOf(p).value) else []
    ensures ContentOf(p).Some? ==> ContentOf(p).value.signature == p.signature && Plain([ContentOf(p).value])
  {
    hide Utterance;
    if ContentOf(p).Some? && ContentOf(p).value.body.ToolUse? {
      var input := p.call.value.arguments.value;
      assert [input][1..] == [] && input + "" == input;
      assert TextualInput([input]) == input;
    }
  }

  lemma SignaturesMore(cs: seq<Content>, c: Content)
    ensures SignaturesOf(cs + [c]) == SignaturesOf(cs) + c.signature
  {
    assert (cs + [c])[..|cs|] == cs;
  }

  lemma ToldMore(ps: seq<Part>, p: Part)
    ensures Told(ps + [p]) == Told(ps) + MarksOfPart(p)
    ensures Signatures(ps + [p]) == Signatures(ps) + if Telling(p) then p.signature else ""
  {
    assert (ps + [p])[..|ps|] == ps;
  }

  lemma ListedTells(cs: seq<Content>, ps: seq<Part>, p: Part, c: Content)
    requires Tells(cs, ps) && ContentOf(p).Some? && c == ContentOf(p).value.(index := c.index)
    ensures Tells(cs + [c], ps + [p])
  {
    hide *;
    PartTells(p);
    ToldMore(ps, p);
    SignaturesMore(cs, c);
    TranscriptMore(cs, c);
    TellsAll(cs, ps);
    IndexAside(cs, ContentOf(p).value, c);
    TellsAll(cs + [c], ps + [p]);
  }

  lemma IndexAside(cs: seq<Content>, d: Content, c: Content)
    requires c == d.(index := c.index) && Plain(cs) && Plain([d])
    ensures MarksOf(c) == MarksOf(d) && c.signature == d.signature && Plain(cs + [c])
  {
    hide Utterance;
    assert [d][0] == d;
  }

  lemma SkippedTells(cs: seq<Content>, ps: seq<Part>, p: Part)
    requires Tells(cs, ps) && ContentOf(p).None?
    ensures Tells(cs, ps + [p])
  {
    PartTells(p);
    ToldMore(ps, p);
    hide Told, Transcript, Signatures, SignaturesOf, Plain, ContentOf;
    assert Told(ps) + [] == Told(ps) && Signatures(ps) + "" == Signatures(ps);
  }

  lemma GrownTells(cs: seq<Content>, ps: seq<Part>, p: Part)
    requires Tells(cs, ps) && cs != [] && ContentOf(p).Some?
    requires var c, l := ContentOf(p).value, cs[|cs| - 1]; c.body.Text? && l.body.Text? && l.phase == c.phase
    ensures var n := |cs| - 1; Tells(cs[n := Grow(cs[n], ContentOf(p).value)], ps + [p])
  {
    hide *;
    var n := |cs| - 1;
    var front, l, c := cs[..n], cs[n], ContentOf(p).value;
    assert front + [l] == cs && cs[n := Grow(l, c)] == front + [Grow(l, c)];
    PartTells(p);
    ToldMore(ps, p);
    TellsAll(cs, ps);
    GrownTranscript(front, l, c);
    GrownSignature(front, l, c);
    GrownPlain(front, l, c);
    TellsAll(front + [Grow(l, c)], ps + [p]);
  }

  lemma TellsAll(cs: seq<Content>, ps: seq<Part>)
    ensures Tells(cs, ps) <==> Transcript(cs) == Told(ps) && SignaturesOf(cs) == Signatures(ps) && Plain(cs)
  {
    hide Transcript, Told, SignaturesOf, Signatures, Plain;
  }

  lemma GrownTranscript(front: seq<Content>, l: Content, c: Content)
    requires c.body.Text? && l.body.Text? && l.phase == c.phase
    ensures Transcript(front + [Grow(l, c)]) == Transcript(front + [l]) + MarksOf(c)
  {
    hide Transcript, Utterance;
    TranscriptMore(front, l);
    TranscriptMore(front, Grow(l, c));
    UtteranceAppend(NormalPhase(l.phase), l.body.text, c.body.text);
    AppendAssociates(Transcript(front), MarksOf(l), MarksOf(c));
  }

  lemma GrownSignature(front: seq<Content>, l: Content, c: Content)
    requires c.body.Text? && l.body.Text?
    ensures SignaturesOf(front + [Grow(l, c)]) == SignaturesOf(front + [l]) + c.signature
  {
    hide SignaturesOf;
    SignaturesMore(front, l);
    SignaturesMore(front, Grow(l, c));
    AppendAssociates(SignaturesOf(front), l.signature, c.signature);
  }

  lemma GrownPlain(front: seq<Content>, l: Content, c: Content)
    requires c.body.Text? && l.body.Text? && Plain(front + [l])
    ensures Plain(front + [Grow(l, c)])
  {
    forall k | 0 <= k < |front| + 1
      ensures var d := (front + [Grow(l, c)])[k]; if d.body.Text? then d.phase.Reasoning? || d.phase.Normal? else d.body.ToolUse? && d.phase.Normal?
    {
      assert (front + [l])[k] == if k < |front| then front[k] else l;
    }
  }

  /** A complete answer: thoughts are reasoning, other text and calls are normal, all in order. */
  lemma {:induction false} CompleteTells(ps: seq<Part>)
    ensures Tells(Converted(ps), ps)
  {
    if ps != [] {
      var front, p := ps[..|ps| - 1], ps[|ps| - 1];
      assert front + [p] == ps;
      CompleteTells(front);
      ConvertedMore(front, p);
      hide Tells, Converted, ContentOf;
      if ContentOf(p).Some? {
        ListedTells(Converted(front), front, p, ContentOf(p).value);
      } else {
        assert Converted(front) + [] == Converted(front);
        SkippedTells(Converted(front), front, p);
      }
    }
  }

  lemma {:induction false} PiecesTell(ps: seq<Piece>)
    ensures Tells(PushAll(ps).contents, PartsOf(ps))
  {
    if ps != [] {
      var front, p := ps[..|ps| - 1], ps[|ps| - 1];
      var o := PushAll(front);
      PiecesTell(front);
      hide Tells, ContentOf, Grow;
      if p.Break? {
        assert PartsOf(front) + [] == PartsOf(front);
      } else if ContentOf(p.part).None? {
        SkippedTells(o.contents, PartsOf(front), p.part);
      } else if Continues(o, ContentOf(p.part).value) {
        GrownTells(o.contents, PartsOf(front), p.part);
      } else {
        ListedTells(o.contents, PartsOf(front), p.part, ContentOf(p.part).value.(index := Some(|o.contents|)));
      }
    }
  }

  /** A stream of answers tells the same of all its parts, however it is cut. */
  lemma StreamedTells(requestId: string, answers: seq<Answer>)
    ensures Tells(Contents(R.Run(R.EMPTY, Run(requestId, answers).emitted).resp), PartsOf(Pieces(answers)))
  {
    StreamedContents(requestId, answers);
    PiecesTell(Pieces(answers));
  }

  // ----- Id, model, status and usage -----

  /** What the finish reasons mean: stopping at a call leaves it to the client. */
  function Meant(reason: string, call: bool): Status {
    if reason == "STOP" && call then PendingToolUse
    else if reason == "STOP" then Completed
    else if reason == "MAX_TOKENS" then ReachedTokenLimit
    else if reason == "SAFETY" || reason == "BLOCKLIST" || reason == "PROHIBITED_CONTENT" || reason == "SPII"
            || reason == "IMAGE_SAFETY" || reason == "IMAGE_PROHIBITED_CONTENT" then Refused
    else InProgress
  }

  function MeantBy(a: Answer): Status
    requires a.Answer?
  {
    Meant(a.finishReason, exists p <- a.parts :: p.call.Some?)
  }

  predicate IsFinish(a: Answer) {
    a.Answer? && a.finishReason != ""
  }

  /** The meaning of the last finish reason, judged by the calls of its own answer. */
  function StatusHeard(answers: seq<Answer>): Status {
    if answers == [] then Unspecified else
    var a := answers[|answers| - 1];
    if IsFinish(a) then MeantBy(a) else StatusHeard(answers[..|answers| - 1])
  }

  /** The last count that is not zero, of the usage known when a finish reason came. */
  function TokensHeard(f: R.UsageField, answers: seq<Answer>): nat {
    if answers == [] then 0 else
    var tokens := R.FieldOf(LastUsage(answers), f);
    if IsFinish(answers[|answers| - 1]) && tokens != 0 then tokens else TokensHeard(f, answers[..|answers| - 1])
  }

  /** The events tell this status and count last, and this usage is to be reported. */
  ghost predicate Reports(c: Client, f: R.UsageField, status: Status, tokens: nat, usage: Option<Usage>) {
    LastStop(c.emitted) == status && R.LastReport(f, c.emitted) == tokens && c.lastUsage == usage
  }

  lemma EmitReports(c: Client, requestId: string, p: Payload, f: R.UsageField, status: Status, tokens: nat, usage: Option<Usage>)
    requires Reports(c, f, status, tokens, usage) && !p.MessageStop?
    ensures Reports(Emit(c, requestId, p), f, status, tokens, usage)
  {
    assert Emit(c, requestId, p).emitted[..|c.emitted|] == c.emitted;
  }

  lemma SameReports(c: Client, d: Client, f: R.UsageField, status: Status, tokens: nat, usage: Option<Usage>)
    requires Reports(c, f, status, tokens, usage) && d.emitted == c.emitted && d.lastUsage == c.lastUsage
    ensures Reports(d, f, status, tokens, usage)
  {
  }

  lemma CloseReports(c: Client, requestId: string, f: R.UsageField, status: Status, tokens: nat, usage: Option<Usage>)
    requires Reports(c, f, status, tokens, usage)
    ensures Reports(CloseOpen(c, requestId), f, status, tokens, usage)
  {
    hide Reports, Emit;
    EmitReports(c, requestId, ContentStop(c.openIndex), f, status, tokens, usage);
    SameReports(Emit(c, requestId, ContentStop(c.openIndex)), Emit(c, requestId, ContentStop(c.openIndex)).(hasOpen := false), f, status, tokens, usage);
  }

  lemma SignReports(c: Client, requestId: string, index: nat, signature: string, f: R.UsageField, status: Status, tokens: nat, usage: Option<Usage>)
    requires Reports(c, f, status, tokens, usage)
    ensures Reports(Sign(c, requestId, index, signature), f, status, tokens, usage)
  {
    hide Reports, Emit;
    EmitReports(c, requestId, ContentDelta(index, SignatureDelta(signature)), f, status, tokens, usage);
  }

  lemma TextReports(c: Client, requestId: string, p: Part, f: R.UsageField, status: Status, tokens: nat, usage: Option<Usage>)
    requires Reports(c, f, status, tokens, usage)
    ensures Reports(AddText(c, requestId, p), f, status, tokens, usage)
  {
    hide Reports, Emit, CloseOpen, Sign;
    var d := CloseOpen(c, requestId);
    var e := d.(nextIndex := d.nextIndex + 1, hasOpen := true, openPhase := PhaseOf(p), openIndex := d.nextIndex);
    CloseReports(c, requestId, f, status, tokens, usage);
    SameReports(d, e, f, status, tokens, usage);
    EmitReports(e, requestId, ContentStart("", d.nextIndex, PhaseOf(p), TextStart), f, status, tokens, usage);
    var o := OpenText(c, requestId, PhaseOf(p));
    EmitReports(o, requestId, ContentDelta(o.openIndex, TextDelta(p.text)), f, status, tokens, usage);
    SignReports(Emit(o, requestId, ContentDelta(o.openIndex, TextDelta(p.text))), requestId, o.openIndex, p.signature, f, status, tokens, usage);
  }

  lemma CallReports(c: Client, requestId: string, call: Call, arguments: string, signature: string,
                    f: R.UsageField, status: Status, tokens: nat, usage: Option<Usage>)
    requires Reports(c, f, status, tokens, usage)
    ensures Reports(AddCall(c, requestId, call, arguments, signature), f, status, tokens, usage)
  {
    hide Reports, Emit, CloseOpen, Sign;
    var d := CloseOpen(c, requestId);
    var index := d.nextIndex;
    CloseReports(c, requestId, f, status, tokens, usage);
    SameReports(d, d.(nextIndex := index + 1), f, status, tokens, usage);
    EmitReports(d.(nextIndex := index + 1), requestId, ContentStart("", index, Normal, ToolStart(call.id, call.name)), f, status, tokens, usage);
    var o := Emit(d.(nextIndex := index + 1), requestId, ContentStart("", index, Normal, ToolStart(call.id, call.name)));
    EmitReports(o, requestId, ContentDelta(index, ToolInputDelta(arguments)), f, status, tokens, usage);
    var g := Emit(o, requestId, ContentDelta(index, ToolInputDelta(arguments)));
    SignReports(g, requestId, index, signature, f, status, tokens, usage);
    EmitReports(Sign(g, requestId, index, signature), requestId, ContentStop(index), f, status, tokens, usage);
  }

  lemma {:induction false} PartsReport(c: Client, requestId: string, ps: seq<Part>, f: R.UsageField, status: Status, tokens: nat, usage: Option<Usage>)
    requires Reports(c, f, status, tokens, usage)
    ensures Reports(AddParts(c, requestId, ps), f, status, tokens, usage)
    decreases ps
  {
    hide Reports, AddText, AddCall;
    if ps != [] {
      var n, p := |ps| - 1, ps[|ps| - 1];
      PartsReport(c, requestId, ps[..n], f, status, tokens, usage);
      var d := AddParts(c, requestId, ps[..n]);
      TextReports(d, requestId, p, f, status, tokens, usage);
      if p.call.Some? && p.call.value.arguments.Some? {
        CallReports(d, requestId, p.call.value, p.call.value.arguments.value, p.signature, f, status, tokens, usage);
      }
    }
  }

  lemma EndReports(c: Client, requestId: string, stop: Status, f: R.UsageField, status: Status, tokens: nat, usage: Option<Usage>)
    requires Reports(c, f, status, tokens, usage)
    ensures Reports(End(c, requestId, stop), f, stop, if R.FieldOf(usage, f) != 0 then R.FieldOf(usage, f) else tokens, usage)
  {
    hide CloseOpen;
    CloseReports(c, requestId, f, status, tokens, usage);
    assert End(c, requestId, stop).emitted[..|CloseOpen(c, requestId).emitted|] == CloseOpen(c, requestId).emitted;
  }

  lemma StepReports(c: Client, requestId: string, answers: seq<Answer>, f: R.UsageField)
    requires answers != []
    requires var front := answers[..|answers| - 1]; Reports(c, f, StatusHeard(front), TokensHeard(f, front), LastUsage(front))
    ensures Reports(Step(c, requestId, answers[|answers| - 1]), f, StatusHeard(answers), TokensHeard(f, answers), LastUsage(answers))
  {
    hide Reports, StatusFrom, Meant, Emit, AddParts, End;
    var front, a := answers[..|answers| - 1], answers[|answers| - 1];
    var status, tokens := StatusHeard(front), TokensHeard(f, front);
    if a.Answer? {
      SameReports(c, c.(messageStarted := true), f, status, tokens, LastUsage(front));
      EmitReports(c.(messageStarted := true), requestId, MessageStart(a.id, a.model), f, status, tokens, LastUsage(front));
      var b := Begin(c, requestId, a.id, a.model);
      PartsReport(b, requestId, a.parts, f, status, tokens, LastUsage(front));
      var d := AddParts(b, requestId, a.parts);
      var e := if a.usage.Some? then d.(lastUsage := a.usage) else d;
      OtherUsage(d, e, f, status, tokens, LastUsage(front));
      ReasonMeant(a.finishReason, a.parts);
      EndReports(e, requestId, StatusFrom(a.finishReason, a.parts), f, status, tokens, LastUsage(answers));
    }
  }

  lemma OtherUsage(c: Client, d: Client, f: R.UsageField, status: Status, tokens: nat, usage: Option<Usage>)
    requires Reports(c, f, status, tokens, usage) && d.emitted == c.emitted
    ensures Reports(d, f, status, tokens, d.lastUsage) && c.lastUsage == usage
  {
  }

  lemma {:induction false} RunReports(requestId: string, answers: seq<Answer>, f: R.UsageField)
    ensures Reports(Run(requestId, answers), f, StatusHeard(answers), TokensHeard(f, answers), LastUsage(answers))
  {
    if answers != [] {
      var front := answers[..|answers| - 1];
      RunReports(requestId, front, f);
      hide Reports, Step, LastUsage, StatusHeard, TokensHeard;
      StepReports(Run(requestId, front), requestId, answers, f);
    }
  }

  /**
   For every stream: id and model are those of the first answer with content, the status is what the last finish reason
   means, and usage is the last one known when it came.
   */
  lemma DecodedHeader(requestId: string, answers: seq<Answer>, f: R.UsageField)
    ensures var r, first := R.Run(R.EMPTY, Run(requestId, answers).emitted).resp, FirstOf(answers);
            && (first.Answer? ==> r.id == requestId && (R.MessageOf(r).id, r.model) == (first.id, first.model))
            && r.status == StatusHeard(answers) && R.FieldOf(r.usage, f) == TokensHeard(f, answers)
  {
    RunReports(requestId, answers, f);
    RunPictured(requestId, answers);
    R.HeaderIsLast(Run(requestId, answers).emitted);
    R.UsageIsLastReport(Run(requestId, answers).emitted, f);
    hide Run, R.Run, LastStart, LastStop, R.LastReport, Pieces, PushAll, StatusHeard, TokensHeard, FirstOf;
  }

  /** A complete answer is decoded to the same status, and to its own id, model and usage. */
  lemma CompleteHeader(requestId: string, a: Answer)
    requires a.Answer?
    ensures var r := ConvertedResponse(requestId, a);
            && (r.id, R.MessageOf(r).id, r.model) == (requestId, a.id, a.model) && r.status == MeantBy(a) && r.usage == a.usage
  {
    ReasonMeant(a.finishReason, a.parts);
    hide StatusFrom, Meant;
  }

  lemma ReasonMeant(reason: string, parts: seq<Part>)
    ensures StatusFrom(reason, parts) == Meant(reason, exists p <- parts :: p.call.Some?)
  {
    assert HasCall(parts) <==> exists p <- parts :: p.call.Some?;
  }
}
