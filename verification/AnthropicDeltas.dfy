/** When what the message stream server writes is in order: every delta is of the kind of the block it belongs to. */
module AnthropicDeltas {
  import opened Basics
  import opened AnthropicStreams
  import opened AnthropicPassThrough
  import CT = ChatTypes

  predicate SuitsOpen(open: map<nat, BlockStart>, e: StreamEvent) {
    e.Delta? ==> e.index in open && Suits(open[e.index], e.delta)
  }

  /** Every delta belongs to an open block of its own kind. */
  predicate DeltasSuit(written: seq<StreamEvent>) {
    written == [] || (DeltasSuit(written[..|written| - 1]) && SuitsOpen(OpenBlocks(written[..|written| - 1]), written[|written| - 1]))
  }

  /** The start by which the block of an index is open, read off the events. */
  function OpenStart(es: seq<CT.Event>, index: nat): Option<CT.Payload> {
    if es == [] then None else
    var p := es[|es| - 1].payload;
    if !About(p, index) then OpenStart(es[..|es| - 1], index) else if p.ContentStart? then Some(p) else None
  }

  /** Text is for blocks of text, signatures for those of reasoning, and input for calls. */
  predicate Heard(es: seq<CT.Event>, p: CT.Payload) {
    p.ContentDelta? ==>
      && OpenStart(es, p.index).Some? && OpenStart(es, p.index).value.ContentStart?
      && var start := OpenStart(es, p.index).value;
      match p.delta
      case TextDelta(_) => start.kind.TextStart?
      case SignatureDelta(_) => start.kind.TextStart? && start.phase == CT.Reasoning
      case ToolInputDelta(_) => start.kind.ToolStart?
  }

  predicate AllHeard(es: seq<CT.Event>) {
    es == [] || (AllHeard(es[..|es| - 1]) && Heard(es[..|es| - 1], es[|es| - 1].payload))
  }

  /** How a block is open for the server, and how it was written. */
  ghost predicate OpenAs(start: Option<CT.Payload>, s: Server, index: nat) {
    match start
    case None => index !in OpenBlocks(s.written) && PhaseAt(s, index) == CT.Normal
    case Some(p) =>
      && p.ContentStart? && index in OpenBlocks(s.written) && PhaseAt(s, index) == p.phase
      && match p.kind
         case TextStart => if p.phase == CT.Reasoning then OpenBlocks(s.written)[index].ThinkingBlock? else OpenBlocks(s.written)[index].TextBlock?
         case ToolStart(id, name) => OpenBlocks(s.written)[index] == ToolBlock(id, name)
         case NoStart => OpenBlocks(s.written)[index].OtherBlock?
  }

  ghost predicate AllOpen(es: seq<CT.Event>, s: Server) {
    forall i: nat :: OpenAs(OpenStart(es, i), s, i)
  }

  lemma OpenMore(es: seq<StreamEvent>, e: StreamEvent)
    ensures var open := OpenBlocks(es);
            OpenBlocks(es + [e]) == if e.Start? then open[e.index := e.block] else if e.Stop? then open - {e.index} else open
  {
    assert (es + [e])[..|es|] == es;
  }

  lemma EncodedOpen(s: Server, e: CT.Event, index: nat)
    ensures var p, open, open' := e.payload, OpenBlocks(s.written), OpenBlocks(Encode(s, e).written);
            if !About(p, index) then (index in open' <==> index in open) && (index in open ==> open'[index] == open[index])
            else if p.ContentStart? then index in open' && open'[index] == StartOf(p.phase, p.kind)
            else index !in open'
  {
    hide TokensOf, StopReasonOf, DeltaOf, StartOf, OpenBlocks;
    match e.payload
    case MessageStart(id, model) => OpenMore(s.written, MessageStart(id, model, TokensOf(e.usage)));
    case ContentStart(_, i, phase, kind) => OpenMore(s.written, Start(i, StartOf(phase, kind)));
    case ContentDelta(i, d) => OpenMore(s.written, Delta(i, DeltaOf(PhaseAt(s, i), d)));
    case ContentStop(i) => OpenMore(s.written, Stop(i));
    case ContentSnapshot(c) =>
      var i := if c.index.Some? then c.index.value else 0;
      if c.body.Opaque? {
        OpenMore(s.written, Start(i, RedactedBlock(c.body.data)));
        OpenMore(s.written + [Start(i, RedactedBlock(c.body.data))], Stop(i));
      }
    case MessageStop(status) => OpenMore(s.written, MessageDelta(StopReasonOf(status), TokensOf(e.usage)));
    case NoPayload =>
  }

  lemma StartMore(es: seq<CT.Event>, e: CT.Event, index: nat)
    ensures OpenStart(es + [e], index) ==
            if !About(e.payload, index) then OpenStart(es, index) else if e.payload.ContentStart? then Some(e.payload) else None
  {
    assert (es + [e])[..|es|] == es;
  }

  lemma StillOpen(start: Option<CT.Payload>, s: Server, e: CT.Event, index: nat)
    requires OpenAs(start, s, index)
    ensures OpenAs(if !About(e.payload, index) then start else if e.payload.ContentStart? then Some(e.payload) else None, Encode(s, e), index)
  {
    EncodedOpen(s, e, index);
    EncodedPhase(s, e, index);
    hide Encode, OpenBlocks, PhaseAt, About;
  }

  lemma StepOpen(es: seq<CT.Event>, s: Server, e: CT.Event)
    requires AllOpen(es, s)
    ensures AllOpen(es + [e], Encode(s, e))
  {
    hide OpenAs, Encode, OpenStart, About;
    forall i: nat
      ensures OpenAs(OpenStart(es + [e], i), Encode(s, e), i)
    {
      StartMore(es, e, i);
      StillOpen(OpenStart(es, i), s, e, i);
    }
  }

  lemma SuitMore(es: seq<StreamEvent>, e: StreamEvent)
    ensures DeltasSuit(es + [e]) <==> DeltasSuit(es) && SuitsOpen(OpenBlocks(es), e)
  {
    assert (es + [e])[..|es|] == es;
  }

  lemma EncodedSuits(s: Server, e: CT.Event)
    ensures DeltasSuit(Encode(s, e).written) <==>
            && DeltasSuit(s.written)
            && var p, open := e.payload, OpenBlocks(s.written);
               p.ContentDelta? ==> p.index in open && Suits(open[p.index], DeltaOf(PhaseAt(s, p.index), p.delta))
  {
    hide TokensOf, StopReasonOf, DeltaOf, StartOf, OpenBlocks, DeltasSuit, Suits;
    match e.payload
    case MessageStart(id, model) => SuitMore(s.written, MessageStart(id, model, TokensOf(e.usage)));
    case ContentStart(_, i, phase, kind) => SuitMore(s.written, Start(i, StartOf(phase, kind)));
    case ContentDelta(i, d) => SuitMore(s.written, Delta(i, DeltaOf(PhaseAt(s, i), d)));
    case ContentStop(i) => SuitMore(s.written, Stop(i));
    case ContentSnapshot(c) =>
      var i := if c.index.Some? then c.index.value else 0;
      if c.body.Opaque? {
        SuitMore(s.written, Start(i, RedactedBlock(c.body.data)));
        SuitMore(s.written + [Start(i, RedactedBlock(c.body.data))], Stop(i));
      }
    case MessageStop(status) => SuitMore(s.written, MessageDelta(StopReasonOf(status), TokensOf(e.usage)));
    case NoPayload =>
  }

  lemma DeltaHeard(es: seq<CT.Event>, s: Server, p: CT.Payload)
    requires AllOpen(es, s) && p.ContentDelta?
    ensures var open := OpenBlocks(s.written);
            Heard(es, p) <==> p.index in open && Suits(open[p.index], DeltaOf(PhaseAt(s, p.index), p.delta))
  {
    assert OpenAs(OpenStart(es, p.index), s, p.index);
    hide OpenStart, OpenBlocks, PhaseAt;
  }

  /**
   For every stream of events, interleaved or not: every delta that is written belongs to an open block of its own kind,
   if and only if every delta of the stream suits the start by which its block is open.
   */
  lemma {:induction false} WrittenSuits(es: seq<CT.Event>)
    ensures DeltasSuit(Encoded(es).written) <==> AllHeard(es)
    ensures AllOpen(es, Encoded(es))
  {
    if es != [] {
      var front, e := es[..|es| - 1], es[|es| - 1];
      WrittenSuits(front);
      assert front + [e] == es;
      hide AllOpen, DeltasSuit, Encode, Heard, OpenBlocks;
      StepOpen(front, Encoded(front), e);
      EncodedSuits(Encoded(front), e);
      if e.payload.ContentDelta? {
        DeltaHeard(front, Encoded(front), e.payload);
      } else {
        AlwaysHeard(front, e.payload);
      }
    }
  }

  lemma AlwaysHeard(es: seq<CT.Event>, p: CT.Payload)
    requires !p.ContentDelta?
    ensures Heard(es, p)
  {
  }
}
