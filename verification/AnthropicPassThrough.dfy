/**
 A message stream that is decoded and encoded again: the same blocks start, grow and stop at the same indices, if and only
 if nothing of note happens while a redacted block is open.
 */
module AnthropicPassThrough {
  import opened Basics
  import opened AnthropicStreams
  import CT = ChatTypes

  // ----- What passing through makes of one event -----

  function PassedTokens(t: Tokens): Tokens {
    Tokens(t.input, t.output, t.cacheRead + t.cacheCreation, 0)
  }

  /** Four reasons pass; any other says that the turn has ended. */
  function PassedReason(stopReason: string): string {
    if stopReason in ["tool_use", "max_tokens", "refusal"] then stopReason else "end_turn"
  }

  lemma ReasonPasses(stopReason: string)
    ensures StopReasonOf(StatusFrom(stopReason)) == PassedReason(stopReason)
  {
  }

  function TextDeltas(index: nat, text: string): seq<StreamEvent> {
    if text == "" then [] else [Delta(index, TextDelta(text))]
  }

  function ThinkingDeltas(index: nat, thinking: string, signature: string): seq<StreamEvent> {
    (if thinking == "" then [] else [Delta(index, ThinkingDelta(thinking))])
    + (if signature == "" then [] else [Delta(index, SignatureDelta(signature))])
  }

  /** Text inside a block start becomes a delta of its own; cache creation counts as reading; the stop reasons are four. */
  function Split(e: StreamEvent): seq<StreamEvent> {
    match e
    case MessageStart(id, model, tokens) => [MessageStart(id, model, PassedTokens(tokens))]
    case Start(index, TextBlock(text)) => [Start(index, TextBlock(""))] + TextDeltas(index, text)
    case Start(index, ThinkingBlock(thinking, signature)) => [Start(index, ThinkingBlock("", ""))] + ThinkingDeltas(index, thinking, signature)
    case Start(index, b) => [Start(index, b)]
    case Delta(_, d) => if d.OtherDelta? then [] else [e]
    case Stop(_) => [e]
    case MessageDelta(stopReason, tokens) =>
      if stopReason == "" then [] else [MessageDelta(PassedReason(stopReason), PassedTokens(tokens))]
    case MessageStop => []
    case Other => []
  }

  function SplitAll(es: seq<StreamEvent>): seq<StreamEvent> {
    if es == [] then [] else SplitAll(es[..|es| - 1]) + Split(es[|es| - 1])
  }

  // ----- Streams as the provider sends them -----

  function OpenBlocks(es: seq<StreamEvent>): map<nat, BlockStart> {
    if es == [] then map[] else
    var open, e := OpenBlocks(es[..|es| - 1]), es[|es| - 1];
    match e
    case Start(index, b) => open[index := b]
    case Stop(index) => open - {index}
    case _ => open
  }

  predicate Suits(b: BlockStart, d: BlockDelta) {
    match d
    case TextDelta(_) => b.TextBlock?
    case ThinkingDelta(_) => b.ThinkingBlock?
    case SignatureDelta(_) => b.ThinkingBlock?
    case InputDelta(_) => b.ToolBlock?
    case OtherDelta => true
  }

  /** Blocks of known types are started while closed, get deltas of their own kind, and are stopped while open. */
  predicate Proper(es: seq<StreamEvent>) {
    es == [] ||
    var front, e := es[..|es| - 1], es[|es| - 1];
    Proper(front) && Allowed(OpenBlocks(front), e)
  }

  predicate Allowed(open: map<nat, BlockStart>, e: StreamEvent) {
    match e
    case Start(index, b) => index !in open && !b.OtherBlock?
    case Delta(index, d) => d.OtherDelta? || (index in open && Suits(open[index], d))
    case Stop(index) => index in open
    case _ => true
  }

  /** Nothing is written for a ping, and whatever else passing through drops. */
  predicate Silent(e: StreamEvent) {
    Split(e) == []
  }

  /** The index of the redacted block that has been started last, if only silent events have followed. */
  function JustRedacted(es: seq<StreamEvent>): Option<nat> {
    if es == [] then None else
    var e := es[|es| - 1];
    if e.Start? && e.block.RedactedBlock? then Some(e.index) else if Silent(e) then JustRedacted(es[..|es| - 1]) else None
  }

  /** Between the start and the stop of a redacted block there are only silent events. */
  predicate Prompt(es: seq<StreamEvent>) {
    es == [] ||
    var front, e := es[..|es| - 1], es[|es| - 1];
    Prompt(front) && (JustRedacted(front).Some? ==> Silent(e) || e == Stop(JustRedacted(front).value))
  }

  // ----- Both ways at once -----

  function PhaseOf(b: BlockStart): CT.Phase {
    if b.ThinkingBlock? then CT.Reasoning else CT.Normal
  }

  /** The server knows the phases of the open blocks, and only those. */
  ghost predicate Knows(phases: map<nat, CT.Phase>, open: map<nat, BlockStart>) {
    && (forall i <- phases.Keys :: i in open && !open[i].RedactedBlock? && phases[i] == PhaseOf(open[i]))
    && (forall i <- open.Keys :: open[i].RedactedBlock? || i in phases)
  }

  function Passed(requestId: string, es: seq<StreamEvent>): Server {
    Encoded(Decoded(requestId, es).emitted)
  }

  lemma EncodedMore(es: seq<CT.Event>, e: CT.Event)
    ensures Encoded(es + [e]) == Encode(Encoded(es), e)
  {
    assert (es + [e])[..|es|] == es;
  }

  lemma EmitEncoded(c: Client, requestId: string, usage: Option<CT.Usage>, p: CT.Payload)
    ensures Encoded(Emit(c, requestId, usage, p).emitted) == Encode(Encoded(c.emitted), CT.Event(requestId, usage, p))
  {
    EncodedMore(c.emitted, CT.Event(requestId, usage, p));
  }

  /** What is written after a prefix: its events, split, and the stop of a redacted block before its time. */
  ghost predicate Aligned(c: Client, s: Server, open: map<nat, BlockStart>, j: Option<nat>, split: seq<StreamEvent>) {
    && s.written == split + (if j.Some? then [Stop(j.value)] else [])
    && c.pending == (if j.Some? then {j.value} else {})
    && Knows(s.phases, open)
    && (forall i <- open.Keys :: open[i].RedactedBlock? ==> j == Some(i))
    && (j.Some? ==> j.value in open && open[j.value].RedactedBlock?)
  }

  ghost predicate InStep(requestId: string, es: seq<StreamEvent>) {
    Aligned(Decoded(requestId, es), Passed(requestId, es), OpenBlocks(es), JustRedacted(es), SplitAll(es))
  }

  lemma TokensPass(t: Tokens)
    ensures TokensOf(UsageFrom(t)) == PassedTokens(t)
  {
  }

  lemma StartPassed(c: Client, requestId: string, index: nat, b: BlockStart)
    requires !b.RedactedBlock? && !b.OtherBlock?
    ensures var s, r := Encoded(c.emitted), OnStart(c, requestId, index, b);
            && r.pending == c.pending
            && Encoded(r.emitted).written == s.written + Split(Start(index, b))
            && Encoded(r.emitted).phases == s.phases[index := PhaseOf(b)]
  {
    hide Encoded;
    match b
    case TextBlock(text) =>
      EmitEncoded(c, requestId, None, CT.ContentStart("", index, CT.Normal, CT.TextStart));
      EmitEncoded(Emit(c, requestId, None, CT.ContentStart("", index, CT.Normal, CT.TextStart)), requestId, None,
                  CT.ContentDelta(index, CT.TextDelta(text)));
    case ThinkingBlock(thinking, signature) =>
      var d := Emit(c, requestId, None, CT.ContentStart("", index, CT.Reasoning, CT.TextStart));
      EmitEncoded(c, requestId, None, CT.ContentStart("", index, CT.Reasoning, CT.TextStart));
      EmitEncoded(d, requestId, None, CT.ContentDelta(index, CT.TextDelta(thinking)));
      EmitEncoded(EmitText(d, requestId, index, thinking), requestId, None, CT.ContentDelta(index, CT.SignatureDelta(signature)));
    case ToolBlock(id, name) =>
      EmitEncoded(c, requestId, None, CT.ContentStart("", index, CT.Normal, CT.ToolStart(id, name)));
  }

  lemma RedactedPassed(c: Client, requestId: string, index: nat, data: string)
    ensures var s, r := Encoded(c.emitted), OnStart(c, requestId, index, RedactedBlock(data));
            && r.pending == c.pending + {index}
            && Encoded(r.emitted).written == s.written + [Start(index, RedactedBlock(data))] + [Stop(index)]
            && Encoded(r.emitted).phases == s.phases - {index}
  {
    EmitEncoded(c.(pending := c.pending + {index}), requestId, None,
                CT.ContentSnapshot(CT.Content("", Some(index), CT.Reasoning, "", CT.Opaque(data))));
    hide Encoded;
  }

  lemma DeltaPassed(c: Client, requestId: string, index: nat, b: BlockStart, d: BlockDelta)
    requires Suits(b, d) && !d.OtherDelta? && PhaseAt(Encoded(c.emitted), index) == PhaseOf(b)
    ensures var s, r := Encoded(c.emitted), OnDelta(c, requestId, index, d);
            && r.pending == c.pending && Encoded(r.emitted).phases == s.phases
            && Encoded(r.emitted).written == s.written + [Delta(index, d)]
  {
    match d
    case TextDelta(text) => EmitEncoded(c, requestId, None, CT.ContentDelta(index, CT.TextDelta(text)));
    case ThinkingDelta(text) => EmitEncoded(c, requestId, None, CT.ContentDelta(index, CT.TextDelta(text)));
    case SignatureDelta(text) => EmitEncoded(c, requestId, None, CT.ContentDelta(index, CT.SignatureDelta(text)));
    case InputDelta(text) => EmitEncoded(c, requestId, None, CT.ContentDelta(index, CT.ToolInputDelta(text)));
  }

  lemma StartAligned(c: Client, requestId: string, open: map<nat, BlockStart>, split: seq<StreamEvent>, index: nat, b: BlockStart)
    requires Aligned(c, Encoded(c.emitted), open, None, split) && index !in open && !b.OtherBlock?
    ensures var r := OnStart(c, requestId, index, b);
            Aligned(r, Encoded(r.emitted), open[index := b], if b.RedactedBlock? then Some(index) else None, split + Split(Start(index, b)))
  {
    hide Encoded, OnStart;
    if b.RedactedBlock? {
      RedactedPassed(c, requestId, index, b.data);
    } else {
      StartPassed(c, requestId, index, b);
      hide Split;
    }
  }

  lemma DeltaAligned(c: Client, requestId: string, open: map<nat, BlockStart>, split: seq<StreamEvent>, index: nat, d: BlockDelta)
    requires Aligned(c, Encoded(c.emitted), open, None, split)
    requires d.OtherDelta? || (index in open && Suits(open[index], d))
    ensures var r := OnDelta(c, requestId, index, d);
            Aligned(r, Encoded(r.emitted), open, None, split + Split(Delta(index, d)))
  {
    hide Encoded;
    if d.OtherDelta? {
      assert split + [] == split;
    } else {
      DeltaPassed(c, requestId, index, open[index], d);
      hide OnDelta;
    }
  }

  lemma StopAligned(c: Client, requestId: string, open: map<nat, BlockStart>, j: Option<nat>, split: seq<StreamEvent>, index: nat)
    requires Aligned(c, Encoded(c.emitted), open, j, split) && index in open && (j.Some? ==> j == Some(index))
    ensures var r := Decode(c, requestId, Stop(index));
            Aligned(r, Encoded(r.emitted), open - {index}, None, split + [Stop(index)])
  {
    EmitEncoded(c, requestId, None, CT.ContentStop(index));
    hide Encoded;
    if j.Some? {
      assert {index} - {index} == {};
    } else {
      assert split + [] + [Stop(index)] == split + [Stop(index)];
    }
    assert split + [Stop(index)] + [] == split + [Stop(index)];
  }

  /** A silent event changes nothing, wherever it comes. */
  lemma SilentAligned(c: Client, requestId: string, open: map<nat, BlockStart>, j: Option<nat>, split: seq<StreamEvent>, e: StreamEvent)
    requires Aligned(c, Encoded(c.emitted), open, j, split) && Silent(e)
    ensures var r := Decode(c, requestId, e);
            Aligned(r, Encoded(r.emitted), open, j, split + Split(e))
  {
    hide Encoded, Knows, StatusFrom, StopReasonOf, UsageFrom;
    assert split + [] == split;
    if e.MessageDelta? {
      EmitEncoded(c, requestId, UsageFrom(e.tokens), CT.NoPayload);
    }
  }

  lemma MessageAligned(c: Client, requestId: string, open: map<nat, BlockStart>, split: seq<StreamEvent>, e: StreamEvent)
    requires Aligned(c, Encoded(c.emitted), open, None, split) && (e.MessageStart? || e.MessageDelta? || e.MessageStop? || e.Other?)
    ensures var r := Decode(c, requestId, e);
            Aligned(r, Encoded(r.emitted), open, None, split + Split(e))
  {
    hide Encoded, StatusFrom, StopReasonOf, UsageFrom, TokensOf, Knows;
    assert split + [] == split;
    match e
    case MessageStart(id, model, tokens) =>
      TokensPass(tokens);
      EmitEncoded(c, requestId, UsageFrom(tokens), CT.MessageStart(id, model));
    case MessageDelta(stopReason, tokens) => MessageDeltaAligned(c, requestId, open, split, stopReason, tokens);
    case _ =>
  }

  lemma MessageDeltaAligned(c: Client, requestId: string, open: map<nat, BlockStart>, split: seq<StreamEvent>, stopReason: string, tokens: Tokens)
    requires Aligned(c, Encoded(c.emitted), open, None, split)
    ensures var r := OnMessageDelta(c, requestId, stopReason, tokens);
            Aligned(r, Encoded(r.emitted), open, None, split + Split(MessageDelta(stopReason, tokens)))
  {
    hide Encoded, StatusFrom, StopReasonOf, UsageFrom, TokensOf, Knows, PassedReason;
    assert split + [] == split;
    TokensPass(tokens);
    ReasonPasses(stopReason);
    EmitEncoded(c, requestId, UsageFrom(tokens), if stopReason == "" then CT.NoPayload else CT.MessageStop(StatusFrom(stopReason)));
  }

  /** The stream functions, one event further. */
  lemma OneMore(requestId: string, front: seq<StreamEvent>, e: StreamEvent, es: seq<StreamEvent>)
    requires es == front + [e]
    ensures Decoded(requestId, es) == Decode(Decoded(requestId, front), requestId, e)
    ensures SplitAll(es) == SplitAll(front) + Split(e)
    ensures JustRedacted(es) ==
            if e.Start? && e.block.RedactedBlock? then Some(e.index) else if Silent(e) then JustRedacted(front) else None
    ensures OpenBlocks(es) == match e
                              case Start(index, b) => OpenBlocks(front)[index := b]
                              case Stop(index) => OpenBlocks(front) - {index}
                              case _ => OpenBlocks(front)
    ensures Silent(e) ==> OpenBlocks(es) == OpenBlocks(front)
    ensures Proper(es) <==> Proper(front) && Allowed(OpenBlocks(front), e)
    ensures Prompt(es) <==> Prompt(front) && (JustRedacted(front).Some? ==> Silent(e) || e == Stop(JustRedacted(front).value))
  {
    assert es[..|es| - 1] == front && es[|es| - 1] == e;
  }

  lemma StepInStep(requestId: string, front: seq<StreamEvent>, e: StreamEvent, es: seq<StreamEvent>)
    requires es == front + [e] && Proper(es) && Prompt(es) && InStep(requestId, front)
    ensures InStep(requestId, es)
  {
    OneMore(requestId, front, e, es);
    var c, open, split := Decoded(requestId, front), OpenBlocks(front), SplitAll(front);
    hide Encoded, Aligned, Decoded, OpenBlocks, SplitAll, JustRedacted, OnStart, OnDelta, Proper, Prompt;
    if Silent(e) {
      SilentAligned(c, requestId, open, JustRedacted(front), split, e);
    } else {
      match e
      case Start(index, b) => StartAligned(c, requestId, open, split, index, b);
      case Delta(index, d) => DeltaAligned(c, requestId, open, split, index, d);
      case Stop(index) => StopAligned(c, requestId, open, JustRedacted(front), split, index);
      case _ => MessageAligned(c, requestId, open, split, e);
    }
  }

  lemma {:induction false} PromptInStep(requestId: string, es: seq<StreamEvent>)
    requires Proper(es) && Prompt(es)
    ensures InStep(requestId, es)
  {
    if es == [] {
    } else {
      var front := es[..|es| - 1];
      assert front + [es[|es| - 1]] == es;
      PromptInStep(requestId, front);
      hide InStep;
      StepInStep(requestId, front, es[|es| - 1], es);
    }
  }

  // ----- And otherwise not -----

  /** What is written stays written. */
  lemma WrittenMore(c: Client, requestId: string, e: StreamEvent)
    ensures Encoded(c.emitted).written <= Encoded(Decode(c, requestId, e).emitted).written
  {
    var r := Decode(c, requestId, e);
    DecodedMore(c, requestId, e);
    EncodedGrows(c.emitted, r.emitted[|c.emitted|..]);
    hide Decode;
    assert c.emitted + r.emitted[|c.emitted|..] == r.emitted;
  }

  lemma DecodedMore(c: Client, requestId: string, e: StreamEvent)
    ensures c.emitted <= Decode(c, requestId, e).emitted
  {
  }

  lemma {:induction false} EncodedGrows(es: seq<CT.Event>, more: seq<CT.Event>)
    ensures Encoded(es).written <= Encoded(es + more).written
    decreases more
  {
    hide *;
    if more == [] {
      assert es + more == es;
    } else {
      var n := |more| - 1;
      EncodedGrows(es, more[..n]);
      assert es + more == es + more[..n] + [more[n]];
      EncodedMore(es + more[..n], more[n]);
      EncodeGrows(Encoded(es + more[..n]), more[n]);
    }
  }

  lemma EncodeGrows(s: Server, e: CT.Event)
    ensures s.written <= Encode(s, e).written
  {
  }

  /** One event has come out where another belongs. */
  ghost predicate Differ(w: seq<StreamEvent>, z: seq<StreamEvent>) {
    exists p :: 0 <= p < |w| && p < |z| && w[p] != z[p]
  }

  ghost predicate OutOfOrder(requestId: string, es: seq<StreamEvent>) {
    Differ(Passed(requestId, es).written, SplitAll(es))
  }

  lemma StillDiffer(w: seq<StreamEvent>, w': seq<StreamEvent>, z: seq<StreamEvent>, more: seq<StreamEvent>)
    requires Differ(w, z) && w <= w'
    ensures Differ(w', z + more)
  {
    var p :| 0 <= p < |w| && p < |z| && w[p] != z[p];
    assert w'[p] == w[p] && (z + more)[p] == z[p];
  }

  lemma DifferNext(z: seq<StreamEvent>, x: StreamEvent, w: seq<StreamEvent>, more: seq<StreamEvent>)
    requires z + [x] <= w && more != [] && more[0] != x
    ensures Differ(w, z + more)
  {
    assert w[|z|] == (z + [x])[|z|] == x && (z + more)[|z|] == more[0];
  }

  lemma SplitHead(e: StreamEvent, index: nat)
    requires !Silent(e) && e != Stop(index)
    ensures Split(e) != [] && Split(e)[0] != Stop(index)
  {
  }

  lemma {:induction false} LateOutOfOrder(requestId: string, es: seq<StreamEvent>)
    requires Proper(es) && !Prompt(es)
    ensures OutOfOrder(requestId, es)
  {
    hide *;
    PromptAtFirst();
    var front, e := es[..|es| - 1], es[|es| - 1];
    assert front + [e] == es;
    OneMore(requestId, front, e, es);
    WrittenMore(Decoded(requestId, front), requestId, e);
    PassedIs(requestId, front);
    PassedIs(requestId, es);
    var w, w', z := Passed(requestId, front).written, Passed(requestId, es).written, SplitAll(front);
    if Prompt(front) {
      PromptInStep(requestId, front);
      JustRedactedWritten(requestId, front);
      SplitHead(e, JustRedacted(front).value);
      DifferNext(z, Stop(JustRedacted(front).value), w', Split(e));
    } else {
      LateOutOfOrder(requestId, front);
      StillDiffer(w, w', z, Split(e));
    }
  }

  lemma PassedIs(requestId: string, es: seq<StreamEvent>)
    ensures Passed(requestId, es) == Encoded(Decoded(requestId, es).emitted)
    ensures OutOfOrder(requestId, es) <==> Differ(Passed(requestId, es).written, SplitAll(es))
  {
    hide Encoded, Decoded, SplitAll, Differ;
  }

  lemma PromptAtFirst()
    ensures Prompt([])
  {
  }

  lemma JustRedactedWritten(requestId: string, es: seq<StreamEvent>)
    requires InStep(requestId, es) && JustRedacted(es).Some?
    ensures Passed(requestId, es).written == SplitAll(es) + [Stop(JustRedacted(es).value)]
  {
  }

  /**
   Pass-through: a proper stream comes out as it went in, event by event, but for text inside block starts, which gets
   deltas of its own, and for the accounting of tokens and stop reasons, if and only if every redacted block is stopped
   before anything else that is passed on.
   */
  lemma PassesThrough(requestId: string, es: seq<StreamEvent>)
    requires Proper(es)
    ensures Passed(requestId, es).written == SplitAll(es) <==> Prompt(es) && JustRedacted(es).None?
  {
    hide Passed, SplitAll, Proper, Prompt, JustRedacted;
    if Prompt(es) {
      PromptInStep(requestId, es);
      if JustRedacted(es).Some? {
        JustRedactedWritten(requestId, es);
      }
    } else {
      LateOutOfOrder(requestId, es);
    }
  }
}
