/** Anthropic's message stream, decoded into chat events and encoded from them. */
module AnthropicStreams {
  import opened Basics
  import CT = ChatTypes

  datatype BlockStart =
    | TextBlock(text: string)
    | ThinkingBlock(thinking: string, signature: string)
    | RedactedBlock(data: string)
    | ToolBlock(id: string, name: string)
    | OtherBlock

  datatype BlockDelta =
    | TextDelta(text: string)
    | ThinkingDelta(text: string)
    | SignatureDelta(text: string)
    | InputDelta(text: string)
    | OtherDelta

  datatype Tokens = Tokens(input: nat, output: nat, cacheRead: nat, cacheCreation: nat)

  datatype StreamEvent =
    | MessageStart(id: string, model: string, tokens: Tokens)
    | Start(index: nat, block: BlockStart)
    | Delta(index: nat, delta: BlockDelta)
    | Stop(index: nat)
    | MessageDelta(stopReason: string, tokens: Tokens)
    | MessageStop
    | Other                                                // ping and everything not listened for

  const NO_TOKENS := Tokens(0, 0, 0, 0)

  function StatusFrom(stopReason: string): CT.Status {
    if stopReason == "tool_use" then CT.PendingToolUse
    else if stopReason == "end_turn" || stopReason == "stop_sequence" then CT.Completed
    else if stopReason == "max_tokens" then CT.ReachedTokenLimit
    else if stopReason == "refusal" then CT.Refused
    else CT.InProgress
  }

  function StopReasonOf(s: CT.Status): string {
    match s
    case Refused => "refusal"
    case PendingToolUse => "tool_use"
    case ReachedTokenLimit => "max_tokens"
    case _ => "end_turn"
  }

  function UsageFrom(t: Tokens): Option<CT.Usage> {
    if t == NO_TOKENS then None
    else Some(CT.Usage(t.input + t.cacheRead + t.cacheCreation, t.output, t.cacheRead + t.cacheCreation, 0))
  }

  function TokensOf(u: Option<CT.Usage>): Tokens {
    if u.None? then NO_TOKENS else Tokens(MaxInt(u.value.input - u.value.cached, 0), u.value.output, u.value.cached, 0)
  }

  // ----- The decoding client -----

  /** `pending` are the blocks whose stop is still to be swallowed, because a snapshot has stood for the whole block. */
  datatype Client = Client(pending: set<nat>, emitted: seq<CT.Event>)

  function Emit(c: Client, requestId: string, usage: Option<CT.Usage>, p: CT.Payload): Client {
    c.(emitted := c.emitted + [CT.Event(requestId, usage, p)])
  }

  function EmitText(c: Client, requestId: string, index: nat, text: string): Client {
    if text == "" then c else Emit(c, requestId, None, CT.ContentDelta(index, CT.TextDelta(text)))
  }

  function EmitSignature(c: Client, requestId: string, index: nat, text: string): Client {
    if text == "" then c else Emit(c, requestId, None, CT.ContentDelta(index, CT.SignatureDelta(text)))
  }

  function OnStart(c: Client, requestId: string, index: nat, b: BlockStart): Client {
    match b
    case TextBlock(text) =>
      EmitText(Emit(c, requestId, None, CT.ContentStart("", index, CT.Normal, CT.TextStart)), requestId, index, text)
    case ThinkingBlock(thinking, signature) =>
      var c := Emit(c, requestId, None, CT.ContentStart("", index, CT.Reasoning, CT.TextStart));
      EmitSignature(EmitText(c, requestId, index, thinking), requestId, index, signature)
    case RedactedBlock(data) =>
      Emit(c.(pending := c.pending + {index}), requestId, None,
           CT.ContentSnapshot(CT.Content("", Some(index), CT.Reasoning, "", CT.Opaque(data))))
    case ToolBlock(id, name) => Emit(c, requestId, None, CT.ContentStart("", index, CT.Normal, CT.ToolStart(id, name)))
    case OtherBlock => c
  }

  function OnDelta(c: Client, requestId: string, index: nat, d: BlockDelta): Client {
    match d
    case TextDelta(text) => Emit(c, requestId, None, CT.ContentDelta(index, CT.TextDelta(text)))
    case ThinkingDelta(text) => Emit(c, requestId, None, CT.ContentDelta(index, CT.TextDelta(text)))
    case SignatureDelta(text) => Emit(c, requestId, None, CT.ContentDelta(index, CT.SignatureDelta(text)))
    case InputDelta(text) => Emit(c, requestId, None, CT.ContentDelta(index, CT.ToolInputDelta(text)))
    case OtherDelta => c
  }

  function OnMessageDelta(c: Client, requestId: string, stopReason: string, tokens: Tokens): Client {
    if stopReason == "" && tokens == NO_TOKENS then c
    else Emit(c, requestId, UsageFrom(tokens), if stopReason == "" then CT.NoPayload else CT.MessageStop(StatusFrom(stopReason)))
  }

  function Decode(c: Client, requestId: string, e: StreamEvent): Client {
    match e
    case MessageStart(id, model, tokens) => Emit(c, requestId, UsageFrom(tokens), CT.MessageStart(id, model))
    case Start(index, b) => OnStart(c, requestId, index, b)
    case Delta(index, d) => OnDelta(c, requestId, index, d)
    case Stop(index) =>
      if index in c.pending then c.(pending := c.pending - {index}) else Emit(c, requestId, None, CT.ContentStop(index))
    case MessageDelta(stopReason, tokens) => OnMessageDelta(c, requestId, stopReason, tokens)
    case MessageStop => c
    case Other => c
  }

  function Decoded(requestId: string, es: seq<StreamEvent>): Client {
    if es == [] then Client({}, []) else Decode(Decoded(requestId, es[..|es| - 1]), requestId, es[|es| - 1])
  }

  class ChatStreamClient {
    const requestId: string
    var messageId: string
    var model: string
    var pendingSnapshotStops: set<nat>
    var yielded: seq<CT.Event>

    ghost function Value(): Client
      reads this
    {
      Client(pendingSnapshotStops, yielded)
    }

    constructor (requestId: string)
      ensures Value() == Client({}, []) && this.requestId == requestId
    {
      this.requestId := requestId;
      messageId, model, pendingSnapshotStops, yielded := "", "", {}, [];
    }

    method Yield(usage: Option<CT.Usage>, p: CT.Payload)
      modifies `yielded
      ensures yielded == old(yielded) + [CT.Event(requestId, usage, p)]
    {
      yielded := yielded + [CT.Event(requestId, usage, p)];
    }

    method ConvertStart(index: nat, b: BlockStart)
      modifies this
      ensures Value() == OnStart(old(Value()), requestId, index, b)
    {
      match b {
        case TextBlock(text) =>
          Yield(None, CT.ContentStart("", index, CT.Normal, CT.TextStart));
          if text != "" {
            Yield(None, CT.ContentDelta(index, CT.TextDelta(text)));
          }
        case ThinkingBlock(thinking, signature) =>
          Yield(None, CT.ContentStart("", index, CT.Reasoning, CT.TextStart));
          if thinking != "" {
            Yield(None, CT.ContentDelta(index, CT.TextDelta(thinking)));
          }
          if signature != "" {
            Yield(None, CT.ContentDelta(index, CT.SignatureDelta(signature)));
          }
        case RedactedBlock(data) =>
          pendingSnapshotStops := pendingSnapshotStops + {index};
          Yield(None, CT.ContentSnapshot(CT.Content("", Some(index), CT.Reasoning, "", CT.Opaque(data))));
        case ToolBlock(id, name) =>
          Yield(None, CT.ContentStart("", index, CT.Normal, CT.ToolStart(id, name)));
        case OtherBlock =>
      }
    }

    method ConvertDelta(index: nat, d: BlockDelta)
      modifies this
      ensures Value() == OnDelta(old(Value()), requestId, index, d)
    {
      match d {
        case TextDelta(text) => Yield(None, CT.ContentDelta(index, CT.TextDelta(text)));
        case ThinkingDelta(text) => Yield(None, CT.ContentDelta(index, CT.TextDelta(text)));
        case SignatureDelta(text) => Yield(None, CT.ContentDelta(index, CT.SignatureDelta(text)));
        case InputDelta(text) => Yield(None, CT.ContentDelta(index, CT.ToolInputDelta(text)));
        case OtherDelta =>
      }
    }

    method Convert(e: StreamEvent)
      modifies this
      ensures Value() == Decode(old(Value()), requestId, e)
    {
      match e {
        case MessageStart(id, model', tokens) =>
          messageId, model := id, model';
          Yield(UsageFrom(tokens), CT.MessageStart(id, model'));
        case Start(index, b) =>
          ConvertStart(index, b);
        case Delta(index, d) =>
          ConvertDelta(index, d);
        case Stop(index) =>
          if index in pendingSnapshotStops {
            pendingSnapshotStops := pendingSnapshotStops - {index};
          } else {
            Yield(None, CT.ContentStop(index));
          }
        case MessageDelta(stopReason, tokens) =>
          if stopReason != "" || tokens != NO_TOKENS {
            Yield(UsageFrom(tokens), if stopReason == "" then CT.NoPayload else CT.MessageStop(StatusFrom(stopReason)));
          }
        case MessageStop =>
        case Other =>
      }
    }
  }

  // ----- The encoding server -----

  datatype Server = Server(phases: map<nat, CT.Phase>, written: seq<StreamEvent>)

  function Write(s: Server, e: StreamEvent): Server {
    s.(written := s.written + [e])
  }

  function WriteStop(s: Server, index: nat): Server {
    Write(s.(phases := s.phases - {index}), Stop(index))
  }

  /** A start without content is written as a block of no type. */
  function StartOf(phase: CT.Phase, kind: CT.StartKind): BlockStart {
    match kind
    case TextStart => if phase.Reasoning? then ThinkingBlock("", "") else TextBlock("")
    case ToolStart(id, name) => ToolBlock(id, name)
    case NoStart => OtherBlock
  }

  function DeltaOf(phase: CT.Phase, d: CT.Delta): BlockDelta {
    match d
    case TextDelta(text) => if phase.Reasoning? then ThinkingDelta(text) else TextDelta(text)
    case SignatureDelta(text) => SignatureDelta(text)
    case ToolInputDelta(text) => InputDelta(text)
  }

  function PhaseAt(s: Server, index: nat): CT.Phase {
    if index in s.phases then s.phases[index] else CT.Normal
  }

  function OnSnapshot(s: Server, c: CT.Content): Server {
    var index := if c.index.Some? then c.index.value else 0;
    if c.body.Opaque? then WriteStop(Write(s, Start(index, RedactedBlock(c.body.data))), index) else s
  }

  function Encode(s: Server, e: CT.Event): Server {
    match e.payload
    case MessageStart(id, model) => Write(s, MessageStart(id, model, TokensOf(e.usage)))
    case ContentStart(_, index, phase, kind) => Write(s.(phases := s.phases[index := phase]), Start(index, StartOf(phase, kind)))
    case ContentDelta(index, d) => Write(s, Delta(index, DeltaOf(PhaseAt(s, index), d)))
    case ContentStop(index) => WriteStop(s, index)
    case ContentSnapshot(c) => OnSnapshot(s, c)
    case MessageStop(status) => Write(s, MessageDelta(StopReasonOf(status), TokensOf(e.usage)))
    case NoPayload => s
  }

  function Encoded(es: seq<CT.Event>): Server {
    if es == [] then Server(map[], []) else Encode(Encoded(es[..|es| - 1]), es[|es| - 1])
  }

  class MessageStreamServer {
    var blockPhases: map<nat, CT.Phase>
    var written: seq<StreamEvent>

    ghost function Value(): Server
      reads this
    {
      Server(blockPhases, written)
    }

    constructor ()
      ensures Value() == Server(map[], [])
    {
      blockPhases, written := map[], [];
    }

    method SendEvent(e: StreamEvent)
      modifies `written
      ensures Value() == Write(old(Value()), e)
    {
      written := written + [e];
    }

    method SendContentBlockStopEvent(index: nat)
      modifies this
      ensures Value() == WriteStop(old(Value()), index)
    {
      blockPhases := blockPhases - {index};
      SendEvent(Stop(index));
    }

    method Send(e: CT.Event)
      modifies this
      ensures Value() == Encode(old(Value()), e)
    {
      match e.payload {
        case MessageStart(id, model) =>
          SendEvent(MessageStart(id, model, TokensOf(e.usage)));
        case ContentStart(_, index, phase, kind) =>
          blockPhases := blockPhases[index := phase];
          SendEvent(Start(index, StartOf(phase, kind)));
        case ContentDelta(index, d) =>
          SendEvent(Delta(index, DeltaOf(if index in blockPhases then blockPhases[index] else CT.Normal, d)));
        case ContentStop(index) =>
          SendContentBlockStopEvent(index);
        case ContentSnapshot(c) =>
          var index := if c.index.Some? then c.index.value else 0;
          if c.body.Opaque? {
            SendEvent(Start(index, RedactedBlock(c.body.data)));
            SendContentBlockStopEvent(index);
          }
        case MessageStop(status) =>
          SendEvent(MessageDelta(StopReasonOf(status), TokensOf(e.usage)));
        case NoPayload =>
      }
    }

    /** What the handler sends once the chat is over. */
    method SendMessageStopEvent()
      modifies `written
      ensures Value() == Write(old(Value()), MessageStop)
    {
      SendEvent(MessageStop);
    }
  }

  // ----- What the server keeps in mind, and how its stream ends -----

  /** The event starts the block of an index, stops it, or is the whole of it. */
  predicate About(p: CT.Payload, index: nat) {
    (p.ContentStart? && p.index == index) || (p.ContentStop? && p.index == index)
    || (p.ContentSnapshot? && p.content.body.Opaque? && index == if p.content.index.Some? then p.content.index.value else 0)
  }

  /** The last event about a block is its start, as a thought. */
  ghost predicate IsThinking(es: seq<CT.Event>, index: nat) {
    exists k | 0 <= k < |es| ::
      && es[k].payload.ContentStart? && es[k].payload.index == index && es[k].payload.phase.Reasoning?
      && forall j | k < j < |es| :: !About(es[j].payload, index)
  }

  lemma {:induction false} PhaseRead(es: seq<CT.Event>, index: nat)
    ensures PhaseAt(Encoded(es), index).Reasoning? <==> IsThinking(es, index)
  {
    if es != [] {
      var front, e := es[..|es| - 1], es[|es| - 1];
      PhaseRead(front, index);
      EncodedPhase(Encoded(front), e, index);
      hide Encode;
      if IsThinking(front, index) && !About(e.payload, index) {
        var k :| 0 <= k < |front| && front[k].payload.ContentStart? && front[k].payload.index == index && front[k].payload.phase.Reasoning?
                 && forall j | k < j < |front| :: !About(front[j].payload, index);
        assert es[k] == front[k] && forall j | k < j < |es| - 1 :: es[j] == front[j];
      }
      if IsThinking(es, index) {
        var k :| 0 <= k < |es| && es[k].payload.ContentStart? && es[k].payload.index == index && es[k].payload.phase.Reasoning?
                 && forall j | k < j < |es| :: !About(es[j].payload, index);
        if k < |front| {
          assert front[k] == es[k] && forall j | k < j < |front| :: front[j] == es[j];
        }
      }
    }
  }

  lemma EncodedPhase(s: Server, e: CT.Event, index: nat)
    ensures PhaseAt(Encode(s, e), index) ==
            if !About(e.payload, index) then PhaseAt(s, index)
            else if e.payload.ContentStart? then e.payload.phase else CT.Normal
  {
  }

  /**
   After any stream of events, interleaved or not, text is written out as thinking if and only if the last event about
   its block, read off the stream, is its start as a thought.
   */
  lemma TextWritten(es: seq<CT.Event>, requestId: string, usage: Option<CT.Usage>, index: nat, text: string)
    ensures Encoded(es + [CT.Event(requestId, usage, CT.ContentDelta(index, CT.TextDelta(text)))]).written ==
            Encoded(es).written + [Delta(index, if IsThinking(es, index) then ThinkingDelta(text) else TextDelta(text))]
  {
    var e := CT.Event(requestId, usage, CT.ContentDelta(index, CT.TextDelta(text)));
    assert (es + [e])[..|es|] == es;
    PhaseRead(es, index);
    hide IsThinking;
  }

  /** What ends a turn, by the status that a message stops with: whatever is not one of three is an end like any other. */
  function Ending(s: CT.Status): string {
    if s == CT.PendingToolUse then "tool_use"
    else if s == CT.ReachedTokenLimit then "max_tokens"
    else if s == CT.Refused then "refusal"
    else "end_turn"
  }

  /** Of the tokens, input and cache together are the input that was reported, unless more was cached than that. */
  lemma StopWritten(es: seq<CT.Event>, requestId: string, usage: Option<CT.Usage>, status: CT.Status)
    ensures var w := Encoded(es + [CT.Event(requestId, usage, CT.MessageStop(status))]).written;
            && |w| == |Encoded(es).written| + 1 && Encoded(es).written <= w
            && var last := w[|w| - 1];
            && last.MessageDelta? && last.stopReason == Ending(status)
            && last.tokens.cacheCreation == 0
            && match usage
               case None => last.tokens.input == 0 && last.tokens.output == 0 && last.tokens.cacheRead == 0
               case Some(u) => last.tokens.output == u.output && last.tokens.cacheRead == u.cached
                               && last.tokens.input + last.tokens.cacheRead == if u.cached <= u.input then u.input else u.cached
  {
    var e := CT.Event(requestId, usage, CT.MessageStop(status));
    assert (es + [e])[..|es|] == es;
  }

  /** The server itself never ends the stream: the handler does, and thereby once, and last. */
  lemma {:induction false} EndsOnce(es: seq<CT.Event>)
    ensures var w := Write(Encoded(es), MessageStop).written;
            w[|w| - 1] == MessageStop && forall k | 0 <= k < |w| - 1 :: !w[k].MessageStop?
  {
    if es != [] {
      var n := |es| - 1;
      EndsOnce(es[..n]);
      var v, w := Encoded(es[..n]).written, Encoded(es).written;
      assert forall k | 0 <= k < |v| :: Write(Encoded(es[..n]), MessageStop).written[k] == v[k];
      assert v <= w && forall k | |v| <= k < |w| :: !w[k].MessageStop?;
    }
  }
}
