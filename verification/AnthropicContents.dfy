/**
 What a Responses reader makes of Anthropic's stream, decoded and reduced: contents, status and usage, read off the
 provider's events.
 */
module AnthropicContents {
  import opened Basics
  import opened AnthropicStreams
  import CT = ChatTypes
  import R = Reducers

  // ----- Read off the provider's events -----

  /** A delta by what it carries; thinking is text of its block. */
  function Carried(d: BlockDelta): seq<CT.Delta> {
    match d
    case TextDelta(text) => [CT.TextDelta(text)]
    case ThinkingDelta(text) => [CT.TextDelta(text)]
    case SignatureDelta(text) => [CT.SignatureDelta(text)]
    case InputDelta(text) => [CT.ToolInputDelta(text)]
    case OtherDelta => []
  }

  /** The deltas for an index, up to where a block is started there anew. */
  function Deltas(index: nat, es: seq<StreamEvent>): seq<CT.Delta> {
    if es == [] || (es[0].Start? && es[0].index == index && !es[0].block.OtherBlock?) then []
    else (if es[0].Delta? && es[0].index == index then Carried(es[0].delta) else []) + Deltas(index, es[1..])
  }

  /** The content that a block starts as. */
  function Begun(index: nat, b: BlockStart): seq<CT.Content> {
    match b
    case TextBlock(text) => [CT.Content("", Some(index), CT.Normal, "", CT.Text(text))]
    case ThinkingBlock(thinking, signature) => [CT.Content("", Some(index), CT.Reasoning, signature, CT.Text(thinking))]
    case RedactedBlock(data) => [CT.Content("", Some(index), CT.Reasoning, "", CT.Opaque(data))]
    case ToolBlock(id, name) => [CT.Content("", Some(index), CT.Normal, "", CT.ToolUse(id, name, []))]
    case OtherBlock => []
  }

  /** The contents in the order in which their blocks start, each with the deltas for it. */
  function Heard(es: seq<StreamEvent>): seq<CT.Content> {
    if es == [] then [] else
    var begun := if es[0].Start? then Begun(es[0].index, es[0].block) else [];
    (if begun == [] then [] else [R.Grown(begun[0], Deltas(es[0].index, es[1..]))]) + Heard(es[1..])
  }

  // ----- The client, from some point on -----

  function New(c: Client, requestId: string, e: StreamEvent): seq<CT.Event> {
    var r := Decode(c, requestId, e);
    if c.emitted <= r.emitted then r.emitted[|c.emitted|..] else []
  }

  function Events(c: Client, requestId: string, es: seq<StreamEvent>): seq<CT.Event>
    decreases es
  {
    if es == [] then [] else New(c, requestId, es[0]) + Events(Decode(c, requestId, es[0]), requestId, es[1..])
  }

  lemma NewAdded(c: Client, requestId: string, e: StreamEvent)
    ensures Decode(c, requestId, e).emitted == c.emitted + New(c, requestId, e)
  {
  }

  lemma {:induction false} EventsOf(requestId: string, front: seq<StreamEvent>, es: seq<StreamEvent>)
    ensures Decoded(requestId, front + es).emitted == Decoded(requestId, front).emitted + Events(Decoded(requestId, front), requestId, es)
    decreases es
  {
    var c := Decoded(requestId, front);
    if es == [] {
      assert front + es == front && c.emitted + [] == c.emitted;
    } else {
      assert front + es == (front + [es[0]]) + es[1..] && (front + [es[0]])[..|front|] == front;
      EventsOf(requestId, front + [es[0]], es[1..]);
      NewAdded(c, requestId, es[0]);
      AppendAssociates(c.emitted, New(c, requestId, es[0]), Events(Decode(c, requestId, es[0]), requestId, es[1..]));
      hide Decode, New;
    }
  }

  // ----- One event -----

  function Known(e: StreamEvent): bool {
    e.Start? && !e.block.OtherBlock?
  }

  /** What one event adds to the reading of what follows. */
  ghost predicate Reads(e: StreamEvent, xs: seq<CT.Event>, rest: seq<CT.Event>) {
    && R.Denote(xs + rest) ==
       (if Known(e) then [R.Grown(Begun(e.index, e.block)[0], R.Owned(Some(e.index), rest))] else []) + R.Denote(rest)
    && forall i: nat :: R.Owned(Some(i), xs + rest) ==
                        if Known(e) && e.index == i then []
                        else (if e.Delta? && e.index == i then Carried(e.delta) else []) + R.Owned(Some(i), rest)
  }

  /** An event that opens nothing and carries nothing. */
  lemma PlainRead(e: StreamEvent, x: CT.Event, rest: seq<CT.Event>)
    requires !Known(e) && (e.Delta? ==> Carried(e.delta) == []) && R.Opened(x.payload).None? && !x.payload.ContentDelta?
    ensures Reads(e, [x], rest)
  {
    hide R.Denote, R.Owned, R.Grown;
    R.DenotedInFront(x, rest);
    assert [] + R.Denote(rest) == R.Denote(rest);
    forall i: nat ensures R.Owned(Some(i), [x] + rest) == [] + R.Owned(Some(i), rest) {
      R.OwnedHead(Some(i), x, rest);
    }
  }

  lemma NothingRead(e: StreamEvent, rest: seq<CT.Event>)
    requires !Known(e) && (e.Delta? ==> Carried(e.delta) == [])
    ensures Reads(e, [], rest)
  {
    hide R.Denote, R.Owned, R.Grown;
    assert [] + rest == rest && [] + R.Denote(rest) == R.Denote(rest);
    assert forall i: nat :: [] + R.Owned(Some(i), rest) == R.Owned(Some(i), rest);
  }

  lemma DeltaRead(e: StreamEvent, x: CT.Event, rest: seq<CT.Event>)
    requires e.Delta? && x.payload.ContentDelta? && x.payload.index == e.index && Carried(e.delta) == [x.payload.delta]
    ensures Reads(e, [x], rest)
  {
    hide R.Denote, R.Owned, R.Grown;
    R.DenotedInFront(x, rest);
    assert [] + R.Denote(rest) == R.Denote(rest);
    forall i: nat ensures R.Owned(Some(i), [x] + rest) == (if e.index == i then Carried(e.delta) else []) + R.Owned(Some(i), rest) {
      R.OwnedHead(Some(i), x, rest);
      assert [] + R.Owned(Some(i), rest) == R.Owned(Some(i), rest);
    }
  }

  /** A start, with deltas of its own. */
  lemma StartRead(e: StreamEvent, x: CT.Event, ds: seq<CT.Event>, rest: seq<CT.Event>)
    requires Known(e) && R.Opened(x.payload).Some? && !x.payload.ContentDelta? && R.Opened(x.payload).value.index == Some(e.index)
    requires |ds| <= 2 && forall k | 0 <= k < |ds| :: ds[k].payload.ContentDelta? && ds[k].payload.index == e.index
    requires Begun(e.index, e.block)[0] ==
             var c := R.Opened(x.payload).value;
             if ds == [] then c
             else if |ds| == 1 then R.ApplyDelta(c, ds[0].payload.delta)
             else R.ApplyDelta(R.ApplyDelta(c, ds[0].payload.delta), ds[1].payload.delta)
    ensures Reads(e, [x] + ds, rest)
  {
    hide R.Denote, R.Owned, R.Grown, R.ApplyDelta, Begun;
    var c := R.Opened(x.payload).value;
    assert [x] + ds + rest == [x] + (ds + rest);
    R.DenotedInFront(x, ds + rest);
    GrownFirst(e.index, c, ds, rest);
    forall i: nat ensures R.Owned(Some(i), [x] + (ds + rest)) == if e.index == i then [] else [] + R.Owned(Some(i), rest) {
      R.OwnedHead(Some(i), x, ds + rest);
      if i != e.index {
        NotOwned(i, e.index, ds, rest);
        assert [] + R.Owned(Some(i), rest) == R.Owned(Some(i), rest);
      }
    }
  }

  lemma NotOwned(i: nat, index: nat, ds: seq<CT.Event>, rest: seq<CT.Event>)
    requires |ds| <= 2 && (forall k | 0 <= k < |ds| :: ds[k].payload.ContentDelta? && ds[k].payload.index == index) && i != index
    ensures R.Owned(Some(i), ds + rest) == R.Owned(Some(i), rest)
  {
    hide R.Owned;
    if ds == [] {
      assert ds + rest == rest;
    } else {
      assert ds + rest == [ds[0]] + (ds[1..] + rest);
      R.OwnedHead(Some(i), ds[0], ds[1..] + rest);
      if |ds| == 1 {
        assert ds[1..] + rest == rest;
      } else {
        assert ds[1..] + rest == [ds[1]] + rest;
        R.OwnedHead(Some(i), ds[1], rest);
      }
    }
  }

  lemma GrownFirst(index: nat, c: CT.Content, ds: seq<CT.Event>, rest: seq<CT.Event>)
    requires |ds| <= 2 && forall k | 0 <= k < |ds| :: ds[k].payload.ContentDelta? && ds[k].payload.index == index
    ensures R.Denote(ds + rest) == R.Denote(rest)
    ensures R.Grown(c, R.Owned(Some(index), ds + rest)) ==
            R.Grown(if ds == [] then c
                    else if |ds| == 1 then R.ApplyDelta(c, ds[0].payload.delta)
                    else R.ApplyDelta(R.ApplyDelta(c, ds[0].payload.delta), ds[1].payload.delta), R.Owned(Some(index), rest))
  {
    hide R.Denote, R.Owned, R.Grown, R.ApplyDelta;
    if ds == [] {
      assert ds + rest == rest;
    } else {
      var more := ds[1..] + rest;
      assert ds + rest == [ds[0]] + more;
      R.OwnedHead(Some(index), ds[0], more);
      R.DenotedInFront(ds[0], more);
      R.GrownByOneMore(c, ds[0].payload.delta, R.Owned(Some(index), more));
      assert [] + R.Denote(more) == R.Denote(more);
      if |ds| == 1 {
        assert more == rest;
      } else {
        assert more == [ds[1]] + rest;
        R.OwnedHead(Some(index), ds[1], rest);
        R.DenotedInFront(ds[1], rest);
        R.GrownByOneMore(R.ApplyDelta(c, ds[0].payload.delta), ds[1].payload.delta, R.Owned(Some(index), rest));
        assert [] + R.Denote(rest) == R.Denote(rest);
      }
    }
  }

  lemma BlockRead(c: Client, requestId: string, e: StreamEvent, rest: seq<CT.Event>)
    requires Known(e)
    ensures Reads(e, New(c, requestId, e), rest)
  {
    hide Reads;
    var index := e.index;
    match e.block
    case TextBlock(text) =>
      var x := CT.Event(requestId, None, CT.ContentStart("", index, CT.Normal, CT.TextStart));
      var ds := if text == "" then [] else [CT.Event(requestId, None, CT.ContentDelta(index, CT.TextDelta(text)))];
      assert "" + text == text;
      assert Decode(c, requestId, e).emitted == c.emitted + ([x] + ds);
      StartRead(e, x, ds, rest);
    case ThinkingBlock(thinking, signature) =>
      var x := CT.Event(requestId, None, CT.ContentStart("", index, CT.Reasoning, CT.TextStart));
      var t := if thinking == "" then [] else [CT.Event(requestId, None, CT.ContentDelta(index, CT.TextDelta(thinking)))];
      var g := if signature == "" then [] else [CT.Event(requestId, None, CT.ContentDelta(index, CT.SignatureDelta(signature)))];
      assert "" + thinking == thinking && "" + signature == signature;
      assert Decode(c, requestId, e).emitted == c.emitted + ([x] + (t + g));
      StartRead(e, x, t + g, rest);
    case RedactedBlock(data) =>
      var x := CT.Event(requestId, None, CT.ContentSnapshot(CT.Content("", Some(index), CT.Reasoning, "", CT.Opaque(data))));
      assert Decode(c, requestId, e).emitted == c.emitted + ([x] + []);
      StartRead(e, x, [], rest);
    case ToolBlock(id, name) =>
      var x := CT.Event(requestId, None, CT.ContentStart("", index, CT.Normal, CT.ToolStart(id, name)));
      assert Decode(c, requestId, e).emitted == c.emitted + ([x] + []);
      StartRead(e, x, [], rest);
  }

  lemma OtherRead(c: Client, requestId: string, e: StreamEvent, rest: seq<CT.Event>)
    requires !Known(e)
    ensures Reads(e, New(c, requestId, e), rest)
  {
    hide Reads, UsageFrom, StatusFrom;
    var xs := New(c, requestId, e);
    NewAdded(c, requestId, e);
    if xs == [] {
      NothingRead(e, rest);
    } else if e.Delta? {
      DeltaRead(e, xs[0], rest);
    } else {
      PlainRead(e, xs[0], rest);
    }
  }

  // ----- Whole streams -----

  lemma {:induction false} EventsHeard(c: Client, requestId: string, es: seq<StreamEvent>)
    ensures R.Denote(Events(c, requestId, es)) == Heard(es)
    ensures forall i: nat :: R.Owned(Some(i), Events(c, requestId, es)) == Deltas(i, es)
    decreases es
  {
    hide *;
    NothingHeard(c, requestId);
    if es != [] {
      var e, rest := es[0], Events(Decode(c, requestId, es[0]), requestId, es[1..]);
      EventsHeard(Decode(c, requestId, e), requestId, es[1..]);
      FirstHeard(c, requestId, es);
      if Known(e) {
        BlockRead(c, requestId, e, rest);
      } else {
        OtherRead(c, requestId, e, rest);
      }
      ReadOut(e, New(c, requestId, e), rest);
    }
  }

  lemma NothingHeard(c: Client, requestId: string)
    ensures Events(c, requestId, []) == [] && Heard([]) == [] && R.Denote([]) == []
    ensures forall i: nat :: R.Owned(Some(i), []) == [] && Deltas(i, []) == []
  {
  }

  lemma FirstHeard(c: Client, requestId: string, es: seq<StreamEvent>)
    requires es != []
    ensures var e, later := es[0], es[1..];
            && Events(c, requestId, es) == New(c, requestId, e) + Events(Decode(c, requestId, e), requestId, later)
            && (if Known(e) then Begun(e.index, e.block) != []
                                 && Heard(es) == [R.Grown(Begun(e.index, e.block)[0], Deltas(e.index, later))] + Heard(later)
                else Heard(es) == Heard(later))
            && forall i: nat :: Deltas(i, es) == if Known(e) && e.index == i then []
                                                 else (if e.Delta? && e.index == i then Carried(e.delta) else []) + Deltas(i, later)
  {
    hide New, Decode, R.Grown, Carried;
    DeltasFirst(es);
    if !Known(es[0]) {
      assert [] + Heard(es[1..]) == Heard(es[1..]);
    }
    hide Deltas;
  }

  lemma DeltasFirst(es: seq<StreamEvent>)
    requires es != []
    ensures forall i: nat :: Deltas(i, es) ==
                             if Known(es[0]) && es[0].index == i then []
                             else (if es[0].Delta? && es[0].index == i then Carried(es[0].delta) else []) + Deltas(i, es[1..])
  {
    hide Carried;
  }

  lemma ReadOut(e: StreamEvent, xs: seq<CT.Event>, rest: seq<CT.Event>)
    requires Reads(e, xs, rest)
    ensures Known(e) ==> e.Start?
    ensures if Known(e) then Begun(e.index, e.block) != []
                             && R.Denote(xs + rest) == [R.Grown(Begun(e.index, e.block)[0], R.Owned(Some(e.index), rest))] + R.Denote(rest)
            else R.Denote(xs + rest) == R.Denote(rest)
    ensures forall i: nat :: R.Owned(Some(i), xs + rest) ==
                             if Known(e) && e.index == i then []
                             else (if e.Delta? && e.index == i then Carried(e.delta) else []) + R.Owned(Some(i), rest)
  {
    assert [] + R.Denote(rest) == R.Denote(rest);
    hide R.Denote, R.Owned, R.Grown;
  }

  /**
   For every stream of the provider, interleaved or not: the reduced contents are its blocks in the order of their starts,
   text as such, thinking and redacted thinking as reasoning, calls with their id and name, each with its own deltas.
   */
  lemma DecodedContents(requestId: string, es: seq<StreamEvent>)
    ensures CT.Contents(R.Run(R.EMPTY, Decoded(requestId, es).emitted).resp) == Heard(es)
  {
    EventsOf(requestId, [], es);
    assert [] + es == es && Decoded(requestId, []) == Client({}, []);
    assert [] + Events(Client({}, []), requestId, es) == Events(Client({}, []), requestId, es);
    hide R.Run, Decoded, Events, Heard;
    EventsHeard(Client({}, []), requestId, es);
    R.ReducerDenotes(Events(Client({}, []), requestId, es));
  }

  // ----- Id, model, status and usage -----

  function StartHeard(es: seq<StreamEvent>): (string, string) {
    if es == [] then ("", "") else
    var e := es[|es| - 1];
    if e.MessageStart? then (e.id, e.model) else StartHeard(es[..|es| - 1])
  }

  /** What the stop reasons mean; pauses and reasons to come leave the turn in progress. */
  function Meant(stopReason: string): CT.Status {
    if stopReason == "end_turn" then CT.Completed
    else if stopReason == "stop_sequence" then CT.Completed
    else if stopReason == "tool_use" then CT.PendingToolUse
    else if stopReason == "max_tokens" then CT.ReachedTokenLimit
    else if stopReason == "refusal" then CT.Refused
    else CT.InProgress
  }

  /** The last stop reason given. */
  function StatusHeard(es: seq<StreamEvent>): CT.Status {
    if es == [] then CT.Unspecified else
    var e := es[|es| - 1];
    if e.MessageDelta? && e.stopReason != "" then Meant(e.stopReason) else StatusHeard(es[..|es| - 1])
  }

  /** Input counts what was cached, read or written. */
  function Counted(f: R.UsageField, t: Tokens): nat {
    match f
    case InputTokens => t.input + t.cacheRead + t.cacheCreation
    case OutputTokens => t.output
    case CachedInputTokens => t.cacheRead + t.cacheCreation
    case ReasoningTokens => 0
  }

  /** The last count that is not zero. */
  function TokensHeard(f: R.UsageField, es: seq<StreamEvent>): nat {
    if es == [] then 0 else
    var e := es[|es| - 1];
    if (e.MessageStart? || e.MessageDelta?) && Counted(f, e.tokens) != 0 then Counted(f, e.tokens) else TokensHeard(f, es[..|es| - 1])
  }

  /** What the events say besides contents. */
  ghost predicate Says(es: seq<CT.Event>, start: (string, string), stop: CT.Status, f: R.UsageField, tokens: nat) {
    CT.LastStart(es) == start && CT.LastStop(es) == stop && R.LastReport(f, es) == tokens
  }

  lemma EmitSays(c: Client, requestId: string, usage: Option<CT.Usage>, p: CT.Payload, start: (string, string), stop: CT.Status, f: R.UsageField, tokens: nat)
    requires Says(c.emitted, start, stop, f, tokens)
    ensures Says(Emit(c, requestId, usage, p).emitted, if p.MessageStart? then (p.messageId, p.model) else start,
                 if p.MessageStop? then p.status else stop, f, if R.FieldOf(usage, f) != 0 then R.FieldOf(usage, f) else tokens)
  {
    assert Emit(c, requestId, usage, p).emitted[..|c.emitted|] == c.emitted;
  }

  lemma CountedUsage(f: R.UsageField, t: Tokens)
    ensures R.FieldOf(UsageFrom(t), f) == Counted(f, t)
  {
  }

  lemma MeantStatus(stopReason: string)
    ensures StatusFrom(stopReason) == Meant(stopReason)
  {
  }

  lemma DecodeSays(c: Client, requestId: string, e: StreamEvent, start: (string, string), stop: CT.Status, f: R.UsageField, tokens: nat)
    requires Says(c.emitted, start, stop, f, tokens)
    ensures Says(Decode(c, requestId, e).emitted, if e.MessageStart? then (e.id, e.model) else start,
                 if e.MessageDelta? && e.stopReason != "" then Meant(e.stopReason) else stop, f,
                 if (e.MessageStart? || e.MessageDelta?) && Counted(f, e.tokens) != 0 then Counted(f, e.tokens) else tokens)
  {
    hide Says, UsageFrom, StatusFrom, Meant, Counted, Emit;
    match e
    case MessageStart(id, model, t) =>
      CountedUsage(f, t);
      EmitSays(c, requestId, UsageFrom(t), CT.MessageStart(id, model), start, stop, f, tokens);
    case Start(index, b) => StartSays(c, requestId, index, b, start, stop, f, tokens);
    case Delta(index, d) => DeltaSays(c, requestId, index, d, start, stop, f, tokens);
    case Stop(index) => EmitSays(c, requestId, None, CT.ContentStop(index), start, stop, f, tokens);
      KeepsSaying(c, c.(pending := c.pending - {index}), start, stop, f, tokens);
    case MessageDelta(stopReason, t) =>
      CountedUsage(f, t);
      MeantStatus(stopReason);
      NoTokensCounted(f, t);
      EmitSays(c, requestId, UsageFrom(t), if stopReason == "" then CT.NoPayload else CT.MessageStop(StatusFrom(stopReason)), start, stop, f, tokens);
    case _ =>
  }

  lemma NoTokensCounted(f: R.UsageField, t: Tokens)
    ensures t == NO_TOKENS ==> Counted(f, t) == 0
  {
  }

  lemma KeepsSaying(c: Client, d: Client, start: (string, string), stop: CT.Status, f: R.UsageField, tokens: nat)
    requires Says(c.emitted, start, stop, f, tokens) && d.emitted == c.emitted
    ensures Says(d.emitted, start, stop, f, tokens)
  {
  }

  lemma DeltaSays(c: Client, requestId: string, index: nat, d: BlockDelta, start: (string, string), stop: CT.Status, f: R.UsageField, tokens: nat)
    requires Says(c.emitted, start, stop, f, tokens)
    ensures Says(OnDelta(c, requestId, index, d).emitted, start, stop, f, tokens)
  {
    hide Says, Emit;
    match d
    case TextDelta(text) => EmitSays(c, requestId, None, CT.ContentDelta(index, CT.TextDelta(text)), start, stop, f, tokens);
    case ThinkingDelta(text) => EmitSays(c, requestId, None, CT.ContentDelta(index, CT.TextDelta(text)), start, stop, f, tokens);
    case SignatureDelta(text) => EmitSays(c, requestId, None, CT.ContentDelta(index, CT.SignatureDelta(text)), start, stop, f, tokens);
    case InputDelta(text) => EmitSays(c, requestId, None, CT.ContentDelta(index, CT.ToolInputDelta(text)), start, stop, f, tokens);
    case OtherDelta =>
  }

  lemma StartSays(c: Client, requestId: string, index: nat, b: BlockStart, start: (string, string), stop: CT.Status, f: R.UsageField, tokens: nat)
    requires Says(c.emitted, start, stop, f, tokens)
    ensures Says(OnStart(c, requestId, index, b).emitted, start, stop, f, tokens)
  {
    hide Says;
    match b
    case TextBlock(text) =>
      var d := Emit(c, requestId, None, CT.ContentStart("", index, CT.Normal, CT.TextStart));
      EmitSays(c, requestId, None, CT.ContentStart("", index, CT.Normal, CT.TextStart), start, stop, f, tokens);
      EmitSays(d, requestId, None, CT.ContentDelta(index, CT.TextDelta(text)), start, stop, f, tokens);
    case ThinkingBlock(thinking, signature) =>
      var d := Emit(c, requestId, None, CT.ContentStart("", index, CT.Reasoning, CT.TextStart));
      EmitSays(c, requestId, None, CT.ContentStart("", index, CT.Reasoning, CT.TextStart), start, stop, f, tokens);
      EmitSays(d, requestId, None, CT.ContentDelta(index, CT.TextDelta(thinking)), start, stop, f, tokens);
      EmitSays(EmitText(d, requestId, index, thinking), requestId, None, CT.ContentDelta(index, CT.SignatureDelta(signature)), start, stop, f, tokens);
    case RedactedBlock(data) =>
      EmitSays(c.(pending := c.pending + {index}), requestId, None,
               CT.ContentSnapshot(CT.Content("", Some(index), CT.Reasoning, "", CT.Opaque(data))), start, stop, f, tokens);
    case ToolBlock(id, name) =>
      EmitSays(c, requestId, None, CT.ContentStart("", index, CT.Normal, CT.ToolStart(id, name)), start, stop, f, tokens);
    case OtherBlock =>
  }

  lemma {:induction false} DecodedSays(requestId: string, es: seq<StreamEvent>, f: R.UsageField)
    ensures Says(Decoded(requestId, es).emitted, StartHeard(es), StatusHeard(es), f, TokensHeard(f, es))
  {
    if es != [] {
      var n := |es| - 1;
      DecodedSays(requestId, es[..n], f);
      hide Says, Decode, Meant, Counted;
      DecodeSays(Decoded(requestId, es[..n]), requestId, es[n], StartHeard(es[..n]), StatusHeard(es[..n]), f, TokensHeard(f, es[..n]));
    }
  }

  /** Id and model are those of the last message start, the status is that of the last stop reason, counts are the last ones. */
  lemma DecodedHeader(requestId: string, es: seq<StreamEvent>, f: R.UsageField)
    ensures var r := R.Run(R.EMPTY, Decoded(requestId, es).emitted).resp;
            && (R.MessageOf(r).id, r.model) == StartHeard(es) && r.status == StatusHeard(es)
            && R.FieldOf(r.usage, f) == TokensHeard(f, es)
  {
    DecodedSays(requestId, es, f);
    R.HeaderIsLast(Decoded(requestId, es).emitted);
    R.UsageIsLastReport(Decoded(requestId, es).emitted, f);
    hide R.Run, Decoded, R.LastReport, CT.LastStart, CT.LastStop;
  }
}
