/** Streams in which one content follows the other, and what the reducer makes of them. */
module SequentialStreams {
  import opened Basics
  import opened ChatTypes
  import opened Reducers

  /** A content as it is streamed, or a complete one sent at once. */
  datatype Part =
    | Streamed(index: nat, id: string, phase: Phase, kind: StartKind, deltas: seq<Delta>)
    | Snapshot(content: Content)

  /** Deltas are of the kind of their content; snapshots are of opaque data, not empty if it is reasoning. */
  predicate Matching(b: Part) {
    match b
    case Streamed(_, _, _, kind, ds) =>
      forall k | 0 <= k < |ds| :: (ds[k].TextDelta? ==> !kind.ToolStart?) && (ds[k].ToolInputDelta? ==> !kind.TextStart?)
    case Snapshot(c) => c.body.Opaque? && (c.phase.Reasoning? ==> c.body.data != "")
  }

  function DeltaPayloads(index: nat, ds: seq<Delta>): seq<Payload> {
    if ds == [] then [] else [ContentDelta(index, ds[0])] + DeltaPayloads(index, ds[1..])
  }

  function Script(b: Part): seq<Payload> {
    match b
    case Streamed(index, id, phase, kind, ds) => [ContentStart(id, index, phase, kind)] + DeltaPayloads(index, ds) + [ContentStop(index)]
    case Snapshot(c) => [ContentSnapshot(c)]
  }

  function Scripts(bs: seq<Part>): seq<Payload> {
    if bs == [] then [] else Script(bs[0]) + Scripts(bs[1..])
  }

  function ContentOf(b: Part): Content {
    match b
    case Streamed(index, id, phase, kind, ds) => Grown(Content(id, Some(index), phase, "", StartedBody(kind)), ds)
    case Snapshot(c) => c
  }

  function ContentsOf(bs: seq<Part>): (cs: seq<Content>)
    ensures |cs| == |bs|
  {
    if bs == [] then [] else [ContentOf(bs[0])] + ContentsOf(bs[1..])
  }

  /** What the events carry, without those that only report usage. */
  function Payloads(es: seq<Event>): seq<Payload> {
    if es == [] then [] else (if es[0].payload.NoPayload? then [] else [es[0].payload]) + Payloads(es[1..])
  }

  /** One message, its contents one after the other, under one request id; nothing follows the end of the message. */
  ghost predicate Sequential(es: seq<Event>, requestId: string, messageId: string, model: string, bs: seq<Part>, status: Status) {
    && es != [] && es[|es| - 1].payload == MessageStop(status)
    && Payloads(es) == [MessageStart(messageId, model)] + Scripts(bs) + [MessageStop(status)]
    && (forall k | 0 <= k < |es| :: es[k].requestId == requestId)
    && (forall k | 0 <= k < |bs| :: Matching(bs[k]))
  }

  lemma {:induction false} PayloadsAppend(es: seq<Event>, e: Event)
    ensures Payloads(es + [e]) == Payloads(es) + if e.payload.NoPayload? then [] else [e.payload]
  {
    if es == [] {
      assert es + [e] == [e];
    } else {
      PayloadsAppend(es[1..], e);
      assert (es + [e])[1..] == es[1..] + [e];
    }
  }

  // ----- The contents -----

  function Bared(ps: seq<Payload>): (es: seq<Event>)
    ensures |es| == |ps|
  {
    if ps == [] then [] else [Bare(ps[0])] + Bared(ps[1..])
  }

  lemma BaredStep(p: Payload, rest: seq<Payload>)
    ensures var es := Bared([p] + rest); es[0] == Bare(p) && es[1..] == Bared(rest)
  {
    assert ([p] + rest)[1..] == rest;
  }

  lemma OwnedStep(i: Option<nat>, p: Payload, rest: seq<Payload>)
    ensures Owned(i, Bared([p] + rest)) ==
            if i.None? || (Opened(p).Some? && Opened(p).value.index == i) then []
            else (if p.ContentDelta? && i == Some(p.index) then [p.delta] else []) + Owned(i, Bared(rest))
  {
    BaredStep(p, rest);
  }

  lemma DenoteStep(p: Payload, rest: seq<Payload>)
    ensures Denote(Bared([p] + rest)) ==
            (if Opened(p).Some? then [Grown(Opened(p).value, Owned(Opened(p).value.index, Bared(rest)))] else []) + Denote(Bared(rest))
  {
    BaredStep(p, rest);
  }

  lemma {:induction false} OwnedBared(i: Option<nat>, es: seq<Event>)
    ensures Owned(i, Bared(Payloads(es))) == Owned(i, es)
    decreases es
  {
    if es != [] {
      OwnedBared(i, es[1..]);
      if es[0].payload.NoPayload? {
        assert Payloads(es) == Payloads(es[1..]);
        assert [] + Owned(i, es[1..]) == Owned(i, es[1..]);
      } else {
        OwnedStep(i, es[0].payload, Payloads(es[1..]));
      }
    }
  }

  lemma {:induction false} DenoteBared(es: seq<Event>)
    ensures Denote(Bared(Payloads(es))) == Denote(es)
  {
    if es != [] {
      DenoteBared(es[1..]);
      if es[0].payload.NoPayload? {
        assert Payloads(es) == Payloads(es[1..]);
      } else {
        DenoteStep(es[0].payload, Payloads(es[1..]));
        if Opened(es[0].payload).Some? {
          OwnedBared(Opened(es[0].payload).value.index, es[1..]);
        }
      }
    }
  }

  lemma {:induction false} OwnDeltas(index: nat, ds: seq<Delta>, rest: seq<Payload>)
    ensures Owned(Some(index), Bared(DeltaPayloads(index, ds) + rest)) == ds + Owned(Some(index), Bared(rest))
    decreases ds
  {
    hide Owned, Bared;
    var tail := Owned(Some(index), Bared(rest));
    if ds == [] {
      assert DeltaPayloads(index, ds) + rest == rest && ds + tail == tail;
    } else {
      var more := DeltaPayloads(index, ds[1..]) + rest;
      ConsAppend(ContentDelta(index, ds[0]), DeltaPayloads(index, ds[1..]), rest);
      assert DeltaPayloads(index, ds) + rest == [ContentDelta(index, ds[0])] + more;
      hide DeltaPayloads;
      OwnDeltas(index, ds[1..], rest);
      OwnedStep(Some(index), ContentDelta(index, ds[0]), more);
      assert [ds[0]] + ds[1..] == ds;
      ConsAppend(ds[0], ds[1..], tail);
    }
  }

  lemma {:induction false} OthersDeltas(i: Option<nat>, index: nat, ds: seq<Delta>, rest: seq<Payload>)
    requires i != Some(index)
    ensures Owned(i, Bared(DeltaPayloads(index, ds) + rest)) == Owned(i, Bared(rest))
    decreases ds
  {
    if i.None? {
      return;
    }
    hide Owned, Bared;
    if ds == [] {
      assert DeltaPayloads(index, ds) + rest == rest;
    } else {
      var more := DeltaPayloads(index, ds[1..]) + rest;
      ConsAppend(ContentDelta(index, ds[0]), DeltaPayloads(index, ds[1..]), rest);
      assert DeltaPayloads(index, ds) + rest == [ContentDelta(index, ds[0])] + more;
      hide DeltaPayloads;
      OthersDeltas(i, index, ds[1..], rest);
      OwnedStep(i, ContentDelta(index, ds[0]), more);
      assert [] + Owned(i, Bared(more)) == Owned(i, Bared(more));
    }
  }

  lemma {:induction false} DenoteDeltas(index: nat, ds: seq<Delta>, rest: seq<Payload>)
    ensures Denote(Bared(DeltaPayloads(index, ds) + rest)) == Denote(Bared(rest))
    decreases ds
  {
    hide Denote, Owned, Bared;
    if ds == [] {
      assert DeltaPayloads(index, ds) + rest == rest;
    } else {
      var more := DeltaPayloads(index, ds[1..]) + rest;
      ConsAppend(ContentDelta(index, ds[0]), DeltaPayloads(index, ds[1..]), rest);
      assert DeltaPayloads(index, ds) + rest == [ContentDelta(index, ds[0])] + more;
      hide DeltaPayloads;
      DenoteDeltas(index, ds[1..], rest);
      DenoteStep(ContentDelta(index, ds[0]), more);
    }
  }

  /** A streamed content, taken apart. */
  function AfterStart(index: nat, ds: seq<Delta>, rest: seq<Payload>): seq<Payload> {
    DeltaPayloads(index, ds) + ([ContentStop(index)] + rest)
  }

  lemma ScriptApart(b: Part, rest: seq<Payload>)
    ensures Script(b) + rest == match b
                                case Snapshot(c) => [ContentSnapshot(c)] + rest
                                case Streamed(index, id, phase, kind, ds) => [ContentStart(id, index, phase, kind)] + AfterStart(index, ds, rest)
  {
  }

  function Ending(bs: seq<Part>, status: Status): seq<Payload> {
    Scripts(bs) + [MessageStop(status)]
  }

  lemma EndingApart(bs: seq<Part>, status: Status)
    requires bs != []
    ensures Ending(bs, status) == Script(bs[0]) + Ending(bs[1..], status)
  {
  }

  /** No delta for i comes before i is opened again. */
  lemma {:induction false} NothingOwned(i: Option<nat>, bs: seq<Part>, status: Status)
    ensures Owned(i, Bared(Ending(bs, status))) == []
    decreases bs
  {
    if bs == [] {
      OwnedStep(i, MessageStop(status), []);
      assert Ending(bs, status) == [MessageStop(status)] + [];
    } else {
      var rest := Ending(bs[1..], status);
      NothingOwned(i, bs[1..], status);
      EndingApart(bs, status);
      ScriptApart(bs[0], rest);
      match bs[0]
      case Snapshot(c) =>
        OwnedStep(i, ContentSnapshot(c), rest);
      case Streamed(index, id, phase, kind, ds) =>
        OwnedStep(i, ContentStart(id, index, phase, kind), AfterStart(index, ds, rest));
        if i != Some(index) {
          OthersDeltas(i, index, ds, [ContentStop(index)] + rest);
        }
        OwnedStep(i, ContentStop(index), rest);
    }
  }

  lemma DenoteBlock(b: Part, bs: seq<Part>, status: Status)
    ensures Denote(Bared(Script(b) + Ending(bs, status))) == [ContentOf(b)] + Denote(Bared(Ending(bs, status)))
  {
    hide Denote, Owned, Bared, Grown, Script, Ending, DeltaPayloads;
    var rest := Ending(bs, status);
    ScriptApart(b, rest);
    match b
    case Snapshot(c) =>
      NothingOwned(c.index, bs, status);
      GrownByNothing(c);
      DenoteStep(ContentSnapshot(c), rest);
    case Streamed(index, id, phase, kind, ds) =>
      NothingOwned(Some(index), bs, status);
      OwnedStep(Some(index), ContentStop(index), rest);
      OwnDeltas(index, ds, [ContentStop(index)] + rest);
      assert ds + [] == ds;
      DenoteStep(ContentStop(index), rest);
      DenoteDeltas(index, ds, [ContentStop(index)] + rest);
      DenoteStep(ContentStart(id, index, phase, kind), AfterStart(index, ds, rest));
  }

  lemma {:induction false} DenoteScripts(bs: seq<Part>, status: Status)
    ensures Denote(Bared(Ending(bs, status))) == ContentsOf(bs)
  {
    if bs == [] {
      DenoteStep(MessageStop(status), []);
      assert Ending(bs, status) == [MessageStop(status)] + [];
    } else {
      DenoteScripts(bs[1..], status);
      EndingApart(bs, status);
      hide Denote, Bared, Script, ContentOf, Ending;
      DenoteBlock(bs[0], bs[1..], status);
    }
  }

  // ----- The rest of the response -----

  /** The usage after all reports. */
  function Reported(es: seq<Event>): Option<Usage> {
    if es == [] then None else MergeUsage(Reported(es[..|es| - 1]), es[|es| - 1].usage)
  }

  ghost predicate Begun(ps: seq<Payload>, messageId: string, model: string) {
    ps != [] ==> ps[0] == MessageStart(messageId, model) && forall k | 1 <= k < |ps| :: !ps[k].MessageStart?
  }

  lemma HeaderStep(r: Reducer, e: Event)
    ensures var h, h' := r.resp, Reduced(r, e).resp;
            && h'.id == (if e.requestId != "" then e.requestId else h.id) && h'.usage == MergeUsage(h.usage, e.usage)
            && (if e.payload.MessageStart?
                then h'.model == e.payload.model && h'.message.Some? && h'.message.value.id == e.payload.messageId
                else h'.model == h.model && (h.message.Some? ==> h'.message.Some? && h'.message.value.id == h.message.value.id))
  {
  }

  lemma {:induction false} Headed(es: seq<Event>, requestId: string, messageId: string, model: string)
    requires Begun(Payloads(es), messageId, model) && forall k | 0 <= k < |es| :: es[k].requestId == requestId
    ensures var r := Run(EMPTY, es).resp;
            && r.id == (if es == [] then "" else requestId) && r.usage == Reported(es)
            && (Payloads(es) != [] ==> r.model == model && r.message.Some? && r.message.value.id == messageId)
  {
    if es != [] {
      var front, e := es[..|es| - 1], es[|es| - 1];
      assert front + [e] == es;
      PayloadsAppend(front, e);
      var ps := Payloads(front);
      hide Payloads, Run, Reduced, MergeUsage;
      assert forall k | 0 <= k < |ps| :: ps[k] == Payloads(es)[k];
      Headed(front, requestId, messageId, model);
      RunAppend(EMPTY, front, e);
      HeaderStep(Run(EMPTY, front), e);
      assert e.payload.MessageStart? ==> e.payload == Payloads(es)[|ps|];
    }
  }

  lemma {:induction false} ScriptsInside(bs: seq<Part>)
    ensures forall k | 0 <= k < |Scripts(bs)| :: !Scripts(bs)[k].MessageStart? && !Scripts(bs)[k].MessageStop? && !Scripts(bs)[k].NoPayload?
  {
    if bs != [] {
      ScriptsInside(bs[1..]);
      if bs[0].Streamed? {
        DeltasInside(bs[0].index, bs[0].deltas);
      }
    }
  }

  lemma {:induction false} DeltasInside(index: nat, ds: seq<Delta>)
    ensures |DeltaPayloads(index, ds)| == |ds|
    ensures forall k | 0 <= k < |ds| :: DeltaPayloads(index, ds)[k] == ContentDelta(index, ds[k])
    decreases ds
  {
    if ds != [] {
      DeltasInside(index, ds[1..]);
    }
  }

  lemma StartThenInside(es: seq<Event>, requestId: string, messageId: string, model: string, bs: seq<Part>, status: Status)
    requires Sequential(es, requestId, messageId, model, bs, status)
    ensures Payloads(es) == [MessageStart(messageId, model)] + Ending(bs, status)
  {
    hide Scripts, Payloads;
  }

  lemma SequentialContents(es: seq<Event>, requestId: string, messageId: string, model: string, bs: seq<Part>, status: Status)
    requires Sequential(es, requestId, messageId, model, bs, status)
    ensures Contents(Run(EMPTY, es).resp) == ContentsOf(bs)
  {
    hide *;
    var inside := Ending(bs, status);
    StartThenInside(es, requestId, messageId, model, bs, status);
    ReducerDenotes(es);
    DenoteBared(es);
    DenoteStep(MessageStart(messageId, model), inside);
    DenoteScripts(bs, status);
    StartOpensNothing(messageId, model);
    assert [] + ContentsOf(bs) == ContentsOf(bs);
  }

  lemma StartOpensNothing(messageId: string, model: string)
    ensures Opened(MessageStart(messageId, model)).None?
  {
  }

  lemma SequentialBegun(es: seq<Event>, requestId: string, messageId: string, model: string, bs: seq<Part>, status: Status)
    requires Sequential(es, requestId, messageId, model, bs, status)
    ensures Begun(Payloads(es), messageId, model) && Payloads(es) != []
  {
    ScriptsInside(bs);
    hide Scripts, Payloads;
  }

  /** The response that a sequential stream is reduced to. */
  lemma ReducedSequential(es: seq<Event>, requestId: string, messageId: string, model: string, bs: seq<Part>, status: Status)
    requires Sequential(es, requestId, messageId, model, bs, status)
    ensures Run(EMPTY, es).resp == Response(requestId, model, status, Some(Message(messageId, ContentsOf(bs))), Reported(es))
  {
    SequentialBegun(es, requestId, messageId, model, bs, status);
    SequentialContents(es, requestId, messageId, model, bs, status);
    hide Run, Payloads, ContentsOf, Scripts, Begun, Reported;
    Headed(es, requestId, messageId, model);
    StatusLast(es, status);
  }

  lemma StatusLast(es: seq<Event>, status: Status)
    requires es != [] && es[|es| - 1].payload == MessageStop(status)
    ensures Run(EMPTY, es).resp.status == status
  {
    var n := |es| - 1;
    assert es[..n] + [es[n]] == es;
    hide Run;
    RunAppend(EMPTY, es[..n], es[n]);
  }

  lemma {:induction false} ScriptsSplit(bs: seq<Part>, b: Part)
    ensures Scripts(bs + [b]) == Scripts(bs) + Script(b)
    ensures ContentsOf(bs + [b]) == ContentsOf(bs) + [ContentOf(b)]
  {
    if bs == [] {
      assert bs + [b] == [b] && [b][1..] == [];
    } else {
      ScriptsSplit(bs[1..], b);
      assert (bs + [b])[1..] == bs[1..] + [b];
      hide Script, ContentOf;
      AppendAssociates(Script(bs[0]), Scripts(bs[1..]), Script(b));
    }
  }

  // ----- The text of a content -----

  /** What the deltas add to a block's text. */
  function Said(ds: seq<Delta>): string {
    if ds == [] then "" else (if ds[0].SignatureDelta? then "" else ds[0].text) + Said(ds[1..])
  }

  lemma {:induction false} SaidTexts(ds: seq<Delta>)
    requires forall k | 0 <= k < |ds| :: !ds[k].ToolInputDelta?
    ensures Said(ds) == Texts(ds)
  {
    if ds != [] {
      SaidTexts(ds[1..]);
    }
  }

  lemma {:induction false} SaidInput(ds: seq<Delta>)
    requires forall k | 0 <= k < |ds| :: !ds[k].TextDelta?
    ensures var input := ToolInput(ds); Said(ds) == if input.Some? then input.value else ""
  {
    if ds != [] {
      hide *;
      SaidInput(ds[1..]);
      FirstSaid(ds);
      assert ds[0].text + "" == ds[0].text;
    }
  }

  lemma FirstSaid(ds: seq<Delta>)
    requires ds != []
    ensures var rest := ToolInput(ds[1..]);
            if ds[0].SignatureDelta? then Said(ds) == Said(ds[1..]) && ToolInput(ds) == rest
            else && Said(ds) == ds[0].text + Said(ds[1..])
                 && (ds[0].ToolInputDelta? ==> ToolInput(ds) == Some(ds[0].text + if rest.Some? then rest.value else ""))
  {
  }

  lemma ToolText(callId: string, name: string, c: Content, ds: seq<Delta>)
    requires c.body == ToolUse(callId, name, []) && forall k | 0 <= k < |ds| :: !ds[k].TextDelta?
    ensures var g := Grown(c, ds); g.body.ToolUse? && g.body.callId == callId && g.body.name == name
                                            && TextualInput(g.body.inputs) == Said(ds)
  {
    SaidInput(ds);
    var input := ToolInput(ds);
    if input.Some? {
      assert [input.value][1..] == [];
      assert input.value + "" == input.value;
    }
  }

  lemma TextBody(index: nat, id: string, phase: Phase, ds: seq<Delta>)
    requires forall k | 0 <= k < |ds| :: !ds[k].ToolInputDelta?
    ensures var c := ContentOf(Streamed(index, id, phase, TextStart, ds));
            c.body == Text(Said(ds)) && c.id == id && c.phase == phase
  {
    SaidTexts(ds);
    assert "" + Said(ds) == Said(ds);
  }

  lemma ToolBody(index: nat, id: string, phase: Phase, callId: string, name: string, ds: seq<Delta>)
    requires forall k | 0 <= k < |ds| :: !ds[k].TextDelta?
    ensures var c := ContentOf(Streamed(index, id, phase, ToolStart(callId, name), ds));
            c.body.ToolUse? && c.body.callId == callId && c.body.name == name && TextualInput(c.body.inputs) == Said(ds)
            && c.id == id && c.phase == phase
  {
    ToolText(callId, name, Content(id, Some(index), phase, "", ToolUse(callId, name, [])), ds);
  }
}
