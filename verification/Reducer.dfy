/**
 Folding a stream of chat events into the complete response. Contents are kept in a list in the order in which they
 were opened; a second table aliases, for every block index, the content most recently opened under it.
 */
module Reducers {
  import opened Basics
  import opened ChatTypes

  /** The reducer as a value; `slots` gives the position in the list of the content each index aliases. */
  datatype Reducer = Reducer(resp: Response, slots: map<nat, nat>)

  const EMPTY := Reducer(Response("", "", Unspecified, None, None), map[])

  function StartedBody(kind: StartKind): Body {
    match kind
    case TextStart => Text("")
    case ToolStart(callId, name) => ToolUse(callId, name, [])
    case NoStart => OtherBody
  }

  function ApplyDelta(c: Content, d: Delta): Content {
    match d
    case TextDelta(s) => if c.body.Text? then c.(body := Text(c.body.text + s)) else c
    case SignatureDelta(s) => c.(signature := c.signature + s)
    case ToolInputDelta(s) =>
      if !c.body.ToolUse? then c
      else if c.body.inputs == [] then c.(body := c.body.(inputs := [s]))
      else c.(body := c.body.(inputs := c.body.inputs[0 := c.body.inputs[0] + s]))
  }

  function WithMessage(r: Response, m: Message): Response {
    r.(message := Some(m))
  }

  function MessageOf(r: Response): Message {
    if r.message.Some? then r.message.value else Message("", [])
  }

  function Append(r: Reducer, c: Content): Reducer {
    var m := MessageOf(r.resp);
    Reducer(WithMessage(r.resp, m.(contents := m.contents + [c])),
            if c.index.Some? then r.slots[c.index.value := |m.contents|] else r.slots)
  }

  function Observed(r: Reducer, requestId: string, report: Option<Usage>): Reducer {
    r.(resp := r.resp.(id := if requestId != "" then requestId else r.resp.id, usage := MergeUsage(r.resp.usage, report)))
  }

  function Extend(r: Reducer, index: nat, d: Delta): Reducer {
    if index in r.slots && r.slots[index] < |Contents(r.resp)| then
      var m, k := MessageOf(r.resp), r.slots[index];
      r.(resp := WithMessage(r.resp, m.(contents := m.contents[k := ApplyDelta(m.contents[k], d)])))
    else r
  }

  function ReducedBy(r: Reducer, p: Payload): Reducer {
    match p
    case MessageStart(id, model) => r.(resp := WithMessage(r.resp, MessageOf(r.resp).(id := id)).(model := model))
    case MessageStop(status) => r.(resp := r.resp.(status := status))
    case ContentStart(id, index, phase, kind) => Append(r, Content(id, Some(index), phase, "", StartedBody(kind)))
    case ContentDelta(index, d) => Extend(r, index, d)
    case ContentStop(_) => r
    case ContentSnapshot(c) => Append(r, c)
    case NoPayload => r
  }

  function Reduced(r: Reducer, e: Event): Reducer {
    ReducedBy(Observed(r, e.requestId, e.usage), e.payload)
  }

  function Run(r: Reducer, es: seq<Event>): Reducer
    decreases es
  {
    if es == [] then r else Run(Reduced(r, es[0]), es[1..])
  }

  // ----- The reducer as an object -----

  /** A content as the reducer shares it between its list and its table. */
  class ContentCell {
    const id: string
    const index: Option<nat>
    const phase: Phase
    var signature: string
    var body: Body

    constructor (c: Content)
      ensures Value() == c
    {
      id, index, phase, signature, body := c.id, c.index, c.phase, c.signature, c.body;
    }

    function Value(): Content
      reads this
    {
      Content(id, index, phase, signature, body)
    }

    method Apply(d: Delta)
      modifies this
      ensures Value() == ApplyDelta(old(Value()), d)
    {
      match d {
        case TextDelta(s) =>
          if body.Text? {
            body := Text(body.text + s);
          }
        case SignatureDelta(s) =>
          signature := signature + s;
        case ToolInputDelta(s) =>
          if body.ToolUse? {
            body := body.(inputs := if body.inputs == [] then [s] else body.inputs[0 := body.inputs[0] + s]);
          }
      }
    }
  }

  class ChatEventReducer {
    var id: string
    var model: string
    var status: Status
    var usage: Option<Usage>
    var messageId: Option<string>                          // None until a message is begun
    var contents: seq<ContentCell>
    var blocks: map<nat, ContentCell>
    ghost var slots: map<nat, nat>

    ghost predicate Valid()
      reads this
    {
      && (forall i, j | 0 <= i < j < |contents| :: contents[i] != contents[j])
      && slots.Keys == blocks.Keys
      && (forall k <- blocks.Keys :: slots[k] < |contents| && contents[slots[k]] == blocks[k])
      && (messageId.None? ==> contents == [])
    }

    ghost function Values(): seq<Content>
      reads `contents, contents
    {
      var cells := contents;
      seq(|cells|, i requires 0 <= i < |cells| reads cells => cells[i].Value())
    }

    ghost function Value(): Reducer
      reads this, contents
    {
      Reducer(Response(id, model, status, if messageId.Some? then Some(Message(messageId.value, Values())) else None, usage), slots)
    }

    constructor ()
      ensures Valid() && Value() == EMPTY && contents == []
    {
      id, model, status, usage, messageId := "", "", Unspecified, None, None;
      contents, blocks, slots := [], map[], map[];
    }

    method EnsureMessage()
      modifies this
      ensures contents == old(contents) && blocks == old(blocks) && slots == old(slots)
      ensures id == old(id) && model == old(model) && status == old(status) && usage == old(usage)
      ensures messageId == if old(messageId).None? then Some("") else old(messageId)
    {
      if messageId.None? {
        messageId := Some("");
      }
    }

    method AppendContent(c: Content)
      requires Valid()
      modifies this
      ensures Valid() && Value() == Append(old(Value()), c)
      ensures |contents| == |old(contents)| + 1 && contents[..|old(contents)|] == old(contents) && fresh(contents[|old(contents)|])
    {
      NoMessage();
      EnsureMessage();
      ListContent(c);
      if c.index.Some? {
        PointToLast(c.index.value);
      }
    }

    lemma NoMessage()
      requires Valid()
      ensures messageId.None? ==> Values() == []
    {
    }

    method PointToLast(index: nat)
      requires Valid() && contents != [] && messageId.Some?
      modifies `blocks, `slots
      ensures Valid() && slots == old(slots)[index := |contents| - 1]
    {
      blocks := blocks[index := contents[|contents| - 1]];
      slots := slots[index := |contents| - 1];
    }

    /** Adds a content to the list of the message begun. */
    method ListContent(c: Content)
      requires Valid() && messageId.Some?
      modifies `contents
      ensures Valid() && Values() == old(Values()) + [c]
      ensures |contents| == |old(contents)| + 1 && contents[..|old(contents)|] == old(contents) && fresh(contents[|old(contents)|])
    {
      var cell := new ContentCell(c);
      contents := contents + [cell];
    }

    method ApplyToBlock(index: nat, d: Delta)
      requires Valid()
      modifies contents
      ensures Valid()
      ensures Values() == if index in slots then old(Values())[slots[index] := ApplyDelta(old(Values())[slots[index]], d)]
                          else old(Values())
    {
      if index in blocks {
        blocks[index].Apply(d);
      }
    }

    method BeginMessage(id': string, model': string)
      requires Valid()
      modifies this
      ensures Valid() && contents == old(contents)
      ensures Value() == var r := old(Value());
                         r.(resp := WithMessage(r.resp, MessageOf(r.resp).(id := id')).(model := model'))
    {
      EnsureMessage();
      model := model';
      messageId := Some(id');
      assert Values() == old(Values());
    }

    method Observe(requestId: string, report: Option<Usage>)
      requires Valid()
      modifies this
      ensures Valid() && contents == old(contents) && Value() == Observed(old(Value()), requestId, report)
    {
      if requestId != "" {
        id := requestId;
      }
      usage := MergeUsage(usage, report);
      assert Values() == old(Values());
    }

    method Reduce(e: Event)
      requires Valid()
      modifies this, contents
      ensures Valid() && Value() == Reduced(old(Value()), e)
      ensures forall c <- contents :: c in old(contents) || fresh(c)
    {
      Observe(e.requestId, e.usage);
      match e.payload {
        case MessageStart(messageId', model') =>
          BeginMessage(messageId', model');
        case MessageStop(status') =>
          ghost var before := Values();
          status := status';
          assert Values() == before;
        case ContentStart(id', index, phase, kind) =>
          AppendContent(Content(id', Some(index), phase, "", StartedBody(kind)));
        case ContentDelta(index, d) =>
          ApplyToBlock(index, d);
        case ContentStop(_) =>
        case ContentSnapshot(c) =>
          AppendContent(c);
        case NoPayload =>
      }
    }
  }

  // ----- What the fold computes -----

  /** The content an event opens, if any. */
  function Opened(p: Payload): Option<Content> {
    match p
    case ContentStart(id, index, phase, kind) => Some(Content(id, Some(index), phase, "", StartedBody(kind)))
    case ContentSnapshot(c) => Some(c)
    case _ => None
  }

  /** The deltas for an index, up to where the index is opened anew. */
  function Owned(i: Option<nat>, es: seq<Event>): seq<Delta> {
    if i.None? || es == [] then []
    else if Opened(es[0].payload).Some? && Opened(es[0].payload).value.index == i then []
    else (if es[0].payload.ContentDelta? && es[0].payload.index == i.value then [es[0].payload.delta] else []) + Owned(i, es[1..])
  }

  function Texts(ds: seq<Delta>): string {
    if ds == [] then "" else (if ds[0].TextDelta? then ds[0].text else "") + Texts(ds[1..])
  }

  function Signatures(ds: seq<Delta>): string {
    if ds == [] then "" else (if ds[0].SignatureDelta? then ds[0].text else "") + Signatures(ds[1..])
  }

  /** The fragments of tool input, joined; None if there are none. */
  function ToolInput(ds: seq<Delta>): Option<string> {
    if ds == [] then None else
    var rest := ToolInput(ds[1..]);
    if !ds[0].ToolInputDelta? then rest else Some(ds[0].text + if rest.Some? then rest.value else "")
  }

  /** A content with its deltas: each kind of text is the concatenation of its own fragments. */
  function Grown(c: Content, ds: seq<Delta>): Content {
    c.(signature := c.signature + Signatures(ds), body :=
      match c.body
      case Text(s) => Text(s + Texts(ds))
      case ToolUse(callId, name, inputs) =>
        var input := ToolInput(ds);
        if input.None? then c.body
        else if inputs == [] then c.body.(inputs := [input.value])
        else c.body.(inputs := inputs[0 := inputs[0] + input.value])
      case _ => c.body)
  }

  /** The contents of a stream, read off without any state: in the order of their opening, each with its own deltas. */
  function Denote(es: seq<Event>): seq<Content> {
    if es == [] then [] else
    var c := Opened(es[0].payload);
    (if c.Some? then [Grown(c.value, Owned(c.value.index, es[1..]))] else []) + Denote(es[1..])
  }

  ghost predicate Sound(r: Reducer) {
    forall i <- r.slots.Keys :: r.slots[i] < |Contents(r.resp)| && Contents(r.resp)[r.slots[i]].index == Some(i)
  }

  ghost predicate Current(r: Reducer, k: nat) {
    k < |Contents(r.resp)| && var i := Contents(r.resp)[k].index; i.Some? && i.value in r.slots && r.slots[i.value] == k
  }

  /** What the contents so far will have become: those still aliased grow by what is to come. */
  ghost function Finished(r: Reducer, es: seq<Event>): seq<Content> {
    var cs := Contents(r.resp);
    seq(|cs|, k requires 0 <= k < |cs| => if Current(r, k) then Grown(cs[k], Owned(cs[k].index, es)) else cs[k])
  }

  lemma GrownByNothing(c: Content)
    ensures Grown(c, []) == c
  {
    assert c.signature + "" == c.signature;
    if c.body.Text? {
      assert c.body.text + "" == c.body.text;
    }
  }

  lemma GrownByOneMore(c: Content, d: Delta, ds: seq<Delta>)
    ensures Grown(ApplyDelta(c, d), ds) == Grown(c, [d] + ds)
  {
    OneMoreDelta(d, ds);
    hide Texts, Signatures, ToolInput;
    match d
    case TextDelta(s) =>
      if c.body.Text? {
        assert c.body.text + (s + Texts(ds)) == c.body.text + s + Texts(ds);
      }
    case SignatureDelta(s) =>
      assert c.signature + (s + Signatures(ds)) == c.signature + s + Signatures(ds);
    case ToolInputDelta(s) =>
      if c.body.ToolUse? {
        InputGrown(c.body.inputs, s, ToolInput(ds));
      }
  }

  lemma OneMoreDelta(d: Delta, ds: seq<Delta>)
    ensures Texts([d] + ds) == if d.TextDelta? then d.text + Texts(ds) else Texts(ds)
    ensures Signatures([d] + ds) == if d.SignatureDelta? then d.text + Signatures(ds) else Signatures(ds)
    ensures var rest := ToolInput(ds);
            ToolInput([d] + ds) == if d.ToolInputDelta? then Some(d.text + if rest.Some? then rest.value else "") else rest
  {
    assert ([d] + ds)[1..] == ds;
  }

  /** Input joined to the first chunk piece by piece is joined as a whole. */
  lemma InputGrown(inputs: seq<string>, s: string, rest: Option<string>)
    ensures var one := if inputs == [] then [s] else inputs[0 := inputs[0] + s];
            var whole := s + if rest.Some? then rest.value else "";
            (if rest.None? then one else one[0 := one[0] + rest.value]) == if inputs == [] then [whole] else inputs[0 := inputs[0] + whole]
  {
    assert s + "" == s;
    if rest.Some? && inputs != [] {
      assert inputs[0] + (s + rest.value) == inputs[0] + s + rest.value;
    }
  }

  lemma StepSound(r: Reducer, e: Event)
    requires Sound(r)
    ensures Sound(Reduced(r, e)) && |Contents(r.resp)| <= |Contents(Reduced(r, e).resp)|
    ensures var c := Opened(e.payload);
            |Contents(Reduced(r, e).resp)| == |Contents(r.resp)| + if c.Some? then 1 else 0
  {
    var o := Observed(r, e.requestId, e.usage);
    if Opened(e.payload).Some? {
      AppendSound(o, Opened(e.payload).value);
    } else if e.payload.ContentDelta? {
      ExtendSound(o, e.payload.index, e.payload.delta);
    }
  }

  lemma AppendSound(r: Reducer, c: Content)
    requires Sound(r)
    ensures Sound(Append(r, c)) && Contents(Append(r, c).resp) == Contents(r.resp) + [c]
  {
  }

  lemma ExtendSound(r: Reducer, index: nat, d: Delta)
    requires Sound(r)
    ensures Sound(Extend(r, index, d)) && |Contents(Extend(r, index, d).resp)| == |Contents(r.resp)|
  {
  }

  lemma ExtendAt(r: Reducer, index: nat, d: Delta, rest: seq<Event>, k: nat)
    requires Sound(r) && k < |Contents(r.resp)|
    ensures k < |Contents(Extend(r, index, d).resp)|
    ensures var c := Contents(r.resp)[k];
            Finished(Extend(r, index, d), rest)[k] ==
            if Current(r, k) then Grown(c, (if c.index == Some(index) then [d] else []) + Owned(c.index, rest)) else c
  {
    var c := Contents(r.resp)[k];
    GrownByOneMore(c, d, Owned(c.index, rest));
    assert [] + Owned(c.index, rest) == Owned(c.index, rest);
  }

  lemma AppendAt(r: Reducer, added: Content, rest: seq<Event>, k: nat)
    requires Sound(r) && k < |Contents(r.resp)|
    ensures k < |Contents(Append(r, added).resp)|
    ensures var c := Contents(r.resp)[k];
            Finished(Append(r, added), rest)[k] ==
            if Current(r, k) then Grown(c, if c.index == added.index then [] else Owned(c.index, rest)) else c
  {
    AppendSound(r, added);
    GrownByNothing(Contents(r.resp)[k]);
  }

  lemma FinishedAt(r: Reducer, es: seq<Event>, k: nat)
    requires Sound(r) && es != [] && k < |Contents(r.resp)|
    ensures k < |Contents(Reduced(r, es[0]).resp)|
    ensures Finished(Reduced(r, es[0]), es[1..])[k] == Finished(r, es)[k]
  {
    var o := Observed(r, es[0].requestId, es[0].usage);
    FinishedIn(o, es, k);
    StepSound(r, es[0]);
    FinishedSame(Reduced(r, es[0]), ReducedBy(o, es[0].payload), es[1..], k);
    FinishedSame(o, r, es, k);
  }

  lemma FinishedSame(r: Reducer, r': Reducer, es: seq<Event>, k: nat)
    requires Contents(r.resp) == Contents(r'.resp) && r.slots == r'.slots && k < |Contents(r.resp)|
    ensures Finished(r, es)[k] == Finished(r', es)[k]
  {
  }

  lemma FinishedIn(r: Reducer, es: seq<Event>, k: nat)
    requires Sound(r) && es != [] && k < |Contents(r.resp)|
    ensures k < |Contents(ReducedBy(r, es[0].payload).resp)|
    ensures Finished(ReducedBy(r, es[0].payload), es[1..])[k] == Finished(r, es)[k]
  {
    hide *;
    var p, rest := es[0].payload, es[1..];
    FinishedContent(r, es, k);
    OwnedFirst(Contents(r.resp)[k].index, es);
    ByItsPayload(r, p);
    if p.ContentDelta? {
      ExtendAt(r, p.index, p.delta, rest, k);
    } else if Opened(p).Some? {
      AppendAt(r, Opened(p).value, rest, k);
    } else {
      FinishedSame(ReducedBy(r, p), r, rest, k);
      FinishedContent(r, rest, k);
    }
  }

  lemma FinishedContent(r: Reducer, es: seq<Event>, k: nat)
    requires k < |Contents(r.resp)|
    ensures var c := Contents(r.resp)[k];
            && (Current(r, k) ==> c.index.Some?)
            && |Finished(r, es)| == |Contents(r.resp)|
            && Finished(r, es)[k] == if Current(r, k) then Grown(c, Owned(c.index, es)) else c
  {
  }

  lemma OwnedFirst(i: Option<nat>, es: seq<Event>)
    requires es != []
    ensures i.Some? ==>
            var p := es[0].payload;
            Owned(i, es) ==
            if Opened(p).Some? && Opened(p).value.index == i then []
            else if p.ContentDelta? then (if Some(p.index) == i then [p.delta] else []) + Owned(i, es[1..])
            else Owned(i, es[1..])
  {
  }

  lemma ByItsPayload(r: Reducer, p: Payload)
    ensures p.ContentDelta? ==> Opened(p).None? && ReducedBy(r, p) == Extend(r, p.index, p.delta)
    ensures Opened(p).Some? ==> ReducedBy(r, p) == Append(r, Opened(p).value)
    ensures !p.ContentDelta? && Opened(p).None? ==> Contents(ReducedBy(r, p).resp) == Contents(r.resp) && ReducedBy(r, p).slots == r.slots
  {
  }

  lemma FinishedNew(r: Reducer, es: seq<Event>)
    requires Sound(r) && es != [] && Opened(es[0].payload).Some?
    ensures var c := Opened(es[0].payload).value;
            && |Contents(Reduced(r, es[0]).resp)| == |Contents(r.resp)| + 1
            && Finished(Reduced(r, es[0]), es[1..])[|Contents(r.resp)|] == Grown(c, Owned(c.index, es[1..]))
  {
    var c := Opened(es[0].payload).value;
    assert Contents(Reduced(r, es[0]).resp) == Contents(r.resp) + [c];
    GrownByNothing(c);
  }

  lemma FinishedStep(r: Reducer, es: seq<Event>)
    requires Sound(r) && es != []
    ensures Sound(Reduced(r, es[0]))
    ensures var c := Opened(es[0].payload);
            Finished(Reduced(r, es[0]), es[1..]) ==
            Finished(r, es) + if c.Some? then [Grown(c.value, Owned(c.value.index, es[1..]))] else []
  {
    StepSound(r, es[0]);
    forall k | 0 <= k < |Contents(r.resp)| ensures Finished(Reduced(r, es[0]), es[1..])[k] == Finished(r, es)[k] {
      FinishedAt(r, es, k);
    }
    if Opened(es[0].payload).Some? {
      FinishedNew(r, es);
    }
  }

  /**
   The reducer computes the stateless reading of the stream: whatever the interleaving, contents come in the order in
   which they were opened, and each is the concatenation of exactly its own deltas.
   */
  lemma {:induction false} RunDenotes(r: Reducer, es: seq<Event>)
    requires Sound(r)
    ensures Contents(Run(r, es).resp) == Finished(r, es) + Denote(es)
    decreases es
  {
    if es == [] {
      forall k | 0 <= k < |Contents(r.resp)| ensures Finished(r, es)[k] == Contents(r.resp)[k] {
        GrownByNothing(Contents(r.resp)[k]);
      }
    } else {
      FinishedStep(r, es);
      RunDenotes(Reduced(r, es[0]), es[1..]);
      var c := Opened(es[0].payload);
      var now := if c.Some? then [Grown(c.value, Owned(c.value.index, es[1..]))] else [];
      assert Finished(r, es) + now + Denote(es[1..]) == Finished(r, es) + (now + Denote(es[1..]));
    }
  }

  lemma ReducerDenotes(es: seq<Event>)
    ensures Contents(Run(EMPTY, es).resp) == Denote(es)
  {
    assert Sound(EMPTY) && Finished(EMPTY, es) == [];
    hide Run, Denote, Finished, Sound;
    RunDenotes(EMPTY, es);
    assert [] + Denote(es) == Denote(es);
  }

  // ----- Interleaving and chunking do not matter -----

  function Bare(p: Payload): Event {
    Event("", None, p)
  }

  /** The part of a stream that concerns one index; None for contents that have none. */
  function Project(i: Option<nat>, es: seq<Event>): seq<Event> {
    if es == [] then [] else
    (if Concerns(i, es[0].payload) then [Bare(es[0].payload)] else []) + Project(i, es[1..])
  }

  predicate Concerns(i: Option<nat>, p: Payload) {
    (p.ContentDelta? && i == Some(p.index)) || (Opened(p).Some? && Opened(p).value.index == i)
  }

  function OpenedIndices(es: seq<Event>): seq<Option<nat>> {
    if es == [] then [] else
    var c := Opened(es[0].payload);
    (if c.Some? then [c.value.index] else []) + OpenedIndices(es[1..])
  }

  function WithIndex(i: Option<nat>, cs: seq<Content>): seq<Content> {
    if cs == [] then [] else (if cs[0].index == i then [cs[0]] else []) + WithIndex(i, cs[1..])
  }

  function Indices(cs: seq<Content>): seq<Option<nat>> {
    seq(|cs|, k requires 0 <= k < |cs| => cs[k].index)
  }

  lemma {:induction false} OwnedInProjection(i: Option<nat>, es: seq<Event>)
    ensures Owned(i, Project(i, es)) == Owned(i, es)
  {
    if es != [] && i.Some? {
      var rest := Project(i, es[1..]);
      OwnedInProjection(i, es[1..]);
      if Concerns(i, es[0].payload) {
        assert ([Bare(es[0].payload)] + rest)[1..] == rest;
      } else {
        assert [] + rest == rest && [] + Owned(i, es[1..]) == Owned(i, es[1..]);
      }
    }
  }

  /** What is opened under an index depends only on the part of the stream that concerns it. */
  lemma {:induction false} DenoteOfProjection(i: Option<nat>, es: seq<Event>)
    ensures WithIndex(i, Denote(es)) == Denote(Project(i, es))
  {
    if es != [] {
      hide *;
      DenoteOfProjection(i, es[1..]);
      ProjectFirst(i, es);
      DenotedFirst(es);
      OwnedInProjection(i, es[1..]);
      DenotedInFront(Bare(es[0].payload), Project(i, es[1..]));
      var c := Opened(es[0].payload);
      if c.Some? {
        WithIndexFirst(i, Grown(c.value, Owned(c.value.index, es[1..])), Denote(es[1..]));
      } else {
        assert [] + Denote(es[1..]) == Denote(es[1..]);
        assert [] + Denote(Project(i, es[1..])) == Denote(Project(i, es[1..]));
      }
    }
  }

  lemma ProjectFirst(i: Option<nat>, es: seq<Event>)
    requires es != []
    ensures var p, rest := es[0].payload, Project(i, es[1..]);
            && Bare(p).payload == p
            && (if Opened(p).Some? then Project(i, es) == if Opened(p).value.index == i then [Bare(p)] + rest else rest
                else Project(i, es) == [Bare(p)] + rest || Project(i, es) == rest)
  {
  }

  lemma DenotedInFront(e: Event, rest: seq<Event>)
    ensures var c := Opened(e.payload);
            Denote([e] + rest) == (if c.Some? then [Grown(c.value, Owned(c.value.index, rest))] else []) + Denote(rest)
  {
    assert ([e] + rest)[1..] == rest;
  }

  lemma WithIndexFirst(i: Option<nat>, c: Content, cs: seq<Content>)
    ensures WithIndex(i, [c] + cs) == if c.index == i then [c] + WithIndex(i, cs) else WithIndex(i, cs)
  {
    assert ([c] + cs)[1..] == cs;
  }

  lemma DenotedFirst(es: seq<Event>)
    requires es != []
    ensures var c := Opened(es[0].payload);
            Denote(es) == (if c.Some? then [Grown(c.value, Owned(c.value.index, es[1..]))] else []) + Denote(es[1..])
            && OpenedIndices(es) == (if c.Some? then [c.value.index] else []) + OpenedIndices(es[1..])
            && (c.Some? ==> Grown(c.value, Owned(c.value.index, es[1..])).index == c.value.index)
  {
  }

  lemma {:induction false} DenotedIndices(es: seq<Event>)
    ensures Indices(Denote(es)) == OpenedIndices(es)
  {
    if es != [] {
      DenotedIndices(es[1..]);
      hide Denote, OpenedIndices, Grown, Owned, Opened;
      DenotedFirst(es);
    }
  }

  lemma {:induction false} DeterminedByIndices(a: seq<Content>, b: seq<Content>)
    requires Indices(a) == Indices(b) && forall i :: WithIndex(i, a) == WithIndex(i, b)
    ensures a == b
  {
    assert |Indices(a)| == |a| && |Indices(b)| == |b|;
    if a != [] {
      var i := a[0].index;
      assert Indices(b)[0] == i;
      assert WithIndex(i, a)[0] == WithIndex(i, b)[0];
      forall j ensures WithIndex(j, a[1..]) == WithIndex(j, b[1..]) {
        assert WithIndex(j, a) == WithIndex(j, b);
        assert j == i ==> WithIndex(j, a)[1..] == WithIndex(j, a[1..]) && WithIndex(j, b)[1..] == WithIndex(j, b[1..]);
        assert j != i ==> WithIndex(j, a) == WithIndex(j, a[1..]) && WithIndex(j, b) == WithIndex(j, b[1..]);
      }
      assert Indices(a[1..]) == Indices(a)[1..] && Indices(b[1..]) == Indices(b)[1..];
      DeterminedByIndices(a[1..], b[1..]);
    }
  }

  /** Adjacent fragments of one kind, of one block, fused into one. */
  function Fused(es: seq<Event>): seq<Event> {
    if es == [] then [] else
    var rest := Fused(es[1..]);
    if rest != [] && SameFragment(es[0].payload, rest[0].payload)
    then [rest[0].(payload := Joined(es[0].payload, rest[0].payload))] + rest[1..]
    else [es[0]] + rest
  }

  predicate SameFragment(p: Payload, q: Payload) {
    && p.ContentDelta? && q.ContentDelta? && p.index == q.index
    && ((p.delta.TextDelta? && q.delta.TextDelta?) || (p.delta.SignatureDelta? && q.delta.SignatureDelta?)
        || (p.delta.ToolInputDelta? && q.delta.ToolInputDelta?))
  }

  function Joined(p: Payload, q: Payload): Payload
    requires SameFragment(p, q)
  {
    p.(delta := p.delta.(text := p.delta.text + q.delta.text))
  }

  ghost predicate SameGrowth(ds: seq<Delta>, ds': seq<Delta>) {
    Texts(ds) == Texts(ds') && Signatures(ds) == Signatures(ds') && ToolInput(ds) == ToolInput(ds')
  }

  lemma JoinedGrowth(d: Delta, d': Delta, ds: seq<Delta>)
    requires SameFragment(ContentDelta(0, d), ContentDelta(0, d'))
    ensures SameGrowth([d] + ([d'] + ds), [d.(text := d.text + d'.text)] + ds)
  {
    assert ([d] + ([d'] + ds))[1..] == [d'] + ds && ([d'] + ds)[1..] == ds && ([d.(text := d.text + d'.text)] + ds)[1..] == ds;
    assert d.text + (d'.text + Texts(ds)) == d.text + d'.text + Texts(ds);
    assert d.text + (d'.text + Signatures(ds)) == d.text + d'.text + Signatures(ds);
    if ToolInput(ds).Some? {
      assert d.text + (d'.text + ToolInput(ds).value) == d.text + d'.text + ToolInput(ds).value;
    }
    assert d.text + (d'.text + "") == d.text + d'.text + "";
  }

  lemma GrowthUnderOneMore(d: Delta, ds: seq<Delta>, ds': seq<Delta>)
    requires SameGrowth(ds, ds')
    ensures SameGrowth([d] + ds, [d] + ds')
  {
    assert ([d] + ds)[1..] == ds && ([d] + ds')[1..] == ds';
  }

  lemma {:induction false} OwnedFused(i: Option<nat>, es: seq<Event>)
    ensures SameGrowth(Owned(i, Fused(es)), Owned(i, es))
  {
    if es != [] && i.Some? {
      hide *;
      OwnedFused(i, es[1..]);
      FusedFirst(es);
      OwnedUnderOneMore(i, es[0], Fused(es[1..]), es[1..]);
      assert [es[0]] + es[1..] == es;
    }
  }

  lemma GrowthAsItself(ds: seq<Delta>)
    ensures SameGrowth(ds, ds)
  {
  }

  lemma GrowthChain(a: seq<Delta>, b: seq<Delta>, c: seq<Delta>)
    requires SameGrowth(a, b) && SameGrowth(b, c)
    ensures SameGrowth(a, c)
  {
  }

  lemma OwnedHead(i: Option<nat>, e: Event, rest: seq<Event>)
    requires i.Some?
    ensures Owned(i, [e] + rest) ==
            if Opened(e.payload).Some? && Opened(e.payload).value.index == i then []
            else if e.payload.ContentDelta? && e.payload.index == i.value then [e.payload.delta] + Owned(i, rest)
            else Owned(i, rest)
  {
    assert ([e] + rest)[1..] == rest;
  }

  lemma FusedFirst(es: seq<Event>)
    requires es != []
    ensures var rest := Fused(es[1..]);
            Fused(es) == if rest != [] && SameFragment(es[0].payload, rest[0].payload)
                         then [rest[0].(payload := Joined(es[0].payload, rest[0].payload))] + rest[1..]
                         else [es[0]] + rest
  {
  }

  /** One event more in front, joined with the next or not. */
  lemma OwnedUnderOneMore(i: Option<nat>, e: Event, rest: seq<Event>, rest': seq<Event>)
    requires i.Some? && SameGrowth(Owned(i, rest), Owned(i, rest'))
    ensures SameGrowth(Owned(i, [e] + rest), Owned(i, [e] + rest'))
    ensures rest != [] && SameFragment(e.payload, rest[0].payload) ==>
              SameGrowth(Owned(i, [rest[0].(payload := Joined(e.payload, rest[0].payload))] + rest[1..]), Owned(i, [e] + rest'))
  {
    hide SameGrowth;
    OwnedHead(i, e, rest);
    OwnedHead(i, e, rest');
    if e.payload.ContentDelta? && e.payload.index == i.value {
      GrowthUnderOneMore(e.payload.delta, Owned(i, rest), Owned(i, rest'));
    }
    GrowthAsItself([]);
    if rest != [] && SameFragment(e.payload, rest[0].payload) {
      OwnedJoined(i, e.payload, rest);
      GrowthChain(Owned(i, [rest[0].(payload := Joined(e.payload, rest[0].payload))] + rest[1..]), Owned(i, [e] + rest), Owned(i, [e] + rest'));
    }
  }

  lemma OwnedJoined(i: Option<nat>, p: Payload, rest: seq<Event>)
    requires i.Some? && rest != [] && SameFragment(p, rest[0].payload)
    ensures SameGrowth(Owned(i, [rest[0].(payload := Joined(p, rest[0].payload))] + rest[1..]),
                       (if p.index == i.value then [p.delta] else []) + Owned(i, rest))
  {
    var q, ds := rest[0].payload, Owned(i, rest[1..]);
    var d, d' := p.delta, q.delta;
    var j := rest[0].(payload := Joined(p, q));
    OwnedOne(i, j, rest[1..]);
    assert [rest[0]] + rest[1..] == rest;
    OwnedOne(i, rest[0], rest[1..]);
    hide Owned;
    if p.index == i.value {
      JoinedGrowth(d, d', ds);
    } else {
      assert [] + ds == ds;
    }
  }

  lemma OwnedOne(i: Option<nat>, e: Event, rest: seq<Event>)
    requires i.Some? && e.payload.ContentDelta?
    ensures Owned(i, [e] + rest) == (if e.payload.index == i.value then [e.payload.delta] else []) + Owned(i, rest)
  {
    assert ([e] + rest)[1..] == rest;
  }

  lemma DenoteOne(e: Event, rest: seq<Event>)
    ensures var c := Opened(e.payload);
            Denote([e] + rest) == (if c.Some? then [Grown(c.value, Owned(c.value.index, rest))] else []) + Denote(rest)
  {
    assert ([e] + rest)[1..] == rest;
  }

  lemma {:induction false} DenoteFused(es: seq<Event>)
    ensures Denote(Fused(es)) == Denote(es)
  {
    if es != [] {
      var e, rest := es[0], Fused(es[1..]);
      DenoteFused(es[1..]);
      DenoteOne(e, es[1..]);
      assert [e] + es[1..] == es;
      var joined := rest != [] && SameFragment(e.payload, rest[0].payload);
      if joined {
        var j := rest[0].(payload := Joined(e.payload, rest[0].payload));
        assert Fused(es) == [j] + rest[1..];
        hide Denote, Owned, Fused, Grown;
        DenoteOne(j, rest[1..]);
        DenoteOne(rest[0], rest[1..]);
        assert [rest[0]] + rest[1..] == rest;
      } else {
        assert Fused(es) == [e] + rest;
        hide Denote, Owned, Fused, Grown;
        DenoteOne(e, rest);
        if Opened(e.payload).Some? {
          var c := Opened(e.payload).value;
          OwnedFused(c.index, es[1..]);
          SameGrown(c, Owned(c.index, rest), Owned(c.index, es[1..]));
        }
      }
    }
  }

  lemma SameGrown(c: Content, ds: seq<Delta>, ds': seq<Delta>)
    requires SameGrowth(ds, ds')
    ensures Grown(c, ds) == Grown(c, ds')
  {
  }

  /**
   Two streams that open the same indices in the same order, and that agree for every index on its own part up to how
   its fragments are cut, reduce to the same contents: neither the interleaving of blocks nor the chunking matters.
   */
  lemma InterleavingDoesNotMatter(es: seq<Event>, es': seq<Event>)
    requires OpenedIndices(es) == OpenedIndices(es')
    requires forall i :: Fused(Project(i, es)) == Fused(Project(i, es'))
    ensures Contents(Run(EMPTY, es).resp) == Contents(Run(EMPTY, es').resp)
  {
    ReducerDenotes(es);
    ReducerDenotes(es');
    DenotedIndices(es);
    DenotedIndices(es');
    forall i ensures WithIndex(i, Denote(es)) == WithIndex(i, Denote(es')) {
      DenoteOfProjection(i, es);
      DenoteOfProjection(i, es');
      assert Fused(Project(i, es)) == Fused(Project(i, es'));
      DenoteFused(Project(i, es));
      DenoteFused(Project(i, es'));
    }
    DeterminedByIndices(Denote(es), Denote(es'));
  }

  // ----- Usage -----

  datatype UsageField = InputTokens | OutputTokens | CachedInputTokens | ReasoningTokens

  function FieldOf(u: Option<Usage>, f: UsageField): nat {
    if u.None? then 0 else
    match f
    case InputTokens => u.value.input
    case OutputTokens => u.value.output
    case CachedInputTokens => u.value.cached
    case ReasoningTokens => u.value.reasoning
  }

  /** The last non-zero value a field was reported with. */
  function LastReport(f: UsageField, es: seq<Event>): nat {
    if es == [] then 0 else
    var last := FieldOf(es[|es| - 1].usage, f);
    if last != 0 then last else LastReport(f, es[..|es| - 1])
  }

  lemma {:induction false} RunAppend(r: Reducer, es: seq<Event>, e: Event)
    ensures Run(r, es + [e]) == Reduced(Run(r, es), e)
    decreases es
  {
    if es == [] {
      assert es + [e] == [e] && [e][1..] == [];
      assert Run(Reduced(r, e), []) == Reduced(r, e);
    } else {
      assert (es + [e])[1..] == es[1..] + [e];
      RunAppend(Reduced(r, es[0]), es[1..], e);
    }
  }

  /** Each field of the reduced usage is the last non-zero report of that field. */
  lemma {:induction false} UsageIsLastReport(es: seq<Event>, f: UsageField)
    ensures FieldOf(Run(EMPTY, es).resp.usage, f) == LastReport(f, es)
  {
    if es != [] {
      var n := |es| - 1;
      UsageIsLastReport(es[..n], f);
      assert es == es[..n] + [es[n]];
      RunAppend(EMPTY, es[..n], es[n]);
      ReducedUsage(Run(EMPTY, es[..n]), es[n]);
    }
  }

  lemma ReducedUsage(r: Reducer, e: Event)
    ensures Reduced(r, e).resp.usage == MergeUsage(r.resp.usage, e.usage)
  {
  }

  /** Id, model and status are those that the stream has given last. */
  lemma {:induction false} HeaderIsLast(es: seq<Event>)
    ensures var r := Run(EMPTY, es).resp; (MessageOf(r).id, r.model) == LastStart(es) && r.status == LastStop(es)
  {
    if es != [] {
      var n := |es| - 1;
      HeaderIsLast(es[..n]);
      assert es == es[..n] + [es[n]];
      RunAppend(EMPTY, es[..n], es[n]);
      ReducedHeader(Run(EMPTY, es[..n]), es[n]);
      hide Run, Reduced;
    }
  }

  lemma ReducedHeader(r: Reducer, e: Event)
    ensures var s, s', p := r.resp, Reduced(r, e).resp, e.payload;
            && (MessageOf(s').id, s'.model) == (if p.MessageStart? then (p.messageId, p.model) else (MessageOf(s).id, s.model))
            && s'.status == if p.MessageStop? then p.status else s.status
  {
  }
}
