/**
 What a Responses upstream's stream comes to once decoded and reduced: contents, status and usage, read off the arrivals
 without the client.
 */
module ResponsesUpstreamContents {
  import opened Basics
  import opened ChatTypes
  import opened ResponsesUpstream
  import opened ResponsesUpstreamShape
  import R = Reducers

  // ----- Read off the arrivals -----

  /** The part of an output that is open ends where it is done with, where any part opens, or with the response. */
  predicate EndsPart(out: int, a: Arrival) {
    Opens(a) || (a.SummaryAdded? && a.out != out) || (Closes(a) && a.out == out) || a.Ended?
  }

  /** A delta by what it carries. */
  function Carried(a: Arrival): seq<Delta> {
    match a
    case ReasoningDelta(_, text) => [TextDelta(text)]
    case OutputTextDelta(_, text) => [TextDelta(text)]
    case ArgumentsDelta(_, text) => [ToolInputDelta(text)]
    case _ => []
  }

  /** The deltas that name an output, until its part ends. */
  function Deltas(out: int, later: seq<Arrival>): seq<Delta> {
    if later == [] || EndsPart(out, later[0]) then []
    else (if IsDelta(later[0]) && later[0].out == out then Carried(later[0]) else []) + Deltas(out, later[1..])
  }

  function NextOpen(open: Option<int>, a: Arrival): Option<int> {
    if Opens(a) || a.SummaryAdded? then Some(a.out)
    else if a.Ended? || (Closes(a) && open == Some(a.out)) then None
    else open
  }

  /** The phases of outputs, as they are added. */
  function NextPhases(phases: map<int, Phase>, a: Arrival): map<int, Phase> {
    if a.OutputAdded? then phases[a.out := if a.added.OtherAdded? && a.added.finalAnswer then Outcome else Normal] else phases
  }

  /** The content that an arrival begins, if any; positions aside. */
  function Begun(phases: map<int, Phase>, open: Option<int>, a: Arrival): seq<Content> {
    match a
    case OutputAdded(_, CallAdded(id, callId, name)) => [Content(id, None, Normal, "", ToolUse(callId, name, []))]
    case PartAdded(out, id, OutputText) => [Content(id, None, if out in phases then phases[out] else Normal, "", Text(""))]
    case PartAdded(_, id, ReasoningText) => [Content(id, None, Reasoning, "", Text(""))]
    case SummaryAdded(out, id) => if open == Some(out) then [] else [Content(id, None, Reasoning, "", Text(""))]
    case OutputDone(_, ReasoningDone(id, encrypted)) => if encrypted == "" then [] else [Content(id, None, Reasoning, "", Opaque(encrypted))]
    case _ => []
  }

  /** The contents in the order in which they begin, each with the deltas for it. */
  function Heard(phases: map<int, Phase>, open: Option<int>, arrivals: seq<Arrival>): seq<Content>
    decreases arrivals
  {
    if arrivals == [] then [] else
    var a, later := arrivals[0], arrivals[1..];
    var begun := Begun(phases, open, a);
    (if begun == [] || a.OutputDone? then begun else [R.Grown(begun[0], Deltas(a.out, later))])
    + Heard(NextPhases(phases, a), NextOpen(open, a), later)
  }

  /** No error, and no delta but for the output whose part is open. */
  predicate LiveFrom(open: Option<int>, arrivals: seq<Arrival>)
    decreases arrivals
  {
    arrivals == [] ||
    (!arrivals[0].ErrorArrived? && (IsDelta(arrivals[0]) ==> open == Some(arrivals[0].out))
     && LiveFrom(NextOpen(open, arrivals[0]), arrivals[1..]))
  }

  function Unindexed(cs: seq<Content>): (r: seq<Content>)
    ensures |r| == |cs|
  {
    seq(|cs|, k requires 0 <= k < |cs| => cs[k].(index := None))
  }

  // ----- The client's events, from some point on -----

  /** The stop of the open block that an arrival calls for. */
  function Stops(c: Client, requestId: string, a: Arrival): seq<Event> {
    if c.hasOpen && EndsPart(c.openOutput, a) && !(Opens(a) && a.out == c.openOutput)
    then [Event(requestId, None, ContentStop(c.openContent))] else []
  }

  /** The index of the content that an arrival begins. */
  function IndexFor(c: Client, a: Arrival): nat {
    if Opens(a) && c.hasOpen && a.out == c.openOutput then c.openContent else c.nextIndex
  }

  function Started(c: Client, requestId: string, a: Arrival): seq<Event> {
    var begun := Begun(c.phases, OpenSlot(c), a);
    if begun == [] then [] else
    var c := begun[0].(index := Some(IndexFor(c, a)));
    [Event(requestId, None, if c.body.Opaque? then ContentSnapshot(c)
                            else ContentStart(c.id, c.index.value, c.phase, if c.body.ToolUse? then ToolStart(c.body.callId, c.body.name) else TextStart))]
  }

  /** All else an arrival becomes. */
  function Others(c: Client, requestId: string, a: Arrival): seq<Event> {
    match a
    case Created(id, model) => [Event(requestId, None, MessageStart(id, model))]
    case Ended(status, hasCall, usage) =>
      var s := StatusFrom(status, hasCall);
      [Event(requestId, UsageFrom(usage), MessageStop(if s == Completed && c.hasFunctionCall then PendingToolUse else s))]
    case _ => if Carried(a) == [] then [] else [Event(requestId, None, ContentDelta(c.openContent, Carried(a)[0]))]
  }

  function New(c: Client, requestId: string, a: Arrival): seq<Event> {
    Stops(c, requestId, a) + (Started(c, requestId, a) + Others(c, requestId, a))
  }

  /** The table is the open slot, and its content has been numbered. */
  ghost predicate InOrder(c: Client) {
    OneSlot(c) && !c.failed && (c.hasOpen ==> c.openContent < c.nextIndex)
  }

  ghost predicate Stepped(c: Client, requestId: string, a: Arrival, r: Client) {
    && InOrder(r) && r.emitted == c.emitted + New(c, requestId, a)
    && r.phases == NextPhases(c.phases, a) && OpenSlot(r) == NextOpen(OpenSlot(c), a)
    && (if Opens(a) || (a.SummaryAdded? && OpenSlot(c) != Some(a.out)) then r.openContent == IndexFor(c, a) else r.hasOpen ==> c.hasOpen && r.openContent == c.openContent)
    && r.nextIndex == MaxInt(c.nextIndex, if Begun(c.phases, OpenSlot(c), a) == [] then 0 else IndexFor(c, a) + 1)
    && r.messageStarted == (c.messageStarted || a.Created?) && r.stopEmitted == (c.stopEmitted || a.Ended?)
    && r.hasFunctionCall == (c.hasFunctionCall || (a.OutputAdded? && a.added.CallAdded?) || (a.OutputDone? && a.done.CallDone?))
  }

  lemma {:induction false} CloseNew(c: Client, requestId: string)
    requires InOrder(c)
    ensures var r := CloseOpen(c, requestId);
            && InOrder(r) && !r.hasOpen && r == c.(emitted := r.emitted, slots := map[], hasOpen := false)
            && r.emitted == c.emitted + if c.hasOpen then [Event(requestId, None, ContentStop(c.openContent))] else []
  {
    assert map[c.openOutput := c.openContent] - {c.openOutput} == map[];
  }

  lemma {:induction false} CloseOutputNew(c: Client, requestId: string, out: int)
    requires InOrder(c)
    ensures CloseOutput(c, requestId, out) == if OpenSlot(c) == Some(out) then CloseOpen(c, requestId) else c
  {
    assert map[c.openOutput := c.openContent] - {c.openOutput} == map[];
  }

  lemma {:induction false} OpenNew(c: Client, requestId: string, out: int, id: string, phase: Phase, kind: StartKind)
    requires InOrder(c)
    ensures var r, again := OpenAs(c, requestId, out, id, phase, kind), OpenSlot(c) == Some(out);
            var index := if again then c.openContent else c.nextIndex;
            && InOrder(r) && r.hasOpen && r.openOutput == out && r.openContent == index && r.phases == c.phases
            && r.nextIndex == (if again then c.nextIndex else c.nextIndex + 1)
            && r.messageStarted == c.messageStarted && r.stopEmitted == c.stopEmitted && r.hasFunctionCall == c.hasFunctionCall
            && r.emitted == c.emitted + (if again || !c.hasOpen then [] else [Event(requestId, None, ContentStop(c.openContent))])
                            + [Event(requestId, None, ContentStart(id, index, phase, kind))]
  {
    CloseNew(c, requestId);
    hide CloseOpen;
    if OpenSlot(c) == Some(out) {
      assert c.emitted + [] == c.emitted;
    }
  }

  lemma {:induction false} StepNew(c: Client, requestId: string, a: Arrival)
    requires InOrder(c) && !a.ErrorArrived? && (IsDelta(a) ==> OpenSlot(c) == Some(a.out))
    ensures Stepped(c, requestId, a, Step(c, requestId, a))
  {
    hide Stepped, StatusFrom, UsageFrom;
    if Opens(a) || a.SummaryAdded? {
      OpeningNew(c, requestId, a);
    } else if a.OutputDone? {
      DoneNew(c, requestId, a);
    } else if Closes(a) || a.Ended? {
      ClosingNew(c, requestId, a);
    } else {
      OtherNew(c, requestId, a);
    }
  }

  lemma {:induction false} OpeningNew(c: Client, requestId: string, a: Arrival)
    requires InOrder(c) && (Opens(a) || a.SummaryAdded?)
    ensures Stepped(c, requestId, a, Step(c, requestId, a))
  {
    hide OpenAs, Stepped, InOrder;
    match a
    case OutputAdded(out, item) =>
      OpenStepped(c, c.(phases := c.phases[out := Normal], hasFunctionCall := true), requestId, a, item.id, Normal, ToolStart(item.callId, item.name));
    case PartAdded(out, itemId, kind) =>
      OpenStepped(c, c, requestId, a, itemId, if kind.ReasoningText? then Reasoning else if out in c.phases then c.phases[out] else Normal, TextStart);
    case SummaryAdded(out, itemId) =>
      SlotOf(c, out);
      if OpenSlot(c) == Some(out) {
        AgainStepped(c, requestId, a);
      } else {
        OpenStepped(c, c, requestId, a, itemId, Reasoning, TextStart);
      }
  }

  lemma SlotOf(c: Client, out: int)
    requires InOrder(c)
    ensures out in c.slots <==> OpenSlot(c) == Some(out)
  {
  }

  lemma {:induction false} AgainStepped(c: Client, requestId: string, a: Arrival)
    requires InOrder(c) && a.SummaryAdded? && OpenSlot(c) == Some(a.out)
    ensures Stepped(c, requestId, a, c)
  {
    assert c.emitted + ([] + ([] + [])) == c.emitted;
  }

  lemma {:induction false} OpenStepped(c: Client, d: Client, requestId: string, a: Arrival, id: string, phase: Phase, kind: StartKind)
    requires InOrder(c) && (Opens(a) || (a.SummaryAdded? && OpenSlot(c) != Some(a.out)))
    requires d == c.(phases := NextPhases(c.phases, a), hasFunctionCall := c.hasFunctionCall || a.OutputAdded?)
    requires kind.TextStart? || kind.ToolStart?
    requires Begun(c.phases, OpenSlot(c), a)
          == [Content(id, None, phase, "", if kind.TextStart? then Text("") else ToolUse(kind.callId, kind.name, []))]
    ensures Stepped(c, requestId, a, OpenAs(d, requestId, a.out, id, phase, kind))
  {
    hide OpenAs, New, Begun, OneSlot, Stepped, InOrder;
    SameOrder(c, d);
    OpenNew(d, requestId, a.out, id, phase, kind);
    OpenedNew(c, requestId, a, id, phase, kind);
    var r := OpenAs(d, requestId, a.out, id, phase, kind);
    AppendAssociates(c.emitted, if OpenSlot(c) == Some(a.out) || !c.hasOpen then [] else [Event(requestId, None, ContentStop(c.openContent))],
                     [Event(requestId, None, ContentStart(id, IndexFor(c, a), phase, kind))]);
    OpenedStepped(c, requestId, a, r);
  }

  lemma SameOrder(c: Client, d: Client)
    requires InOrder(c) && d == c.(phases := d.phases, hasFunctionCall := d.hasFunctionCall)
    ensures InOrder(d) && OpenSlot(d) == OpenSlot(c)
  {
  }

  lemma OpenedStepped(c: Client, requestId: string, a: Arrival, r: Client)
    requires InOrder(c) && InOrder(r) && (Opens(a) || (a.SummaryAdded? && OpenSlot(c) != Some(a.out)))
    requires r.emitted == c.emitted + New(c, requestId, a) && Begun(c.phases, OpenSlot(c), a) != []
    requires r.hasOpen && r.openOutput == a.out && r.openContent == IndexFor(c, a) && r.phases == NextPhases(c.phases, a)
    requires r.nextIndex == if OpenSlot(c) == Some(a.out) then c.nextIndex else c.nextIndex + 1
    requires r.messageStarted == c.messageStarted && r.stopEmitted == c.stopEmitted
    requires r.hasFunctionCall == (c.hasFunctionCall || a.OutputAdded?)
    ensures Stepped(c, requestId, a, r)
  {
    hide New, Begun, OneSlot;
  }

  lemma {:induction false} OpenedNew(c: Client, requestId: string, a: Arrival, id: string, phase: Phase, kind: StartKind)
    requires (Opens(a) || (a.SummaryAdded? && OpenSlot(c) != Some(a.out))) && (kind.TextStart? || kind.ToolStart?)
    requires Begun(c.phases, OpenSlot(c), a)
          == [Content(id, None, phase, "", if kind.TextStart? then Text("") else ToolUse(kind.callId, kind.name, []))]
    ensures New(c, requestId, a) ==
            (if OpenSlot(c) == Some(a.out) || !c.hasOpen then [] else [Event(requestId, None, ContentStop(c.openContent))])
            + [Event(requestId, None, ContentStart(id, IndexFor(c, a), phase, kind))]
    ensures IndexFor(c, a) == if OpenSlot(c) == Some(a.out) then c.openContent else c.nextIndex
  {
    hide Begun;
  }

  lemma {:induction false} DoneNew(c: Client, requestId: string, a: Arrival)
    requires InOrder(c) && a.OutputDone?
    ensures Stepped(c, requestId, a, Step(c, requestId, a))
  {
    hide *;
    DoneIs(c, requestId, a);
    var c' := c.(hasFunctionCall := c.hasFunctionCall || a.done.CallDone?);
    SameOrder(c, c');
    CloseOutputNew(c', requestId, a.out);
    CloseNew(c', requestId);
    SealNew(c, requestId, a);
    SlotOpen(c, a.out);
    var d := CloseOutput(c', requestId, a.out);
    var stops := if OpenSlot(c) == Some(a.out) then [Event(requestId, None, ContentStop(c.openContent))] else [];
    assert d.emitted == c.emitted + stops;
    var sealed := if a.done.ReasoningDone? && a.done.encrypted != ""
      then [Event(requestId, None, ContentSnapshot(Content(a.done.id, Some(c.nextIndex), Reasoning, "", Opaque(a.done.encrypted))))] else [];
    AppendAssociates(c.emitted, stops, sealed);
    assert c.emitted + stops + [] == c.emitted + stops;
    DoneStepped(c, requestId, a, d, Step(c, requestId, a));
  }

  lemma SlotOpen(c: Client, out: int)
    ensures OpenSlot(c) == Some(out) <==> c.hasOpen && c.openOutput == out
  {
  }

  lemma DoneStepped(c: Client, requestId: string, a: Arrival, d: Client, r: Client)
    requires InOrder(c) && InOrder(d) && a.OutputDone? && r.emitted == c.emitted + New(c, requestId, a)
    requires d.hasOpen == (c.hasOpen && c.openOutput != a.out) && d.openOutput == c.openOutput && d.openContent == c.openContent
    requires r == d.(emitted := r.emitted, nextIndex := if Begun(c.phases, OpenSlot(c), a) == [] then c.nextIndex else c.nextIndex + 1)
    requires d.nextIndex == c.nextIndex && IndexFor(c, a) == c.nextIndex && d.phases == c.phases
    requires d.messageStarted == c.messageStarted && d.stopEmitted == c.stopEmitted && d.hasFunctionCall == (c.hasFunctionCall || a.done.CallDone?)
    ensures Stepped(c, requestId, a, r)
  {
    hide New, Begun, IndexFor;
  }

  lemma DoneIs(c: Client, requestId: string, a: Arrival)
    requires a.OutputDone?
    ensures var d, r := CloseOutput(c.(hasFunctionCall := c.hasFunctionCall || a.done.CallDone?), requestId, a.out), Step(c, requestId, a);
            if a.done.ReasoningDone? && a.done.encrypted != ""
            then r == d.(nextIndex := d.nextIndex + 1, emitted := r.emitted)
                 && r.emitted == d.emitted + [Event(requestId, None, ContentSnapshot(Content(a.done.id, Some(d.nextIndex), Reasoning, "", Opaque(a.done.encrypted))))]
            else r == d
  {
    hide CloseOutput;
  }

  lemma {:induction false} SealNew(c: Client, requestId: string, a: Arrival)
    requires a.OutputDone?
    ensures New(c, requestId, a) ==
            (if OpenSlot(c) == Some(a.out) then [Event(requestId, None, ContentStop(c.openContent))] else [])
            + (if a.done.ReasoningDone? && a.done.encrypted != ""
               then [Event(requestId, None, ContentSnapshot(Content(a.done.id, Some(c.nextIndex), Reasoning, "", Opaque(a.done.encrypted))))] else [])
    ensures Begun(c.phases, OpenSlot(c), a) == [] <==> !(a.done.ReasoningDone? && a.done.encrypted != "")
    ensures IndexFor(c, a) == c.nextIndex
  {
  }

  lemma {:induction false} ClosingNew(c: Client, requestId: string, a: Arrival)
    requires InOrder(c) && (Closes(a) || a.Ended?) && !a.OutputDone?
    ensures Stepped(c, requestId, a, Step(c, requestId, a))
  {
    if !a.Ended? {
      CloseOutputNew(c, requestId, a.out);
    }
    CloseNew(c, requestId);
    hide CloseOpen, CloseOutput, StatusFrom, UsageFrom;
  }

  lemma {:induction false} OtherNew(c: Client, requestId: string, a: Arrival)
    requires InOrder(c) && !Opens(a) && !a.SummaryAdded? && !Closes(a) && !a.Ended? && !a.ErrorArrived?
    requires IsDelta(a) ==> OpenSlot(c) == Some(a.out)
    ensures Stepped(c, requestId, a, Step(c, requestId, a))
  {
    hide OpenAs, CloseOutput, CloseOpen, StatusFrom, UsageFrom, OnOutputDone, OnEnded;
  }

  // ----- What one arrival adds to the reading of what follows -----

  lemma PlainRead(x: Event, rest: seq<Event>)
    requires R.Opened(x.payload).None? && !x.payload.ContentDelta?
    ensures R.Denote([x] + rest) == R.Denote(rest) && forall j: nat :: R.Owned(Some(j), [x] + rest) == R.Owned(Some(j), rest)
  {
    hide R.Denote, R.Owned;
    R.DenotedInFront(x, rest);
    assert [] + R.Denote(rest) == R.Denote(rest);
    forall j: nat ensures R.Owned(Some(j), [x] + rest) == R.Owned(Some(j), rest) {
      R.OwnedHead(Some(j), x, rest);
    }
  }

  lemma StopsRead(c: Client, requestId: string, a: Arrival, rest: seq<Event>)
    ensures R.Denote(Stops(c, requestId, a) + rest) == R.Denote(rest)
    ensures forall j: nat :: R.Owned(Some(j), Stops(c, requestId, a) + rest) == R.Owned(Some(j), rest)
  {
    hide R.Denote, R.Owned;
    assert [] + rest == rest;
    PlainRead(Event(requestId, None, ContentStop(c.openContent)), rest);
  }

  lemma OthersRead(c: Client, requestId: string, a: Arrival, rest: seq<Event>)
    ensures R.Denote(Others(c, requestId, a) + rest) == R.Denote(rest)
    ensures forall j: nat :: R.Owned(Some(j), Others(c, requestId, a) + rest) ==
                             (if IsDelta(a) && j == c.openContent then Carried(a) else []) + R.Owned(Some(j), rest)
  {
    hide R.Denote, R.Owned, StatusFrom, UsageFrom;
    assert [] + rest == rest && forall j: nat :: [] + R.Owned(Some(j), rest) == R.Owned(Some(j), rest);
    var xs := Others(c, requestId, a);
    if IsDelta(a) {
      R.DenotedInFront(xs[0], rest);
      assert [] + R.Denote(rest) == R.Denote(rest);
      forall j: nat ensures R.Owned(Some(j), [xs[0]] + rest) == (if j == c.openContent then Carried(a) else []) + R.Owned(Some(j), rest) {
        R.OwnedHead(Some(j), xs[0], rest);
      }
    } else if xs != [] {
      PlainRead(xs[0], rest);
    }
  }

  lemma StartedRead(c: Client, requestId: string, a: Arrival, rest: seq<Event>)
    ensures var begun, i := Begun(c.phases, OpenSlot(c), a), IndexFor(c, a);
            R.Denote(Started(c, requestId, a) + rest) ==
            (if begun == [] then [] else [R.Grown(begun[0].(index := Some(i)), R.Owned(Some(i), rest))]) + R.Denote(rest)
    ensures forall j: nat :: R.Owned(Some(j), Started(c, requestId, a) + rest) ==
                             if Begun(c.phases, OpenSlot(c), a) != [] && j == IndexFor(c, a) then [] else R.Owned(Some(j), rest)
  {
    hide R.Denote, R.Owned, R.Grown, IndexFor, OpenSlot;
    assert [] + rest == rest && [] + R.Denote(rest) == R.Denote(rest);
    var begun, xs := Begun(c.phases, OpenSlot(c), a), Started(c, requestId, a);
    if begun != [] {
      R.DenotedInFront(xs[0], rest);
      forall j: nat ensures R.Owned(Some(j), [xs[0]] + rest) == if j == IndexFor(c, a) then [] else R.Owned(Some(j), rest) {
        R.OwnedHead(Some(j), xs[0], rest);
      }
    }
  }

  lemma StepRead(c: Client, requestId: string, a: Arrival, rest: seq<Event>)
    ensures var begun, i := Begun(c.phases, OpenSlot(c), a), IndexFor(c, a);
            R.Denote(New(c, requestId, a) + rest) ==
            (if begun == [] then [] else [R.Grown(begun[0].(index := Some(i)), R.Owned(Some(i), rest))]) + R.Denote(rest)
    ensures forall j: nat :: R.Owned(Some(j), New(c, requestId, a) + rest) ==
                             if Begun(c.phases, OpenSlot(c), a) != [] && j == IndexFor(c, a) then []
                             else (if IsDelta(a) && j == c.openContent then Carried(a) else []) + R.Owned(Some(j), rest)
  {
    hide R.Denote, R.Owned, R.Grown, IndexFor, OpenSlot, Stops, Started, Others;
    var xs, ys, zs := Stops(c, requestId, a), Started(c, requestId, a), Others(c, requestId, a);
    assert xs + (ys + zs) + rest == xs + (ys + (zs + rest));
    StopsRead(c, requestId, a, ys + (zs + rest));
    StartedRead(c, requestId, a, zs + rest);
    OthersRead(c, requestId, a, rest);
    OneOrOther(c, requestId, a);
    assert [] + rest == rest && forall j: nat :: [] + R.Owned(Some(j), rest) == R.Owned(Some(j), rest);
  }

  lemma OneOrOther(c: Client, requestId: string, a: Arrival)
    ensures Begun(c.phases, OpenSlot(c), a) != [] ==> Others(c, requestId, a) == [] && !IsDelta(a)
  {
    hide StatusFrom, UsageFrom, OpenSlot;
  }

  // ----- Whole streams -----

  function EndEvents(c: Client, requestId: string): seq<Event> {
    if !c.messageStarted || c.stopEmitted then [] else
    (if c.hasOpen then [Event(requestId, None, ContentStop(c.openContent))] else []) + [Event(requestId, None, MessageStop(Failed))]
  }

  function Events(c: Client, requestId: string, arrivals: seq<Arrival>): seq<Event>
    decreases arrivals
  {
    if arrivals == [] then EndEvents(c, requestId)
    else New(c, requestId, arrivals[0]) + Events(Step(c, requestId, arrivals[0]), requestId, arrivals[1..])
  }

  lemma EndRead(c: Client, requestId: string)
    ensures R.Denote(EndEvents(c, requestId)) == [] && forall j: nat :: R.Owned(Some(j), EndEvents(c, requestId)) == []
  {
    hide R.Denote, R.Owned;
    NothingRead();
    var x, y := Event(requestId, None, ContentStop(c.openContent)), Event(requestId, None, MessageStop(Failed));
    PlainRead(y, []);
    PlainRead(x, [y]);
    assert [y] + [] == [y] && [] + [y] == [y];
  }

  lemma NothingRead()
    ensures R.Denote([]) == [] && forall j: nat :: R.Owned(Some(j), []) == []
  {
  }

  lemma UnindexedMore(c: Content, i: Option<nat>, ds: seq<Delta>, cs: seq<Content>)
    requires c.index == None
    ensures Unindexed([R.Grown(c.(index := i), ds)] + cs) == [R.Grown(c, ds)] + Unindexed(cs)
  {
    hide R.Texts, R.Signatures, R.ToolInput;
    assert R.Grown(c.(index := i), ds).(index := None) == R.Grown(c, ds);
  }

  /** What the client's later events say of the contents, by the arrivals. */
  ghost predicate Says(c: Client, arrivals: seq<Arrival>, es: seq<Event>) {
    && Unindexed(R.Denote(es)) == Heard(c.phases, OpenSlot(c), arrivals)
    && (c.hasOpen ==> R.Owned(Some(c.openContent), es) == Deltas(c.openOutput, arrivals))
    && forall j: nat | j < c.nextIndex && !(c.hasOpen && j == c.openContent) :: R.Owned(Some(j), es) == []
  }

  lemma {:induction false} EventsHeard(c: Client, requestId: string, arrivals: seq<Arrival>)
    requires InOrder(c) && LiveFrom(OpenSlot(c), arrivals)
    ensures Says(c, arrivals, Events(c, requestId, arrivals))
    decreases arrivals
  {
    hide *;
    if arrivals == [] {
      EndRead(c, requestId);
      NothingHeard(c, requestId);
    } else {
      var a, later := arrivals[0], arrivals[1..];
      FirstArrival(c, requestId, arrivals);
      StepNew(c, requestId, a);
      var r := Step(c, requestId, a);
      SteppedOpen(c, requestId, a, r);
      EventsHeard(r, requestId, later);
      StepRead(c, requestId, a, Events(r, requestId, later));
      SaysBefore(c, requestId, a, r, later, Events(r, requestId, later));
    }
  }

  lemma NothingHeard(c: Client, requestId: string)
    requires R.Denote(EndEvents(c, requestId)) == [] && forall j: nat :: R.Owned(Some(j), EndEvents(c, requestId)) == []
    ensures Says(c, [], Events(c, requestId, []))
  {
    hide R.Denote, R.Owned, EndEvents;
  }

  lemma FirstArrival(c: Client, requestId: string, arrivals: seq<Arrival>)
    requires arrivals != []
    ensures var a, later := arrivals[0], arrivals[1..];
            && Events(c, requestId, arrivals) == New(c, requestId, a) + Events(Step(c, requestId, a), requestId, later)
            && [a] + later == arrivals
            && (LiveFrom(OpenSlot(c), arrivals) ==>
                  !a.ErrorArrived? && (IsDelta(a) ==> OpenSlot(c) == Some(a.out)) && LiveFrom(NextOpen(OpenSlot(c), a), later))
  {
    hide New, Step;
  }

  lemma SteppedOpen(c: Client, requestId: string, a: Arrival, r: Client)
    requires Stepped(c, requestId, a, r)
    ensures InOrder(r) && OpenSlot(r) == NextOpen(OpenSlot(c), a) && r.phases == NextPhases(c.phases, a)
  {
  }

  lemma SaysBefore(c: Client, requestId: string, a: Arrival, r: Client, later: seq<Arrival>, rest: seq<Event>)
    requires InOrder(c) && Stepped(c, requestId, a, r) && (IsDelta(a) ==> OpenSlot(c) == Some(a.out)) && Says(r, later, rest)
    requires var begun, i := Begun(c.phases, OpenSlot(c), a), IndexFor(c, a);
             R.Denote(New(c, requestId, a) + rest) ==
             (if begun == [] then [] else [R.Grown(begun[0].(index := Some(i)), R.Owned(Some(i), rest))]) + R.Denote(rest)
    requires forall j: nat :: R.Owned(Some(j), New(c, requestId, a) + rest) ==
                              if Begun(c.phases, OpenSlot(c), a) != [] && j == IndexFor(c, a) then []
                              else (if IsDelta(a) && j == c.openContent then Carried(a) else []) + R.Owned(Some(j), rest)
    ensures Says(c, [a] + later, New(c, requestId, a) + rest)
  {
    hide R.Denote, R.Owned, R.Grown, Begun, New, NextPhases;
    ContentBefore(c, requestId, a, r, later, rest);
    OpenBefore(c, requestId, a, r, later, rest);
    OthersBefore(c, requestId, a, r, later, rest);
    assert ([a] + later)[0] == a && ([a] + later)[1..] == later;
    hide InOrder, Heard, Deltas;
  }

  lemma ContentBefore(c: Client, requestId: string, a: Arrival, r: Client, later: seq<Arrival>, rest: seq<Event>)
    requires InOrder(c) && Stepped(c, requestId, a, r) && Says(r, later, rest)
    ensures var begun, i := Begun(c.phases, OpenSlot(c), a), IndexFor(c, a);
            Heard(c.phases, OpenSlot(c), [a] + later) ==
            Unindexed((if begun == [] then [] else [R.Grown(begun[0].(index := Some(i)), R.Owned(Some(i), rest))]) + R.Denote(rest))
  {
    hide R.Denote, R.Owned, R.Grown, New, NextPhases, Deltas, EndsPart;
    var begun, i := Begun(c.phases, OpenSlot(c), a), IndexFor(c, a);
    assert ([a] + later)[0] == a && ([a] + later)[1..] == later;
    BegunFacts(c.phases, OpenSlot(c), a);
    hide Begun;
    if begun == [] {
      assert [] + R.Denote(rest) == R.Denote(rest) && [] + Heard(r.phases, OpenSlot(r), later) == Heard(r.phases, OpenSlot(r), later);
    } else {
      UnindexedMore(begun[0], Some(i), R.Owned(Some(i), rest), R.Denote(rest));
      if a.OutputDone? {
        R.GrownByNothing(begun[0]);
        assert R.Owned(Some(i), rest) == [];
      } else {
        assert r.hasOpen && r.openContent == i && r.openOutput == a.out;
      }
    }
  }

  lemma BegunFacts(phases: map<int, Phase>, open: Option<int>, a: Arrival)
    ensures var begun := Begun(phases, open, a);
            && |begun| <= 1 && (begun != [] ==> begun[0].index == None)
            && (begun != [] <==> Opens(a) || (a.SummaryAdded? && open != Some(a.out)) || (a.OutputDone? && a.done.ReasoningDone? && a.done.encrypted != ""))
  {
  }

  lemma OpenBefore(c: Client, requestId: string, a: Arrival, r: Client, later: seq<Arrival>, rest: seq<Event>)
    requires InOrder(c) && Stepped(c, requestId, a, r) && (IsDelta(a) ==> OpenSlot(c) == Some(a.out)) && Says(r, later, rest)
    requires forall j: nat :: R.Owned(Some(j), New(c, requestId, a) + rest) ==
                              if Begun(c.phases, OpenSlot(c), a) != [] && j == IndexFor(c, a) then []
                              else (if IsDelta(a) && j == c.openContent then Carried(a) else []) + R.Owned(Some(j), rest)
    ensures c.hasOpen ==> R.Owned(Some(c.openContent), New(c, requestId, a) + rest) == Deltas(c.openOutput, [a] + later)
  {
    hide R.Denote, R.Owned, New, NextPhases, Heard, Unindexed, Carried;
    assert ([a] + later)[0] == a && ([a] + later)[1..] == later;
    BegunFacts(c.phases, OpenSlot(c), a);
    hide Begun;
    if c.hasOpen {
      var i: nat := c.openContent;
      assert [] + R.Owned(Some(i), rest) == R.Owned(Some(i), rest);
      if EndsPart(c.openOutput, a) {
        assert (Opens(a) && a.out == c.openOutput) || R.Owned(Some(i), rest) == [];
      } else {
        assert r.hasOpen && r.openOutput == c.openOutput && r.openContent == i;
      }
    }
  }

  lemma OthersBefore(c: Client, requestId: string, a: Arrival, r: Client, later: seq<Arrival>, rest: seq<Event>)
    requires InOrder(c) && Stepped(c, requestId, a, r) && (IsDelta(a) ==> OpenSlot(c) == Some(a.out)) && Says(r, later, rest)
    requires forall j: nat :: R.Owned(Some(j), New(c, requestId, a) + rest) ==
                              if Begun(c.phases, OpenSlot(c), a) != [] && j == IndexFor(c, a) then []
                              else (if IsDelta(a) && j == c.openContent then Carried(a) else []) + R.Owned(Some(j), rest)
    ensures forall j: nat | j < c.nextIndex && !(c.hasOpen && j == c.openContent) :: R.Owned(Some(j), New(c, requestId, a) + rest) == []
  {
    hide R.Denote, R.Owned, New, NextPhases, Heard, Unindexed, Carried, Deltas, EndsPart;
    BegunFacts(c.phases, OpenSlot(c), a);
    hide Begun;
    forall j: nat | j < c.nextIndex && !(c.hasOpen && j == c.openContent) ensures R.Owned(Some(j), New(c, requestId, a) + rest) == [] {
      assert R.Owned(Some(j), rest) == [];
      assert [] + R.Owned(Some(j), rest) == R.Owned(Some(j), rest);
    }
  }

  // ----- From the beginning -----

  lemma {:induction false} LiveSplit(front: seq<Arrival>, later: seq<Arrival>)
    requires Live(front + later)
    ensures Live(front) && LiveFrom(OpenOutput(front), later)
    decreases later
  {
    if later == [] {
      assert front + later == front;
    } else {
      var more := front + [later[0]];
      assert front + later == more + later[1..] && more[..|front|] == front;
      LiveSplit(more, later[1..]);
    }
  }

  lemma {:induction false} RunInOrder(requestId: string, arrivals: seq<Arrival>)
    requires Live(arrivals)
    ensures InOrder(Run(requestId, arrivals)) && OpenSlot(Run(requestId, arrivals)) == OpenOutput(arrivals)
  {
    TableIsOpenSlot(requestId, arrivals);
    if arrivals != [] {
      var n := |arrivals| - 1;
      RunInOrder(requestId, arrivals[..n]);
      hide Stepped, Step, OneSlot;
      StepNew(Run(requestId, arrivals[..n]), requestId, arrivals[n]);
      SteppedOpen(Run(requestId, arrivals[..n]), requestId, arrivals[n], Step(Run(requestId, arrivals[..n]), requestId, arrivals[n]));
    }
  }

  lemma {:induction false} EventsOf(requestId: string, front: seq<Arrival>, later: seq<Arrival>)
    requires Live(front + later)
    ensures Decoded(requestId, front + later) == Run(requestId, front).emitted + Events(Run(requestId, front), requestId, later)
    decreases later
  {
    hide *;
    LiveSplit(front, later);
    RunInOrder(requestId, front);
    var c := Run(requestId, front);
    if later == [] {
      assert front + later == front;
      EndOf(requestId, front);
    } else {
      var a, more := later[0], front + [later[0]];
      assert front + later == more + later[1..];
      EventsOf(requestId, more, later[1..]);
      FirstArrival(c, requestId, later);
      StepNew(c, requestId, a);
      OneArrival(requestId, front, a);
      AppendAssociates(c.emitted, New(c, requestId, a), Events(Step(c, requestId, a), requestId, later[1..]));
    }
  }

  lemma EndOf(requestId: string, arrivals: seq<Arrival>)
    requires InOrder(Run(requestId, arrivals))
    ensures Decoded(requestId, arrivals) == Run(requestId, arrivals).emitted + Events(Run(requestId, arrivals), requestId, [])
  {
    CloseNew(Run(requestId, arrivals), requestId);
    hide CloseOpen, Run, OneSlot;
    var c := Run(requestId, arrivals);
    assert c.emitted + [] == c.emitted;
  }

  lemma OneArrival(requestId: string, front: seq<Arrival>, a: Arrival)
    requires InOrder(Run(requestId, front)) && Stepped(Run(requestId, front), requestId, a, Step(Run(requestId, front), requestId, a))
    ensures var c := Run(requestId, front);
            Run(requestId, front + [a]) == Step(c, requestId, a) && Step(c, requestId, a).emitted == c.emitted + New(c, requestId, a)
  {
    assert (front + [a])[..|front|] == front;
    hide Step, New, OneSlot;
  }

  lemma LiveContents(requestId: string, arrivals: seq<Arrival>)
    requires Live(arrivals)
    ensures Unindexed(Contents(R.Run(R.EMPTY, Decoded(requestId, arrivals)).resp)) == Heard(map[], None, arrivals)
  {
    hide *;
    assert [] + arrivals == arrivals;
    LiveSplit([], arrivals);
    AtFirst(requestId);
    EventsOf(requestId, [], arrivals);
    assert [] + Events(START, requestId, arrivals) == Events(START, requestId, arrivals);
    EventsHeard(START, requestId, arrivals);
    R.ReducerDenotes(Decoded(requestId, arrivals));
    SaysContents(arrivals, Events(START, requestId, arrivals));
  }

  lemma AtFirst(requestId: string)
    ensures Run(requestId, []) == START && START.emitted == [] && InOrder(START) && OpenSlot(START) == None == OpenOutput([])
  {
  }

  lemma SaysContents(arrivals: seq<Arrival>, es: seq<Event>)
    requires Says(START, arrivals, es)
    ensures Unindexed(R.Denote(es)) == Heard(map[], None, arrivals)
  {
  }

  // ----- Streams that fail -----

  /** The arrivals before the first that is an error or a stray delta. */
  function LivePart(arrivals: seq<Arrival>): seq<Arrival> {
    if arrivals == [] then [] else
    var n := |arrivals| - 1;
    if LivePart(arrivals[..n]) == arrivals[..n] && Live(arrivals) then arrivals else LivePart(arrivals[..n])
  }

  /** A stream that fails gives what it has given until then. */
  lemma {:induction false} FailedRun(requestId: string, arrivals: seq<Arrival>)
    ensures Live(LivePart(arrivals)) && (Live(arrivals) <==> LivePart(arrivals) == arrivals)
    ensures Run(requestId, arrivals) == Run(requestId, LivePart(arrivals)).(failed := !Live(arrivals))
  {
    TableIsOpenSlot(requestId, arrivals);
    if arrivals != [] {
      var n := |arrivals| - 1;
      FailedRun(requestId, arrivals[..n]);
      TableIsOpenSlot(requestId, arrivals[..n]);
      if Live(arrivals[..n]) && !Live(arrivals) {
        FailsSilently(Run(requestId, arrivals[..n]), requestId, arrivals[n]);
      }
      hide Step, OneSlot, OpenOutput, OpenSlot;
    }
  }

  lemma FailsSilently(c: Client, requestId: string, a: Arrival)
    requires !c.failed && (a.ErrorArrived? || IsDelta(a))
    ensures var r := Step(c, requestId, a); r.failed ==> r == c.(failed := true)
  {
    hide Emit;
  }

  lemma FailedDecoded(requestId: string, arrivals: seq<Arrival>)
    requires !Live(arrivals)
    ensures Decoded(requestId, arrivals) == Run(requestId, LivePart(arrivals)).emitted
  {
    FailedRun(requestId, arrivals);
    hide Run, LivePart, Live;
  }

  /** What is added at the end has no contents. */
  lemma EndAddsNothing(requestId: string, arrivals: seq<Arrival>)
    requires Live(arrivals)
    ensures Contents(R.Run(R.EMPTY, Decoded(requestId, arrivals)).resp) == Contents(R.Run(R.EMPTY, Run(requestId, arrivals).emitted).resp)
  {
    hide *;
    RunInOrder(requestId, arrivals);
    EndOf(requestId, arrivals);
    var c := Run(requestId, arrivals);
    NoEvents(c, requestId);
    var x, y := Event(requestId, None, ContentStop(c.openContent)), Event(requestId, None, MessageStop(Failed));
    QuietReduced(c.emitted, y);
    QuietReduced(c.emitted, x);
    QuietReduced(c.emitted + [x], y);
    assert c.emitted + [] == c.emitted && [] + [y] == [y] && c.emitted + ([x] + [y]) == c.emitted + [x] + [y];
  }

  lemma NoEvents(c: Client, requestId: string)
    ensures Events(c, requestId, []) == if !c.messageStarted || c.stopEmitted then [] else
            (if c.hasOpen then [Event(requestId, None, ContentStop(c.openContent))] else []) + [Event(requestId, None, MessageStop(Failed))]
  {
  }

  lemma QuietReduced(es: seq<Event>, e: Event)
    requires e.payload.ContentStop? || e.payload.MessageStop?
    ensures Contents(R.Run(R.EMPTY, es + [e]).resp) == Contents(R.Run(R.EMPTY, es).resp)
  {
    R.RunAppend(R.EMPTY, es, e);
    hide R.Run;
  }

  /**
   For every stream, up to the first error or stray delta: the reduced contents are, in the order in which they begin,
   text of the answer or of its final part as its output was added, reasoning, calls with their id and name, and sealed
   thoughts; each with the concatenation of the deltas that name its output until its part ends.
   */
  lemma DecodedContents(requestId: string, arrivals: seq<Arrival>)
    ensures Unindexed(Contents(R.Run(R.EMPTY, Decoded(requestId, arrivals)).resp)) == Heard(map[], None, LivePart(arrivals))
  {
    hide *;
    FailedRun(requestId, arrivals);
    LiveContents(requestId, LivePart(arrivals));
    if !Live(arrivals) {
      FailedDecoded(requestId, arrivals);
      EndAddsNothing(requestId, LivePart(arrivals));
    }
  }

  // ----- Id, model, status and usage -----

  function StartHeard(arrivals: seq<Arrival>): (string, string) {
    if arrivals == [] then ("", "") else
    var a := arrivals[|arrivals| - 1];
    if a.Created? then (a.id, a.model) else StartHeard(arrivals[..|arrivals| - 1])
  }

  /** Whether a call was added, or done, so far. */
  predicate CallHeard(arrivals: seq<Arrival>) {
    arrivals != [] &&
    var a := arrivals[|arrivals| - 1];
    CallHeard(arrivals[..|arrivals| - 1]) || (a.OutputAdded? && a.added.CallAdded?) || (a.OutputDone? && a.done.CallDone?)
  }

  /** What the end of a response means: with a call, the turn is the client's. */
  function Meant(status: EndStatus, call: bool): Status {
    match status
    case EndCompleted => if call then PendingToolUse else Completed
    case EndIncomplete(reason) =>
      if reason == "max_output_tokens" then ReachedTokenLimit
      else if reason == "content_filter" then Refused
      else Failed
    case EndFailed => Failed
    case EndCancelled => Cancelled
    case EndOther => InProgress
  }

  /** The status of the last end, if there is one. */
  function EndHeard(arrivals: seq<Arrival>): Status {
    if arrivals == [] then Unspecified else
    var front, a := arrivals[..|arrivals| - 1], arrivals[|arrivals| - 1];
    if a.Ended? then Meant(a.status, a.hasCall || CallHeard(front)) else EndHeard(front)
  }

  /** The last count that is not zero. */
  function TokensHeard(f: R.UsageField, arrivals: seq<Arrival>): nat {
    if arrivals == [] then 0 else
    var a := arrivals[|arrivals| - 1];
    if a.Ended? && R.FieldOf(Some(a.usage), f) != 0 then R.FieldOf(Some(a.usage), f) else TokensHeard(f, arrivals[..|arrivals| - 1])
  }

  /** What the events say besides contents. */
  ghost predicate Tells(es: seq<Event>, start: (string, string), stop: Status, f: R.UsageField, tokens: nat) {
    LastStart(es) == start && LastStop(es) == stop && R.LastReport(f, es) == tokens
  }

  lemma TellsMore(es: seq<Event>, x: Event, start: (string, string), stop: Status, f: R.UsageField, tokens: nat)
    requires Tells(es, start, stop, f, tokens)
    ensures Tells(es + [x], if x.payload.MessageStart? then (x.payload.messageId, x.payload.model) else start,
                  if x.payload.MessageStop? then x.payload.status else stop, f,
                  if R.FieldOf(x.usage, f) != 0 then R.FieldOf(x.usage, f) else tokens)
  {
    assert (es + [x])[..|es|] == es;
  }

  lemma EndMeant(status: EndStatus, hasCall: bool, heard: bool, usage: Usage, f: R.UsageField)
    ensures var s := StatusFrom(status, hasCall);
            (if s == Completed && heard then PendingToolUse else s) == Meant(status, hasCall || heard)
    ensures R.FieldOf(UsageFrom(usage), f) == R.FieldOf(Some(usage), f)
  {
  }

  lemma NewTells(c: Client, requestId: string, a: Arrival, start: (string, string), stop: Status, f: R.UsageField, tokens: nat)
    requires Tells(c.emitted, start, stop, f, tokens)
    ensures Tells(c.emitted + New(c, requestId, a), if a.Created? then (a.id, a.model) else start,
                  if a.Ended? then Meant(a.status, a.hasCall || c.hasFunctionCall) else stop, f,
                  if a.Ended? && R.FieldOf(Some(a.usage), f) != 0 then R.FieldOf(Some(a.usage), f) else tokens)
  {
    hide Tells, Stops, Started, Others, Meant, R.FieldOf;
    var xs, ys, zs := Stops(c, requestId, a), Started(c, requestId, a), Others(c, requestId, a);
    assert c.emitted + (xs + (ys + zs)) == (c.emitted + xs) + ys + zs;
    StopsTell(c, requestId, a, start, stop, f, tokens);
    StartedTell(c, requestId, a, c.emitted + xs, start, stop, f, tokens);
    OthersTell(c, requestId, a, (c.emitted + xs) + ys, start, stop, f, tokens);
  }

  lemma StopsTell(c: Client, requestId: string, a: Arrival, start: (string, string), stop: Status, f: R.UsageField, tokens: nat)
    requires Tells(c.emitted, start, stop, f, tokens)
    ensures Tells(c.emitted + Stops(c, requestId, a), start, stop, f, tokens)
  {
    hide Tells;
    assert c.emitted + [] == c.emitted;
    TellsMore(c.emitted, Event(requestId, None, ContentStop(c.openContent)), start, stop, f, tokens);
  }

  lemma StartedTell(c: Client, requestId: string, a: Arrival, es: seq<Event>, start: (string, string), stop: Status, f: R.UsageField, tokens: nat)
    requires Tells(es, start, stop, f, tokens)
    ensures Tells(es + Started(c, requestId, a), start, stop, f, tokens)
  {
    hide Tells, Begun, IndexFor;
    assert es + [] == es;
    if Started(c, requestId, a) != [] {
      TellsMore(es, Started(c, requestId, a)[0], start, stop, f, tokens);
    }
  }

  lemma OthersTell(c: Client, requestId: string, a: Arrival, es: seq<Event>, start: (string, string), stop: Status, f: R.UsageField, tokens: nat)
    requires Tells(es, start, stop, f, tokens)
    ensures Tells(es + Others(c, requestId, a), if a.Created? then (a.id, a.model) else start,
                  if a.Ended? then Meant(a.status, a.hasCall || c.hasFunctionCall) else stop, f,
                  if a.Ended? && R.FieldOf(Some(a.usage), f) != 0 then R.FieldOf(Some(a.usage), f) else tokens)
  {
    hide Tells, Meant, StatusFrom, UsageFrom;
    assert es + [] == es;
    if a.Ended? {
      EndMeant(a.status, a.hasCall, c.hasFunctionCall, a.usage, f);
    }
    if Others(c, requestId, a) != [] {
      TellsMore(es, Others(c, requestId, a)[0], start, stop, f, tokens);
    }
  }

  lemma {:induction false} RunTells(requestId: string, arrivals: seq<Arrival>, f: R.UsageField)
    requires Live(arrivals)
    ensures var c := Run(requestId, arrivals);
            Tells(c.emitted, StartHeard(arrivals), EndHeard(arrivals), f, TokensHeard(f, arrivals)) && c.hasFunctionCall == CallHeard(arrivals)
  {
    if arrivals != [] {
      var front, a := arrivals[..|arrivals| - 1], arrivals[|arrivals| - 1];
      RunTells(requestId, front, f);
      RunInOrder(requestId, front);
      hide Tells, Stepped, Step, New, Meant, R.FieldOf, OneSlot;
      var c := Run(requestId, front);
      assert front + [a] == arrivals;
      StepNew(c, requestId, a);
      OneArrival(requestId, front, a);
      NewTells(c, requestId, a, StartHeard(front), EndHeard(front), f, TokensHeard(f, front));
      SteppedCall(c, requestId, a, Step(c, requestId, a));
    }
  }

  lemma SteppedCall(c: Client, requestId: string, a: Arrival, r: Client)
    requires Stepped(c, requestId, a, r)
    ensures r.hasFunctionCall == (c.hasFunctionCall || (a.OutputAdded? && a.added.CallAdded?) || (a.OutputDone? && a.done.CallDone?))
  {
  }

  /** The status that the stream leaves: of a response that was begun, failed if the upstream just stops. */
  function StatusHeard(arrivals: seq<Arrival>): Status {
    if Live(arrivals) && HasBegun(arrivals) && !HasEnded(arrivals) then Failed else EndHeard(LivePart(arrivals))
  }

  /**
   Id and model are those of the last response created, counts the last ones reported. The status is that of the last
   end; if none has come to a response that was begun, it has failed, unless an error broke the stream off.
   */
  lemma DecodedHeader(requestId: string, arrivals: seq<Arrival>, f: R.UsageField)
    ensures var r := R.Run(R.EMPTY, Decoded(requestId, arrivals)).resp;
            && (R.MessageOf(r).id, r.model) == StartHeard(LivePart(arrivals))
            && r.status == StatusHeard(arrivals)
            && R.FieldOf(r.usage, f) == TokensHeard(f, LivePart(arrivals))
  {
    hide *;
    FailedRun(requestId, arrivals);
    R.HeaderIsLast(Decoded(requestId, arrivals));
    R.UsageIsLastReport(Decoded(requestId, arrivals), f);
    var live := LivePart(arrivals);
    RunTells(requestId, live, f);
    HeardLast(arrivals);
    if Live(arrivals) {
      RunInOrder(requestId, arrivals);
      EndOf(requestId, arrivals);
      EndTells(requestId, arrivals, f);
      ToldOf(Decoded(requestId, arrivals), StartHeard(arrivals),
             if HasEnded(arrivals) then EndHeard(arrivals) else if HasBegun(arrivals) then Failed else Unspecified, f, TokensHeard(f, arrivals));
    } else {
      FailedDecoded(requestId, arrivals);
      ToldOf(Decoded(requestId, arrivals), StartHeard(live), EndHeard(live), f, TokensHeard(f, live));
    }
  }

  lemma HeardLast(arrivals: seq<Arrival>)
    ensures StatusHeard(arrivals) == if Live(arrivals) && HasBegun(arrivals) && !HasEnded(arrivals) then Failed else EndHeard(LivePart(arrivals))
    ensures !HasEnded(arrivals) ==> EndHeard(arrivals) == Unspecified
  {
    NotEnded(arrivals);
    hide EndHeard, Live, LivePart, HasBegun, HasEnded;
  }

  lemma ToldOf(es: seq<Event>, start: (string, string), stop: Status, f: R.UsageField, tokens: nat)
    requires Tells(es, start, stop, f, tokens)
    ensures LastStart(es) == start && LastStop(es) == stop && R.LastReport(f, es) == tokens
  {
  }

  lemma {:induction false} NotEnded(arrivals: seq<Arrival>)
    ensures !HasEnded(arrivals) ==> EndHeard(arrivals) == Unspecified
  {
    if arrivals != [] {
      NotEnded(arrivals[..|arrivals| - 1]);
    }
  }

  lemma EndTells(requestId: string, arrivals: seq<Arrival>, f: R.UsageField)
    requires Live(arrivals)
    requires var c := Run(requestId, arrivals);
             && Decoded(requestId, arrivals) == c.emitted + Events(c, requestId, [])
             && Tells(c.emitted, StartHeard(arrivals), EndHeard(arrivals), f, TokensHeard(f, arrivals))
    ensures Tells(Decoded(requestId, arrivals), StartHeard(arrivals),
                  if HasEnded(arrivals) then EndHeard(arrivals) else if HasBegun(arrivals) then Failed else Unspecified, f, TokensHeard(f, arrivals))
  {
    TableIsOpenSlot(requestId, arrivals);
    NotEnded(arrivals);
    hide Tells, Run, Decoded, OneSlot, OpenSlot, EndHeard;
    var c := Run(requestId, arrivals);
    var x, y := Event(requestId, None, ContentStop(c.openContent)), Event(requestId, None, MessageStop(Failed));
    assert c.emitted + [] == c.emitted && c.emitted + ([x] + [y]) == c.emitted + [x] + [y] && c.emitted + ([] + [y]) == c.emitted + [y];
    TellsMore(c.emitted, x, StartHeard(arrivals), EndHeard(arrivals), f, TokensHeard(f, arrivals));
    TellsMore(c.emitted + [x], y, StartHeard(arrivals), EndHeard(arrivals), f, TokensHeard(f, arrivals));
    TellsMore(c.emitted, y, StartHeard(arrivals), EndHeard(arrivals), f, TokensHeard(f, arrivals));
  }
}
