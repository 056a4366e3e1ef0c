/** When the events decoded from a Responses upstream are well formed, said of the upstream's stream alone. */
module ResponsesUpstreamShape {
  import opened Basics
  import opened ChatTypes
  import opened StreamShape
  import opened ResponsesUpstream

  /** An arrival that opens a content block whatever is open. */
  predicate Opens(a: Arrival) {
    (a.OutputAdded? && a.added.CallAdded?) || (a.PartAdded? && !a.kind.OtherPart?)
  }

  predicate Closes(a: Arrival) {
    (a.PartDone? && !a.kind.OtherPart?) || a.SummaryDone? || a.OutputDone?
  }

  predicate IsDelta(a: Arrival) {
    a.ReasoningDelta? || a.OutputTextDelta? || a.ArgumentsDelta?
  }

  /** The output whose part is open. */
  function OpenOutput(arrivals: seq<Arrival>): Option<int> {
    if arrivals == [] then None else
    var o, a := OpenOutput(arrivals[..|arrivals| - 1]), arrivals[|arrivals| - 1];
    if Opens(a) || a.SummaryAdded? then Some(a.out)
    else if a.Ended? || (Closes(a) && o == Some(a.out)) then None
    else o
  }

  /** No arrival is an error or a delta for an output without an open part. */
  predicate Live(arrivals: seq<Arrival>) {
    arrivals == [] ||
    var front, a := arrivals[..|arrivals| - 1], arrivals[|arrivals| - 1];
    Live(front) && !a.ErrorArrived? && (IsDelta(a) ==> OpenOutput(front) == Some(a.out))
  }

  predicate HasEnded(arrivals: seq<Arrival>) {
    arrivals != [] && (HasEnded(arrivals[..|arrivals| - 1]) || arrivals[|arrivals| - 1].Ended?)
  }

  /** An arrival that becomes an event even if nothing is open. */
  predicate Speaks(a: Arrival) {
    a.Created? || a.Ended? || a.SummaryAdded? || Opens(a) || (a.OutputDone? && a.done.ReasoningDone? && a.done.encrypted != "")
  }

  /** Up to the first failure, no part is added to an output whose part is open, and nothing to say comes after the end. */
  predicate Proper(arrivals: seq<Arrival>) {
    arrivals == [] ||
    var front, a := arrivals[..|arrivals| - 1], arrivals[|arrivals| - 1];
    && Proper(front)
    && (Live(front) ==> (Opens(a) ==> OpenOutput(front) != Some(a.out)) && (HasEnded(front) ==> !Speaks(a)))
  }

  predicate HasBegun(arrivals: seq<Arrival>) {
    arrivals != [] && (HasBegun(arrivals[..|arrivals| - 1]) || arrivals[|arrivals| - 1].Created?)
  }

  // ----- The table of open blocks -----

  /** The table is empty, or exactly the open slot. */
  ghost predicate OneSlot(c: Client) {
    c.slots == if c.hasOpen then map[c.openOutput := c.openContent] else map[]
  }

  function OpenSlot(c: Client): Option<int> {
    if c.hasOpen then Some(c.openOutput) else None
  }

  /** What a change of the table leaves alone. */
  ghost predicate SameFlags(c: Client, r: Client) {
    r.messageStarted == c.messageStarted && r.stopEmitted == c.stopEmitted
  }

  lemma CloseSlots(c: Client, requestId: string, out: int)
    requires OneSlot(c)
    ensures var r := CloseOpen(c, requestId); OneSlot(r) && !r.hasOpen && SameFlags(c, r)
    ensures var r := CloseOutput(c, requestId, out);
            OneSlot(r) && SameFlags(c, r) && OpenSlot(r) == if OpenSlot(c) == Some(out) then None else OpenSlot(c)
  {
    assert map[c.openOutput := c.openContent] - {c.openOutput} == map[];
  }

  lemma OpenSlots(c: Client, requestId: string, out: int, id: string, phase: Phase, kind: StartKind)
    requires OneSlot(c)
    ensures var r := OpenAs(c, requestId, out, id, phase, kind); OneSlot(r) && SameFlags(c, r) && OpenSlot(r) == Some(out)
  {
    CloseSlots(c, requestId, out);
    hide CloseOpen;
  }

  ghost predicate SlotsStepped(c: Client, a: Arrival, r: Client) {
    && OneSlot(r)
    && OpenSlot(r) == (if Opens(a) || a.SummaryAdded? then Some(a.out)
                       else if a.Ended? || (Closes(a) && OpenSlot(c) == Some(a.out)) then None
                       else OpenSlot(c))
    && r.messageStarted == (c.messageStarted || a.Created?)
    && r.stopEmitted == (c.stopEmitted || a.Ended?)
  }

  lemma StepSlots(c: Client, requestId: string, a: Arrival)
    requires OneSlot(c)
    ensures SlotsStepped(c, a, Step(c, requestId, a))
  {
    hide SlotsStepped, OnOutputAdded, OnPartAdded, OnOutputDone, OnEnded, CloseOutput, OpenAs;
    if Opens(a) || a.SummaryAdded? {
      OpeningSlots(c, requestId, a);
    } else if Closes(a) || a.Ended? {
      ClosingSlots(c, requestId, a);
    } else {
      OtherSlots(c, requestId, a);
    }
  }

  lemma OpeningSlots(c: Client, requestId: string, a: Arrival)
    requires OneSlot(c) && (Opens(a) || a.SummaryAdded?)
    ensures SlotsStepped(c, a, Step(c, requestId, a))
  {
    hide OpenAs;
    if a.OutputAdded? {
      var c' := c.(phases := c.phases[a.out := Normal], hasFunctionCall := true);
      OpenSlots(c', requestId, a.out, a.added.id, Normal, ToolStart(a.added.callId, a.added.name));
    } else if a.PartAdded? && a.kind.OutputText? {
      OpenSlots(c, requestId, a.out, a.itemId, if a.out in c.phases then c.phases[a.out] else Normal, TextStart);
    } else {
      OpenSlots(c, requestId, a.out, a.itemId, Reasoning, TextStart);
    }
  }

  lemma ClosingSlots(c: Client, requestId: string, a: Arrival)
    requires OneSlot(c) && (Closes(a) || a.Ended?)
    ensures SlotsStepped(c, a, Step(c, requestId, a))
  {
    hide CloseOutput, CloseOpen, OneSlot, OpenSlot;
    if a.OutputDone? {
      NoteCall(c, a.done.CallDone?);
      CloseSlots(c.(hasFunctionCall := c.hasFunctionCall || a.done.CallDone?), requestId, a.out);
      DoneSlots(c, requestId, a.out, a.done);
    } else if a.Ended? {
      EndedSlots(c, requestId, a);
    } else {
      CloseSlots(c, requestId, a.out);
    }
  }

  lemma NoteCall(c: Client, isCall: bool)
    requires OneSlot(c)
    ensures var r := c.(hasFunctionCall := c.hasFunctionCall || isCall); OneSlot(r) && OpenSlot(r) == OpenSlot(c)
  {
  }

  lemma DoneSlots(c: Client, requestId: string, out: int, item: DoneItem)
    ensures var d := CloseOutput(c.(hasFunctionCall := c.hasFunctionCall || item.CallDone?), requestId, out);
            var r := OnOutputDone(c, requestId, out, item);
            && OneSlot(r) == OneSlot(d) && OpenSlot(r) == OpenSlot(d)
            && r.messageStarted == d.messageStarted && r.stopEmitted == d.stopEmitted
  {
    hide CloseOutput, OneSlot, OpenSlot;
    var c' := c.(hasFunctionCall := c.hasFunctionCall || item.CallDone?);
    SlotsAlone(CloseOutput(c', requestId, out), OnOutputDone(c, requestId, out, item));
  }

  lemma SlotsAlone(c: Client, r: Client)
    requires r.slots == c.slots && r.hasOpen == c.hasOpen && r.openOutput == c.openOutput && r.openContent == c.openContent
    ensures OneSlot(r) == OneSlot(c) && OpenSlot(r) == OpenSlot(c)
  {
  }

  lemma EndedSlots(c: Client, requestId: string, a: Arrival)
    requires OneSlot(c) && a.Ended?
    ensures SlotsStepped(c, a, Step(c, requestId, a))
  {
    hide CloseOpen;
    CloseSlots(c, requestId, 0);
  }

  lemma OtherSlots(c: Client, requestId: string, a: Arrival)
    requires OneSlot(c) && !Opens(a) && !a.SummaryAdded? && !Closes(a) && !a.Ended?
    ensures SlotsStepped(c, a, Step(c, requestId, a))
  {
    hide CloseOutput, CloseOpen, OpenAs, OnOutputDone, OnEnded;
  }

  lemma {:induction false} TableIsOpenSlot(requestId: string, arrivals: seq<Arrival>)
    ensures OneSlot(Run(requestId, arrivals))
    ensures Run(requestId, arrivals).failed <==> !Live(arrivals)
    ensures Live(arrivals) ==>
              var c := Run(requestId, arrivals);
              OpenSlot(c) == OpenOutput(arrivals) && c.messageStarted == HasBegun(arrivals) && c.stopEmitted == HasEnded(arrivals)
  {
    if arrivals != [] {
      var front, a := arrivals[..|arrivals| - 1], arrivals[|arrivals| - 1];
      TableIsOpenSlot(requestId, front);
      var c := Run(requestId, front);
      hide Step;
      if !c.failed {
        StepSlots(c, requestId, a);
        KeepsGoing(c, requestId, a);
      }
    }
  }

  // ----- The events -----

  /** What a watcher has seen agrees with what the client remembers. */
  ghost predicate Agrees(c: Client) {
    Watching(c.emitted) == Watch(c.nextIndex, if c.hasOpen then Some(c.openContent) else None, c.stopEmitted)
  }

  lemma EmitWatched(c: Client, requestId: string, p: Payload)
    ensures Watching(Emit(c, requestId, p).emitted) == Watched(Watching(c.emitted), p)
  {
    WatchingMore(c.emitted, Event(requestId, None, p));
  }

  lemma CloseAgrees(c: Client, requestId: string)
    requires OneSlot(c) && Agrees(c) && !(c.stopEmitted && c.hasOpen)
    ensures Agrees(CloseOpen(c, requestId)) && OneSlot(CloseOpen(c, requestId)) && !CloseOpen(c, requestId).hasOpen
  {
    EmitWatched(c, requestId, ContentStop(c.openContent));
  }

  lemma CloseOutputAgrees(c: Client, requestId: string, out: int)
    requires OneSlot(c) && Agrees(c) && !(c.stopEmitted && c.hasOpen)
    ensures Agrees(CloseOutput(c, requestId, out)) && OneSlot(CloseOutput(c, requestId, out))
  {
    if out in c.slots {
      EmitWatched(c, requestId, ContentStop(c.slots[out]));
    }
  }

  lemma OpenAgrees(c: Client, requestId: string, out: int, id: string, phase: Phase, kind: StartKind)
    requires OneSlot(c) && Agrees(c) && !(c.stopEmitted && c.hasOpen)
    ensures var r := OpenAs(c, requestId, out, id, phase, kind);
            if c.stopEmitted || OpenSlot(c) == Some(out) then Watching(r.emitted).Broken? else Agrees(r)
  {
    hide Watching, CloseOpen;
    CloseAgrees(c, requestId);
    CloseSlots(c, requestId, out);
    var o := Open(c, requestId, out);
    EmitWatched(o, requestId, ContentStart(id, o.slots[out], phase, kind));
  }

  lemma OnlyMore(c: Client, requestId: string, a: Arrival)
    ensures c.emitted <= Step(c, requestId, a).emitted
  {
    hide CloseOpen, CloseOutput, OpenAs, OnOutputAdded, OnPartAdded, OnOutputDone, OnEnded;
  }

  /** One arrival: what it must not be. */
  predicate Offends(c: Client, a: Arrival) {
    (Opens(a) && OpenSlot(c) == Some(a.out)) || (c.stopEmitted && Speaks(a))
  }

  lemma StepAgrees(c: Client, requestId: string, a: Arrival)
    requires OneSlot(c) && Agrees(c) && !(c.stopEmitted && c.hasOpen)
    ensures var r := Step(c, requestId, a);
            if Offends(c, a) then Watching(r.emitted).Broken? else Agrees(r) && !(r.stopEmitted && r.hasOpen)
  {
    hide Watching, OpenAs, CloseOutput;
    StepSlots(c, requestId, a);
    match a
    case Created(id, model) =>
      EmitWatched(c.(messageStarted := true), requestId, MessageStart(id, model));
    case OutputAdded(out, item) =>
      if item.CallAdded? {
        OpenAgrees(c.(hasFunctionCall := true, phases := c.phases[out := Normal]), requestId, out, item.id, Normal, ToolStart(item.callId, item.name));
      }
    case PartAdded(out, itemId, kind) =>
      OpenAgrees(c, requestId, out, itemId, if out in c.phases then c.phases[out] else Normal, TextStart);
      OpenAgrees(c, requestId, out, itemId, Reasoning, TextStart);
    case SummaryAdded(out, itemId) =>
      OpenAgrees(c, requestId, out, itemId, Reasoning, TextStart);
    case PartDone(out, _) =>
      CloseOutputAgrees(c, requestId, out);
    case SummaryDone(out) =>
      CloseOutputAgrees(c, requestId, out);
    case ReasoningDelta(out, text) =>
      DeltaAgrees(c, requestId, out, TextDelta(text));
    case OutputTextDelta(out, text) =>
      DeltaAgrees(c, requestId, out, TextDelta(text));
    case ArgumentsDelta(out, text) =>
      DeltaAgrees(c, requestId, out, ToolInputDelta(text));
    case OutputDone(out, item) =>
      DoneAgrees(c, requestId, out, item);
    case Ended(status, hasCall, usage) =>
      EndAgrees(c, requestId, status, hasCall, usage);
    case _ =>
  }

  lemma DeltaAgrees(c: Client, requestId: string, out: int, d: Delta)
    requires OneSlot(c) && Agrees(c) && !(c.stopEmitted && c.hasOpen)
    ensures Agrees(DeltaTo(c, requestId, out, d))
  {
    if out in c.slots {
      EmitWatched(c, requestId, ContentDelta(c.slots[out], d));
    }
  }

  lemma DoneAgrees(c: Client, requestId: string, out: int, item: DoneItem)
    requires OneSlot(c) && Agrees(c) && !(c.stopEmitted && c.hasOpen)
    ensures var r := OnOutputDone(c, requestId, out, item);
            if c.stopEmitted && item.ReasoningDone? && item.encrypted != "" then Watching(r.emitted).Broken? else Agrees(r)
  {
    hide Watching, CloseOutput;
    var c' := c.(hasFunctionCall := c.hasFunctionCall || item.CallDone?);
    CloseOutputAgrees(c', requestId, out);
    CloseSlots(c', requestId, out);
    if item.ReasoningDone? && item.encrypted != "" {
      var d := CloseOutput(c', requestId, out);
      EmitWatched(d, requestId, ContentSnapshot(Content(item.id, Some(d.nextIndex), Reasoning, "", Opaque(item.encrypted))));
    }
  }

  lemma EndAgrees(c: Client, requestId: string, status: EndStatus, hasCall: bool, usage: Usage)
    requires OneSlot(c) && Agrees(c) && !(c.stopEmitted && c.hasOpen)
    ensures var r := OnEnded(c, requestId, status, hasCall, usage);
            if c.stopEmitted then Watching(r.emitted).Broken? else Agrees(r)
  {
    hide Watching, CloseOpen;
    CloseAgrees(c, requestId);
    CloseSlots(c, requestId, 0);
    var d, s := CloseOpen(c, requestId), StatusFrom(status, hasCall);
    WatchingMore(d.emitted, Event(requestId, UsageFrom(usage), MessageStop(if s == Completed && d.hasFunctionCall then PendingToolUse else s)));
  }

  lemma {:induction false} RunWatched(requestId: string, arrivals: seq<Arrival>)
    ensures var c := Run(requestId, arrivals);
            if Proper(arrivals) then Agrees(c) && !(c.stopEmitted && c.hasOpen) else Watching(c.emitted).Broken?
  {
    if arrivals != [] {
      var front, a := arrivals[..|arrivals| - 1], arrivals[|arrivals| - 1];
      RunWatched(requestId, front);
      TableIsOpenSlot(requestId, front);
      var c := Run(requestId, front);
      hide Watching, Step, OneSlot;
      if !c.failed {
        if Proper(front) {
          StepAgrees(c, requestId, a);
        } else {
          OnlyMore(c, requestId, a);
          BrokenForGood(c.emitted, Step(c, requestId, a).emitted);
        }
      }
    }
  }

  /**
   The decoded events are well formed if and only if the upstream's stream is proper. If that has begun and does not
   fail, they end with the one end of the message.
   */
  lemma DecodedWellFormed(requestId: string, arrivals: seq<Arrival>)
    ensures WellFormed(Decoded(requestId, arrivals)) <==> Proper(arrivals)
    ensures Proper(arrivals) && Live(arrivals) && (HasBegun(arrivals) || HasEnded(arrivals)) ==>
              Watching(Decoded(requestId, arrivals)).over
  {
    RunWatched(requestId, arrivals);
    TableIsOpenSlot(requestId, arrivals);
    var c := Run(requestId, arrivals);
    if !c.failed && c.messageStarted && !c.stopEmitted {
      var d := CloseOpen(c, requestId);
      EmitWatched(d, requestId, MessageStop(Failed));
      if Proper(arrivals) {
        CloseAgrees(c, requestId);
        CloseSlots(c, requestId, 0);
      } else {
        BrokenForGood(c.emitted, Finish(c, requestId).emitted);
      }
      hide Watching;
    }
  }
}
