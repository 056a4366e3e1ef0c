/**
 Decoding the stream of a Responses upstream into chat events. At most one content block is open at a time; a table from
 output indices to content indices remembers which.
 */
module ResponsesUpstream {
  import opened Basics
  import opened ChatTypes

  datatype PartKind = OutputText | ReasoningText | OtherPart

  datatype AddedItem = CallAdded(id: string, callId: string, name: string) | OtherAdded(finalAnswer: bool)

  datatype DoneItem = CallDone | ReasoningDone(id: string, encrypted: string) | OtherDone

  datatype EndStatus = EndCompleted | EndIncomplete(reason: string) | EndFailed | EndCancelled | EndOther

  /** An event of the upstream's stream. */
  datatype Arrival =
    | Created(id: string, model: string)
    | OutputAdded(out: int, added: AddedItem)
    | PartAdded(out: int, itemId: string, kind: PartKind)
    | PartDone(out: int, kind: PartKind)
    | SummaryAdded(out: int, itemId: string)
    | SummaryDone(out: int)
    | ReasoningDelta(out: int, text: string)
    | OutputTextDelta(out: int, text: string)
    | ArgumentsDelta(out: int, text: string)
    | OutputDone(out: int, done: DoneItem)
    | Ended(status: EndStatus, hasCall: bool, usage: Usage)
    | ErrorArrived
    | OtherArrived                                         // in_progress and everything not listened for

  function StatusFrom(s: EndStatus, hasCall: bool): Status {
    match s
    case EndCompleted => if hasCall then PendingToolUse else Completed
    case EndIncomplete(reason) =>
      if reason == "max_output_tokens" then ReachedTokenLimit else if reason == "content_filter" then Refused else Failed
    case EndFailed => Failed
    case EndCancelled => Cancelled
    case EndOther => InProgress
  }

  function UsageFrom(u: Usage): Option<Usage> {
    if u == Usage(0, 0, 0, 0) then None else Some(u)
  }

  /** The client as a value. `failed` once it has returned an error, which ends the stream. */
  datatype Client = Client(
    messageStarted: bool, stopEmitted: bool, hasFunctionCall: bool, nextIndex: nat,
    hasOpen: bool, openOutput: int, openContent: nat, slots: map<int, nat>, phases: map<int, Phase>,
    emitted: seq<Event>, failed: bool)

  const START := Client(false, false, false, 0, false, 0, 0, map[], map[], [], false)

  function Emit(c: Client, requestId: string, p: Payload): (r: Client)
    ensures r.failed == c.failed && c.emitted <= r.emitted
  {
    c.(emitted := c.emitted + [Event(requestId, None, p)])
  }

  function CloseOpen(c: Client, requestId: string): (r: Client)
    ensures r.failed == c.failed && c.emitted <= r.emitted
  {
    if !c.hasOpen then c
    else Emit(c, requestId, ContentStop(c.openContent)).(slots := c.slots - {c.openOutput}, hasOpen := false)
  }

  function CloseOutput(c: Client, requestId: string, out: int): (r: Client)
    ensures r.failed == c.failed && c.emitted <= r.emitted
  {
    if out !in c.slots then c
    else Emit(c, requestId, ContentStop(c.slots[out])).(slots := c.slots - {out}, hasOpen := c.hasOpen && c.openOutput != out)
  }

  function Open(c: Client, requestId: string, out: int): (r: Client)
    ensures out in r.slots && r.failed == c.failed && c.emitted <= r.emitted
  {
    if out in c.slots then c else
    var c := CloseOpen(c, requestId);
    c.(nextIndex := c.nextIndex + 1, hasOpen := true, openOutput := out, openContent := c.nextIndex,
       slots := c.slots[out := c.nextIndex])
  }

  function OpenAs(c: Client, requestId: string, out: int, id: string, phase: Phase, kind: StartKind): (r: Client)
    ensures r.failed == c.failed && c.emitted <= r.emitted
  {
    var c := Open(c, requestId, out);
    Emit(c, requestId, ContentStart(id, c.slots[out], phase, kind))
  }

  function DeltaTo(c: Client, requestId: string, out: int, d: Delta): Client {
    if out !in c.slots then c.(failed := true) else Emit(c, requestId, ContentDelta(c.slots[out], d))
  }

  function OnOutputAdded(c: Client, requestId: string, out: int, item: AddedItem): (r: Client)
    ensures r.failed == c.failed && c.emitted <= r.emitted
  {
    var c := c.(phases := c.phases[out := if item.OtherAdded? && item.finalAnswer then Outcome else Normal]);
    if item.OtherAdded? then c
    else OpenAs(c.(hasFunctionCall := true), requestId, out, item.id, Normal, ToolStart(item.callId, item.name))
  }

  function OnPartAdded(c: Client, requestId: string, out: int, itemId: string, kind: PartKind): (r: Client)
    ensures r.failed == c.failed && c.emitted <= r.emitted
  {
    match kind
    case OutputText => OpenAs(c, requestId, out, itemId, if out in c.phases then c.phases[out] else Normal, TextStart)
    case ReasoningText => OpenAs(c, requestId, out, itemId, Reasoning, TextStart)
    case OtherPart => c
  }

  function OnOutputDone(c: Client, requestId: string, out: int, item: DoneItem): (r: Client)
    ensures r.failed == c.failed && c.emitted <= r.emitted
  {
    var c := c.(hasFunctionCall := c.hasFunctionCall || item.CallDone?);
    var c := CloseOutput(c, requestId, out);
    if item.ReasoningDone? && item.encrypted != "" then
      Emit(c, requestId, ContentSnapshot(Content(item.id, Some(c.nextIndex), Reasoning, "", Opaque(item.encrypted))))
      .(nextIndex := c.nextIndex + 1)
    else c
  }

  function OnEnded(c: Client, requestId: string, status: EndStatus, hasCall: bool, usage: Usage): (r: Client)
    ensures r.failed == c.failed && c.emitted <= r.emitted
  {
    var c := CloseOpen(c, requestId);
    var s := StatusFrom(status, hasCall);
    var s := if s == Completed && c.hasFunctionCall then PendingToolUse else s;
    c.(emitted := c.emitted + [Event(requestId, UsageFrom(usage), MessageStop(s))], stopEmitted := true)
  }

  function Step(c: Client, requestId: string, a: Arrival): Client {
    match a
    case Created(id, model) => Emit(c.(messageStarted := true), requestId, MessageStart(id, model))
    case OutputAdded(out, item) => OnOutputAdded(c, requestId, out, item)
    case PartAdded(out, itemId, kind) => OnPartAdded(c, requestId, out, itemId, kind)
    case PartDone(out, kind) => if kind.OtherPart? then c else CloseOutput(c, requestId, out)
    case SummaryAdded(out, itemId) => if out in c.slots then c else OpenAs(c, requestId, out, itemId, Reasoning, TextStart)
    case SummaryDone(out) => CloseOutput(c, requestId, out)
    case ReasoningDelta(out, text) => DeltaTo(c, requestId, out, TextDelta(text))
    case OutputTextDelta(out, text) => DeltaTo(c, requestId, out, TextDelta(text))
    case ArgumentsDelta(out, text) => DeltaTo(c, requestId, out, ToolInputDelta(text))
    case OutputDone(out, item) => OnOutputDone(c, requestId, out, item)
    case Ended(status, hasCall, usage) => OnEnded(c, requestId, status, hasCall, usage)
    case ErrorArrived => c.(failed := true)
    case OtherArrived => c
  }

  function Run(requestId: string, arrivals: seq<Arrival>): Client {
    if arrivals == [] then START else
    var c := Run(requestId, arrivals[..|arrivals| - 1]);
    if c.failed then c else Step(c, requestId, arrivals[|arrivals| - 1])
  }

  /** What is added at the end of the upstream's stream. */
  function Finish(c: Client, requestId: string): Client {
    if !c.messageStarted || c.stopEmitted then c
    else Emit(CloseOpen(c, requestId), requestId, MessageStop(Failed)).(stopEmitted := true)
  }

  /** All events of the stream. */
  function Decoded(requestId: string, arrivals: seq<Arrival>): seq<Event> {
    var c := Run(requestId, arrivals);
    if c.failed then c.emitted else Finish(c, requestId).emitted
  }

  /** Only errors and stray deltas end the stream. */
  lemma KeepsGoing(c: Client, requestId: string, a: Arrival)
    requires !c.failed
    ensures Step(c, requestId, a).failed <==>
            a.ErrorArrived? || ((a.ReasoningDelta? || a.OutputTextDelta? || a.ArgumentsDelta?) && a.out !in c.slots)
  {
    hide OnOutputAdded, OnPartAdded, OnOutputDone, OnEnded, CloseOutput, CloseOpen, OpenAs, Emit;
  }

  // ----- The client as an object -----

  class ResponseStreamClient {
    const requestId: string
    var messageStarted: bool
    var stopEmitted: bool
    var hasFunctionCall: bool
    var nextIndex: nat
    var hasOpen: bool
    var openOutputIndex: int
    var openContentIndex: nat
    var openContentIndexByOutputIndex: map<int, nat>
    var outputPhase: map<int, Phase>
    var yielded: seq<Event>
    ghost var failed: bool

    ghost function Value(): Client
      reads this
    {
      Client(messageStarted, stopEmitted, hasFunctionCall, nextIndex, hasOpen, openOutputIndex, openContentIndex,
             openContentIndexByOutputIndex, outputPhase, yielded, failed)
    }

    constructor (requestId: string)
      ensures Value() == START && this.requestId == requestId
    {
      this.requestId := requestId;
      messageStarted, stopEmitted, hasFunctionCall, nextIndex, hasOpen := false, false, false, 0, false;
      openOutputIndex, openContentIndex, openContentIndexByOutputIndex, outputPhase := 0, 0, map[], map[];
      yielded, failed := [], false;
    }

    method Yield(usage: Option<Usage>, p: Payload)
      modifies `yielded
      ensures yielded == old(yielded) + [Event(requestId, usage, p)]
    {
      yielded := yielded + [Event(requestId, usage, p)];
    }

    method CloseOpenBlock()
      modifies this
      ensures Value() == CloseOpen(old(Value()), requestId)
    {
      if hasOpen {
        Yield(None, ContentStop(openContentIndex));
        openContentIndexByOutputIndex := openContentIndexByOutputIndex - {openOutputIndex};
        hasOpen := false;
      }
    }

    method CloseOutputBlock(out: int)
      modifies this
      ensures Value() == CloseOutput(old(Value()), requestId, out)
    {
      if out in openContentIndexByOutputIndex {
        Yield(None, ContentStop(openContentIndexByOutputIndex[out]));
        openContentIndexByOutputIndex := openContentIndexByOutputIndex - {out};
        if hasOpen && openOutputIndex == out {
          hasOpen := false;
        }
      }
    }

    method OpenBlock(out: int) returns (index: nat)
      modifies this
      ensures Value() == Open(old(Value()), requestId, out) && index == Value().slots[out]
    {
      if out in openContentIndexByOutputIndex {
        return openContentIndexByOutputIndex[out];
      }
      CloseOpenBlock();
      index := nextIndex;
      nextIndex := nextIndex + 1;
      hasOpen := true;
      openOutputIndex := out;
      openContentIndex := index;
      openContentIndexByOutputIndex := openContentIndexByOutputIndex[out := index];
    }

    method StartBlock(out: int, id: string, phase: Phase, kind: StartKind)
      modifies this
      ensures Value() == OpenAs(old(Value()), requestId, out, id, phase, kind)
    {
      var index := OpenBlock(out);
      Yield(None, ContentStart(id, index, phase, kind));
    }

    method YieldDelta(out: int, d: Delta) returns (ok: bool)
      modifies this
      ensures Value() == DeltaTo(old(Value()), requestId, out, d)
      ensures ok == (out in old(openContentIndexByOutputIndex))
    {
      ok := out in openContentIndexByOutputIndex;
      if ok {
        Yield(None, ContentDelta(openContentIndexByOutputIndex[out], d));
      } else {
        failed := true;
      }
    }

    method ConvertOutputAdded(out: int, item: AddedItem)
      modifies this
      ensures Value() == OnOutputAdded(old(Value()), requestId, out, item)
    {
      outputPhase := outputPhase[out := if item.OtherAdded? && item.finalAnswer then Outcome else Normal];
      if item.CallAdded? {
        hasFunctionCall := true;
        StartBlock(out, item.id, Normal, ToolStart(item.callId, item.name));
      }
    }

    method ConvertPartAdded(out: int, itemId: string, kind: PartKind)
      modifies this
      ensures Value() == OnPartAdded(old(Value()), requestId, out, itemId, kind)
    {
      match kind {
        case OutputText => StartBlock(out, itemId, if out in outputPhase then outputPhase[out] else Normal, TextStart);
        case ReasoningText => StartBlock(out, itemId, Reasoning, TextStart);
        case OtherPart =>
      }
    }

    method ConvertOutputDone(out: int, item: DoneItem)
      modifies this
      ensures Value() == OnOutputDone(old(Value()), requestId, out, item)
    {
      if item.CallDone? {
        hasFunctionCall := true;
      }
      CloseOutputBlock(out);
      if item.ReasoningDone? && item.encrypted != "" {
        var index := nextIndex;
        nextIndex := nextIndex + 1;
        Yield(None, ContentSnapshot(Content(item.id, Some(index), Reasoning, "", Opaque(item.encrypted))));
      }
    }

    method ConvertEnded(status: EndStatus, hasCall: bool, usage: Usage)
      modifies this
      ensures Value() == OnEnded(old(Value()), requestId, status, hasCall, usage)
    {
      CloseOpenBlock();
      var s := StatusFrom(status, hasCall);
      if s == Completed && hasFunctionCall {
        s := PendingToolUse;
      }
      Yield(UsageFrom(usage), MessageStop(s));
      stopEmitted := true;
    }

    /** Returns false for an error. */
    method Convert(a: Arrival) returns (ok: bool)
      requires !failed
      modifies this
      ensures Value() == Step(old(Value()), requestId, a) && ok == !failed
    {
      hide OnOutputAdded, OnPartAdded, OnOutputDone, OnEnded, CloseOutput, Open;
      ghost var c := Value();
      match a {
        case Created(id, model) =>
          messageStarted := true;
          Yield(None, MessageStart(id, model));
        case OutputAdded(out, item) =>
          ConvertOutputAdded(out, item);
        case PartAdded(out, itemId, kind) =>
          ConvertPartAdded(out, itemId, kind);
        case PartDone(out, kind) =>
          if !kind.OtherPart? {
            CloseOutputBlock(out);
          }
        case SummaryAdded(out, itemId) =>
          if out !in openContentIndexByOutputIndex {
            StartBlock(out, itemId, Reasoning, TextStart);
          }
        case SummaryDone(out) =>
          CloseOutputBlock(out);
        case ReasoningDelta(out, text) =>
          ok := YieldDelta(out, TextDelta(text));
        case OutputTextDelta(out, text) =>
          ok := YieldDelta(out, TextDelta(text));
        case ArgumentsDelta(out, text) =>
          ok := YieldDelta(out, ToolInputDelta(text));
        case OutputDone(out, item) =>
          ConvertOutputDone(out, item);
        case Ended(status, hasCall, usage) =>
          ConvertEnded(status, hasCall, usage);
        case ErrorArrived =>
          failed := true;
        case OtherArrived =>
      }
      KeepsGoing(c, requestId, a);
      ok := a != ErrorArrived && (a.ReasoningDelta? || a.OutputTextDelta? || a.ArgumentsDelta? ==> ok);
    }

    method FinishStream()
      modifies this
      ensures Value() == Finish(old(Value()), requestId)
    {
      if !messageStarted || stopEmitted {
        return;
      }
      CloseOpenBlock();
      Yield(None, MessageStop(Failed));
      stopEmitted := true;
    }
  }

  /** Drives the client over a stream, which ends, or breaks off with an error: then the message is not finished. */
  method AsSeq(requestId: string, arrivals: seq<Arrival>, broken: bool) returns (events: seq<Event>)
    ensures events == if broken then Run(requestId, arrivals).emitted else Decoded(requestId, arrivals)
  {
    var client := new ResponseStreamClient(requestId);
    var ok := true;
    var k := 0;
    while k < |arrivals| && ok
      invariant 0 <= k <= |arrivals| && client.requestId == requestId && fresh(client) && ok == !client.failed
      invariant ok ==> client.Value() == Run(requestId, arrivals[..k])
      invariant !ok ==> client.Value() == Run(requestId, arrivals)
    {
      assert arrivals[..k + 1][..k] == arrivals[..k];
      ok := client.Convert(arrivals[k]);
      k := k + 1;
      if !ok {
        FailedForGood(requestId, arrivals, k);
      }
    }
    assert arrivals[..|arrivals|] == arrivals;
    if ok && !broken {
      client.FinishStream();
    }
    events := client.yielded;
  }

  lemma {:induction false} FailedForGood(requestId: string, arrivals: seq<Arrival>, k: nat)
    requires k <= |arrivals| && Run(requestId, arrivals[..k]).failed
    ensures Run(requestId, arrivals) == Run(requestId, arrivals[..k])
  {
    if k == |arrivals| {
      assert arrivals[..k] == arrivals;
    } else {
      var front := arrivals[..|arrivals| - 1];
      assert front[..k] == arrivals[..k];
      FailedForGood(requestId, front, k);
    }
  }
}
