/** Under which name, and with which counts, a streamed response ends. */
module ResponsesHeaders {
  import opened Basics
  import opened ResponsesTypes
  import opened ResponsesServers
  import opened ResponsesCompletion
  import CT = ChatTypes
  import R = Reducers

  /** What handling an event that starts no message leaves alone. */
  ghost predicate SameHead(s: Server, r: Server) {
    r.responseId == s.responseId && r.model == s.model && r.usage == s.usage
  }

  lemma FlushesKeepHead(s: Server)
    requires s.Valid()
    ensures SameHead(s, FlushText(s)) && SameHead(s, FlushReasoning(s)) && SameHead(s, FlushItems(s))
  {
  }

  lemma StartKeepsHead(s: Server, index: nat, id: string, phase: CT.Phase, kind: CT.StartKind)
    requires s.Valid()
    ensures SameHead(s, OnStart(s, index, id, phase, kind))
  {
    FlushesKeepHead(s);
    FlushesKeepHead(FlushText(s));
    FlushesKeepHead(FlushReasoning(s));
    hide FlushText, FlushReasoning, FlushItems, Server.Valid, SyntheticId;
  }

  lemma SnapshotKeepsHead(s: Server, c: CT.Content)
    requires s.Valid()
    ensures SameHead(s, OnSnapshot(s, c))
  {
    FlushesKeepHead(s);
    FlushesKeepHead(FlushText(s));
    hide FlushText, Server.Valid, SyntheticId;
  }

  lemma StopKeepsHead(s: Server, index: nat)
    requires s.Valid()
    ensures SameHead(s, OnStop(s, index))
  {
    hide Server.Valid;
  }

  lemma HandleKeepsHead(s: Server, requestId: string, p: CT.Payload)
    requires s.Valid()
    ensures Handle(s, requestId, p).usage == s.usage
    ensures !p.MessageStart? ==> SameHead(s, Handle(s, requestId, p))
  {
    hide FlushItems, OnStart, OnStop, OnSnapshot, StatusOf, TerminalOf;
    FlushesKeepHead(s);
    match p
    case ContentStart(id, index, phase, kind) => StartKeepsHead(s, index, id, phase, kind);
    case ContentStop(index) => StopKeepsHead(FlushItems(s), index);
    case ContentSnapshot(c) => SnapshotKeepsHead(s, c);
    case _ =>
  }

  /** Id and model of the response that has begun last: the id of its message, or that of the request if it has none. */
  function LastBegun(es: seq<CT.Event>): (string, string) {
    if es == [] then ("", "") else
    var e := es[|es| - 1];
    if e.payload.MessageStart? then (if e.payload.messageId == "" then e.requestId else e.payload.messageId, e.payload.model)
    else LastBegun(es[..|es| - 1])
  }

  /** And under which name, and with which counts: each the last that has been reported and is not zero. */
  lemma EndsNamed(es: seq<CT.Event>, stop: CT.Event, f: R.UsageField)
    requires stop.payload.MessageStop?
    ensures var r := Run(START, es + [stop]).Response();
            (r.id, r.model) == LastBegun(es) && R.FieldOf(r.usage, f) == R.LastReport(f, es + [stop])
  {
    hide *;
    RunLast(es, stop);
    RunKnows(es);
    LastInFront(es, stop, f);
    StepKnows(Run(START, es), stop);
    UsageKnown(es + [stop], f);
    RunKnows(es + [stop]);
    StopReports(Run(START, es), stop);
    ResponseOf(Run(START, es + [stop]));
  }

  lemma ResponseOf(s: Server)
    requires s.Valid()
    ensures var r := s.Response(); (r.id, r.model) == (s.responseId, s.model) && r.usage == s.finalUsage
  {
  }

  lemma LastInFront(es: seq<CT.Event>, stop: CT.Event, f: R.UsageField)
    requires stop.payload.MessageStop?
    ensures LastBegun(es + [stop]) == LastBegun(es)
  {
    assert (es + [stop])[..|es|] == es;
  }

  lemma StopReports(s: Server, stop: CT.Event)
    requires s.Valid() && stop.payload.MessageStop?
    ensures Step(s, stop).finalUsage == Step(s, stop).usage
  {
    hide FlushItems;
  }

  lemma StepKnows(s: Server, e: CT.Event)
    requires s.Valid()
    ensures var r, p := Step(s, e), e.payload;
            && r.usage == CT.MergeUsage(s.usage, e.usage)
            && (r.responseId, r.model) ==
               if p.MessageStart? then (if p.messageId == "" then e.requestId else p.messageId, p.model) else (s.responseId, s.model)
  {
    HandleKeepsHead(s.(usage := CT.MergeUsage(s.usage, e.usage)), e.requestId, e.payload);
    hide CT.MergeUsage, OnStart, OnStop, OnSnapshot, OnDelta, FlushItems;
    FlushesKeepHead(s.(usage := CT.MergeUsage(s.usage, e.usage)));
  }

  lemma {:induction false} RunKnows(es: seq<CT.Event>)
    ensures var s := Run(START, es);
            (s.responseId, s.model) == LastBegun(es) && s.usage == R.Run(R.EMPTY, es).resp.usage
  {
    hide *;
    if es == [] {
      NothingKnown();
    } else {
      var front, e := es[..|es| - 1], es[|es| - 1];
      RunKnows(front);
      assert front + [e] == es;
      LastOf(es);
      RunLast(front, e);
      StepKnows(Run(START, front), e);
      R.RunAppend(R.EMPTY, front, e);
      R.ReducedUsage(R.Run(R.EMPTY, front), e);
    }
  }

  lemma LastOf(es: seq<CT.Event>)
    requires es != []
    ensures var front, e := es[..|es| - 1], es[|es| - 1];
            LastBegun(es) == if e.payload.MessageStart? then (if e.payload.messageId == "" then e.requestId else e.payload.messageId, e.payload.model)
                             else LastBegun(front)
  {
  }

  lemma NothingKnown()
    ensures var s := Run(START, []);
            (s.responseId, s.model) == LastBegun([]) && s.usage == R.Run(R.EMPTY, []).resp.usage
  {
  }

  lemma UsageKnown(es: seq<CT.Event>, f: R.UsageField)
    ensures R.FieldOf(Run(START, es).usage, f) == R.LastReport(f, es)
  {
    RunKnows(es);
    R.UsageIsLastReport(es, f);
    hide *;
  }
}
