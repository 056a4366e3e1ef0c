/**
 Flattening the output items of a Responses upstream to contents, and regrouping those for a client. Regrouping undoes
 flattening exactly for lists of items that the converter could have produced.
 */
module ResponsesRegroup {
  import opened Basics
  import opened ResponsesTypes
  import opened ResponsesConverters
  import CT = ChatTypes

  datatype UpstreamPart = OutputText(text: string) | OtherPart

  datatype UpstreamItem =
    | UpstreamMessage(id: string, finalAnswer: bool, parts: seq<UpstreamPart>)
    | UpstreamReasoning(id: string, summary: seq<string>, raw: seq<string>, encrypted: string)
    | UpstreamCall(id: string, callId: string, name: string, arguments: string)
    | UpstreamOther

  function TextOf(id: string, phase: CT.Phase, text: string): CT.Content {
    CT.Content(id, None, phase, "", CT.Text(text))
  }

  function SealOf(id: string, data: string): CT.Content {
    CT.Content(id, None, CT.Reasoning, "", CT.Opaque(data))
  }

  function CallOf(id: string, callId: string, name: string, arguments: string): CT.Content {
    CT.Content(id, None, CT.Normal, "", CT.ToolUse(callId, name, [arguments]))
  }

  function TextsOf(id: string, phase: CT.Phase, texts: seq<string>): seq<CT.Content> {
    if texts == [] then [] else TextsOf(id, phase, texts[..|texts| - 1]) + [TextOf(id, phase, texts[|texts| - 1])]
  }

  function PhaseOf(finalAnswer: bool): CT.Phase {
    if finalAnswer then CT.Outcome else CT.Normal
  }

  function OutputTexts(parts: seq<UpstreamPart>): seq<string> {
    if parts == [] then [] else
    OutputTexts(parts[..|parts| - 1]) + if parts[|parts| - 1].OutputText? then [parts[|parts| - 1].text] else []
  }

  function SealsOf(id: string, encrypted: string): seq<CT.Content> {
    if encrypted == "" then [] else [SealOf(id, encrypted)]
  }

  function FlattenedItem(u: UpstreamItem): seq<CT.Content> {
    match u
    case UpstreamMessage(id, finalAnswer, parts) => TextsOf(id, PhaseOf(finalAnswer), OutputTexts(parts))
    case UpstreamReasoning(id, summary, raw, encrypted) =>
      TextsOf(id, CT.Reasoning, summary) + TextsOf(id, CT.Reasoning, raw) + SealsOf(id, encrypted)
    case UpstreamCall(id, callId, name, arguments) => [CallOf(id, callId, name, arguments)]
    case UpstreamOther => []
  }

  function Flattened(us: seq<UpstreamItem>): seq<CT.Content> {
    if us == [] then [] else Flattened(us[..|us| - 1]) + FlattenedItem(us[|us| - 1])
  }

  // ----- The loops of the client -----

  method ConvertReasoning(id: string, summary: seq<string>, raw: seq<string>, encrypted: string) returns (contents: seq<CT.Content>)
    ensures contents == FlattenedItem(UpstreamReasoning(id, summary, raw, encrypted))
  {
    contents := [];
    for k := 0 to |summary|
      invariant contents == TextsOf(id, CT.Reasoning, summary[..k])
    {
      assert summary[..k + 1][..k] == summary[..k];
      contents := contents + [TextOf(id, CT.Reasoning, summary[k])];
    }
    assert summary[..|summary|] == summary;
    ghost var summaries := contents;
    for k := 0 to |raw|
      invariant contents == summaries + TextsOf(id, CT.Reasoning, raw[..k])
    {
      assert raw[..k + 1][..k] == raw[..k];
      contents := contents + [TextOf(id, CT.Reasoning, raw[k])];
    }
    assert raw[..|raw|] == raw;
    if encrypted != "" {
      contents := contents + [SealOf(id, encrypted)];
    }
  }

  method ConvertMessage(id: string, finalAnswer: bool, parts: seq<UpstreamPart>) returns (contents: seq<CT.Content>)
    ensures contents == FlattenedItem(UpstreamMessage(id, finalAnswer, parts))
  {
    contents := [];
    for k := 0 to |parts|
      invariant contents == TextsOf(id, PhaseOf(finalAnswer), OutputTexts(parts[..k]))
    {
      assert parts[..k + 1][..k] == parts[..k];
      ghost var texts := OutputTexts(parts[..k]);
      if parts[k].OutputText? {
        TextsMore(id, PhaseOf(finalAnswer), texts, parts[k].text);
        contents := contents + [TextOf(id, PhaseOf(finalAnswer), parts[k].text)];
      } else {
        assert texts + [] == texts;
      }
    }
    assert parts[..|parts|] == parts;
  }

  lemma TextsMore(id: string, phase: CT.Phase, xs: seq<string>, x: string)
    ensures TextsOf(id, phase, xs + [x]) == TextsOf(id, phase, xs) + [TextOf(id, phase, x)]
  {
    assert (xs + [x])[..|xs|] == xs;
  }

  method ConvertOutput(us: seq<UpstreamItem>) returns (contents: seq<CT.Content>)
    ensures contents == Flattened(us)
  {
    contents := [];
    for k := 0 to |us|
      invariant contents == Flattened(us[..k])
    {
      assert us[..k + 1][..k] == us[..k];
      match us[k] {
        case UpstreamMessage(id, finalAnswer, parts) =>
          var cs := ConvertMessage(id, finalAnswer, parts);
          contents := contents + cs;
        case UpstreamReasoning(id, summary, raw, encrypted) =>
          var cs := ConvertReasoning(id, summary, raw, encrypted);
          contents := contents + cs;
        case UpstreamCall(id, callId, name, arguments) =>
          contents := contents + [CallOf(id, callId, name, arguments)];
        case UpstreamOther =>
      }
    }
    assert us[..|us|] == us;
  }

  // ----- What a client of ours could see of an upstream's items -----

  function ContentsOfItem(item: OutputItem): seq<CT.Content> {
    match item
    case MessageItem(id, _, finalAnswer, parts) => TextsOf(id, PhaseOf(finalAnswer), parts)
    case ReasoningItem(id, _, summary, encrypted) => TextsOf(id, CT.Reasoning, summary) + SealsOf(id, encrypted)
    case CallItem(id, _, callId, name, arguments) => [CallOf(id, callId, name, arguments)]
  }

  function ContentsOfItems(items: seq<OutputItem>): seq<CT.Content> {
    if items == [] then [] else ContentsOfItems(items[..|items| - 1]) + ContentsOfItem(items[|items| - 1])
  }

  function VisibleItem(u: UpstreamItem): seq<OutputItem> {
    match u
    case UpstreamMessage(id, finalAnswer, parts) => [MessageItem(id, true, finalAnswer, OutputTexts(parts))]
    case UpstreamReasoning(id, summary, raw, encrypted) => [ReasoningItem(id, true, summary + raw, encrypted)]
    case UpstreamCall(id, callId, name, arguments) => [CallItem(id, true, callId, name, arguments)]
    case UpstreamOther => []
  }

  /** Without refusals and unknown items, and with raw reasoning among the summaries. */
  function Visible(us: seq<UpstreamItem>): seq<OutputItem> {
    if us == [] then [] else Visible(us[..|us| - 1]) + VisibleItem(us[|us| - 1])
  }

  lemma {:induction false} TextsAppend(id: string, phase: CT.Phase, xs: seq<string>, ys: seq<string>)
    ensures TextsOf(id, phase, xs + ys) == TextsOf(id, phase, xs) + TextsOf(id, phase, ys)
    decreases ys
  {
    if ys == [] {
      assert xs + ys == xs;
    } else {
      assert (xs + ys)[..|xs + ys| - 1] == xs + ys[..|ys| - 1];
      TextsAppend(id, phase, xs, ys[..|ys| - 1]);
    }
  }

  lemma ContentsMore(items: seq<OutputItem>, item: OutputItem)
    ensures ContentsOfItems(items + [item]) == ContentsOfItems(items) + ContentsOfItem(item)
  {
    assert (items + [item])[..|items|] == items;
  }

  lemma {:induction false} FlattenedVisible(us: seq<UpstreamItem>)
    ensures Flattened(us) == ContentsOfItems(Visible(us))
  {
    if us != [] {
      var front, u := us[..|us| - 1], us[|us| - 1];
      FlattenedVisible(front);
      if u.UpstreamReasoning? {
        TextsAppend(u.id, CT.Reasoning, u.summary, u.raw);
      }
      if u.UpstreamOther? {
        assert Visible(front) + [] == Visible(front);
      } else {
        assert Visible(us) == Visible(front) + [VisibleItem(u)[0]];
        hide TextsOf, OutputTexts;
        ContentsMore(Visible(front), VisibleItem(u)[0]);
      }
    }
  }

  // ----- Lists of items that regrouping gives back -----

  predicate Solid(item: OutputItem) {
    item.id != "" && item.completed &&
    match item
    case MessageItem(_, _, _, parts) => parts != []
    case ReasoningItem(_, _, summary, encrypted) => summary != [] || encrypted != ""
    case CallItem(_, _, _, _, _) => true
  }

  predicate Mergeable(x: OutputItem, y: OutputItem) {
    x.MessageItem? && y.MessageItem? && x.id == y.id && x.finalAnswer == y.finalAnswer
  }

  /** Items with ids and contents, no two reasoning items of one id. */
  ghost predicate Distinct(items: seq<OutputItem>) {
    && (forall k | 0 <= k < |items| :: Solid(items[k]))
    && (forall j, k | 0 <= j < k < |items| && items[j].ReasoningItem? && items[k].ReasoningItem? :: items[j].id != items[k].id)
  }

  /** No two adjacent messages of one id and phase. */
  ghost predicate Separate(items: seq<OutputItem>) {
    forall k | 0 < k < |items| :: !Mergeable(items[k - 1], items[k])
  }

  ghost predicate Canonical(items: seq<OutputItem>) {
    Distinct(items) && Separate(items)
  }

  // ----- Canonical lists come back -----

  function AddAll(responseId: string, a: Assembly, cs: seq<CT.Content>): (r: Assembly)
    requires a.Valid()
    ensures r.Valid()
  {
    if cs == [] then a else Add(responseId, AddAll(responseId, a, cs[..|cs| - 1]), cs[|cs| - 1])
  }

  lemma {:induction false} AddAllAppend(responseId: string, a: Assembly, xs: seq<CT.Content>, ys: seq<CT.Content>)
    requires a.Valid()
    ensures AddAll(responseId, a, xs + ys) == AddAll(responseId, AddAll(responseId, a, xs), ys)
    decreases ys
  {
    if ys == [] {
      assert xs + ys == xs;
    } else {
      assert (xs + ys)[..|xs + ys| - 1] == xs + ys[..|ys| - 1];
      hide Add;
      AddAllAppend(responseId, a, xs, ys[..|ys| - 1]);
    }
  }

  lemma {:induction false} AssembledAppend(responseId: string, xs: seq<CT.Content>, ys: seq<CT.Content>)
    ensures Assembled(responseId, xs + ys) == AddAll(responseId, Assembled(responseId, xs), ys)
    decreases ys
  {
    if ys == [] {
      assert xs + ys == xs;
    } else {
      assert (xs + ys)[..|xs + ys| - 1] == xs + ys[..|ys| - 1];
      hide Add;
      AssembledAppend(responseId, xs, ys[..|ys| - 1]);
    }
  }

  /** The table finds every reasoning item under its id, and nothing else. */
  ghost predicate Finds(byId: map<string, nat>, items: seq<OutputItem>) {
    && (forall k | 0 <= k < |items| && items[k].ReasoningItem? :: items[k].id in byId && byId[items[k].id] == k)
    && (forall id <- byId.Keys :: byId[id] < |items| && items[byId[id]].ReasoningItem? && items[byId[id]].id == id)
  }

  /** What the assembly is after a canonical list: its last message is still open, the rest is listed. */
  ghost predicate Holds(a: Assembly, items: seq<OutputItem>) {
    var n := |items| - 1;
    && a.Valid()
    && (if n >= 0 && items[n].MessageItem? then a.message == Some(items[n]) && a.output == items[..n]
        else a.message.None? && a.output == items)
    && Finds(a.byId, items)
  }

  lemma FindsMore(byId: map<string, nat>, items: seq<OutputItem>, item: OutputItem)
    requires Finds(byId, items) && (item.ReasoningItem? ==> item.id !in byId)
    ensures Finds(if item.ReasoningItem? then byId[item.id := |items|] else byId, items + [item])
  {
  }

  lemma AddedOne(responseId: string, a: Assembly, c: CT.Content)
    requires a.Valid()
    ensures AddAll(responseId, a, [c]) == Add(responseId, a, c)
  {
    assert [c][..0] == [];
  }

  lemma TextJoined(responseId: string, a: Assembly, id: string, finalAnswer: bool, parts: seq<string>, text: string)
    requires a.Valid() && a.message == Some(MessageItem(id, true, finalAnswer, parts)) && a.reasoning.None?
    ensures Add(responseId, a, TextOf(id, PhaseOf(finalAnswer), text)) == a.(message := Some(MessageItem(id, true, finalAnswer, parts + [text])))
  {
  }

  lemma TextOpened(responseId: string, a: Assembly, id: string, finalAnswer: bool, text: string)
    requires a.Valid() && id != ""
    requires a.message.Some? ==> !(a.message.value.id == id && a.message.value.finalAnswer == finalAnswer)
    ensures Add(responseId, a, TextOf(id, PhaseOf(finalAnswer), text))
         == FlushMessage(responseId, a).(reasoning := None, message := Some(MessageItem(id, true, finalAnswer, [text])))
  {
    assert [] + [text] == [text];
  }

  lemma {:induction false} MessageAdded(responseId: string, a: Assembly, id: string, finalAnswer: bool, texts: seq<string>)
    requires a.Valid() && id != "" && texts != []
    requires a.message.Some? ==> !(a.message.value.id == id && a.message.value.finalAnswer == finalAnswer)
    ensures AddAll(responseId, a, TextsOf(id, PhaseOf(finalAnswer), texts))
         == FlushMessage(responseId, a).(reasoning := None, message := Some(MessageItem(id, true, finalAnswer, texts)))
    decreases texts
  {
    var n := |texts| - 1;
    var cs := TextsOf(id, PhaseOf(finalAnswer), texts);
    assert cs[..|cs| - 1] == TextsOf(id, PhaseOf(finalAnswer), texts[..n]);
    assert texts[..n] + [texts[n]] == texts;
    hide Add, FlushMessage;
    if n == 0 {
      assert texts == [texts[0]] && cs == [TextOf(id, PhaseOf(finalAnswer), texts[0])];
      hide TextsOf;
      AddedOne(responseId, a, TextOf(id, PhaseOf(finalAnswer), texts[0]));
      TextOpened(responseId, a, id, finalAnswer, texts[0]);
    } else {
      MessageAdded(responseId, a, id, finalAnswer, texts[..n]);
      TextJoined(responseId, AddAll(responseId, a, cs[..|cs| - 1]), id, finalAnswer, texts[..n], texts[n]);
    }
  }

  function WithSummary(a: Assembly, k: nat, texts: seq<string>): Assembly
    requires a.Valid() && k < |a.output| && a.output[k].ReasoningItem?
  {
    a.(output := a.output[k := a.output[k].(summary := a.output[k].summary + texts)])
  }

  lemma {:induction false} SummariesAdded(responseId: string, a: Assembly, id: string, texts: seq<string>)
    requires a.Valid() && id != "" && a.message.None? && id in a.byId && a.reasoning == Some(a.byId[id])
    ensures AddAll(responseId, a, TextsOf(id, CT.Reasoning, texts)) == WithSummary(a, a.byId[id], texts)
    decreases texts
  {
    var n, k := |texts| - 1, a.byId[id];
    if texts == [] {
      assert a.output[k].summary + texts == a.output[k].summary;
    } else {
      var cs := TextsOf(id, CT.Reasoning, texts);
      assert cs[..|cs| - 1] == TextsOf(id, CT.Reasoning, texts[..n]);
      SummariesAdded(responseId, a, id, texts[..n]);
      assert a.output[k].summary + texts[..n] + [texts[n]] == a.output[k].summary + texts;
    }
  }

  /** The assembly once a reasoning item of a new id has been opened. */
  function Opened(responseId: string, a: Assembly, id: string): (r: Assembly)
    requires a.Valid() && id != ""
    ensures r.Valid() && r.message.None? && id in r.byId && r.reasoning == Some(r.byId[id])
  {
    NewReasoning(FlushMessage(responseId, a), id)
  }

  lemma ThoughtOpens(responseId: string, a: Assembly, id: string, c: CT.Content)
    requires a.Valid() && id != "" && id !in a.byId && c.id == id && c.phase.Reasoning? && (c.body.Text? || c.body.Opaque?)
    ensures Add(responseId, a, c) == Add(responseId, Opened(responseId, a, id), c)
  {
  }

  lemma {:induction false} ThoughtsOpen(responseId: string, a: Assembly, id: string, cs: seq<CT.Content>)
    requires a.Valid() && id != "" && id !in a.byId && cs != [] && cs[0].id == id && cs[0].phase.Reasoning?
    requires cs[0].body.Text? || cs[0].body.Opaque?
    ensures AddAll(responseId, a, cs) == AddAll(responseId, Opened(responseId, a, id), cs)
    decreases cs
  {
    if |cs| == 1 {
      assert cs[..0] == [];
      ThoughtOpens(responseId, a, id, cs[0]);
    } else {
      hide Add, Opened;
      ThoughtsOpen(responseId, a, id, cs[..|cs| - 1]);
    }
  }

  lemma SealAdded(responseId: string, a: Assembly, id: string, data: string)
    requires a.Valid() && id != "" && a.message.None? && id in a.byId && a.reasoning == Some(a.byId[id])
    ensures Add(responseId, a, SealOf(id, data)) == SetEncrypted(a, data)
  {
  }

  /** A reasoning item of a new id, filled. */
  function Filled(responseId: string, a: Assembly, id: string, summary: seq<string>, encrypted: string): Assembly
    requires a.Valid() && id != ""
  {
    var f := FlushMessage(responseId, a);
    f.(output := f.output + [ReasoningItem(id, true, summary, encrypted)], reasoning := Some(|f.output|), byId := f.byId[id := |f.output|])
  }

  lemma SummaryFilled(responseId: string, a: Assembly, id: string, summary: seq<string>)
    requires a.Valid() && id != ""
    ensures var o := Opened(responseId, a, id); WithSummary(o, o.byId[id], summary) == Filled(responseId, a, id, summary, "")
  {
    hide FlushMessage;
    assert [] + summary == summary;
  }

  lemma EncryptedFilled(responseId: string, a: Assembly, id: string, summary: seq<string>, encrypted: string)
    requires a.Valid() && id != ""
    ensures var o := Filled(responseId, a, id, summary, "");
            o.Valid() && o.reasoning.Some? && o.message.None? && id in o.byId && o.reasoning == Some(o.byId[id])
            && SetEncrypted(o, encrypted) == Filled(responseId, a, id, summary, encrypted)
  {
    hide FlushMessage;
  }

  lemma ReasoningAdded(responseId: string, a: Assembly, item: OutputItem)
    requires a.Valid() && item.ReasoningItem? && Solid(item) && item.id !in a.byId
    ensures AddAll(responseId, a, ContentsOfItem(item)) == Filled(responseId, a, item.id, item.summary, item.encrypted)
  {
    var id, o := item.id, Opened(responseId, a, item.id);
    var texts, seals := TextsOf(id, CT.Reasoning, item.summary), SealsOf(id, item.encrypted);
    hide Add, Opened, Filled, AddAll, TextsOf, WithSummary;
    FirstText(id, item.summary);
    ThoughtsOpen(responseId, a, id, texts + seals);
    AddAllAppend(responseId, o, texts, seals);
    SummariesAdded(responseId, o, id, item.summary);
    SummaryFilled(responseId, a, id, item.summary);
    var w := Filled(responseId, a, id, item.summary, "");
    EncryptedFilled(responseId, a, id, item.summary, item.encrypted);
    if item.encrypted == "" {
      AddedNone(responseId, w);
    } else {
      AddedOne(responseId, w, SealOf(id, item.encrypted));
      SealAdded(responseId, w, id, item.encrypted);
    }
  }

  lemma AddedNone(responseId: string, a: Assembly)
    requires a.Valid()
    ensures AddAll(responseId, a, []) == a
  {
  }

  lemma {:induction false} FirstText(id: string, texts: seq<string>)
    ensures |TextsOf(id, CT.Reasoning, texts)| == |texts|
    ensures forall k | 0 <= k < |texts| :: TextsOf(id, CT.Reasoning, texts)[k] == TextOf(id, CT.Reasoning, texts[k])
    decreases texts
  {
    if texts != [] {
      FirstText(id, texts[..|texts| - 1]);
    }
  }

  lemma CallAdded(responseId: string, a: Assembly, item: OutputItem)
    requires a.Valid() && item.CallItem? && Solid(item)
    ensures var f := FlushMessage(responseId, a);
            AddAll(responseId, a, ContentsOfItem(item)) == f.(reasoning := None, output := f.output + [item])
  {
    AddedOne(responseId, a, CallOf(item.id, item.callId, item.name, item.arguments));
    assert item == CallItem(item.id, true, item.callId, item.name, item.arguments);
    JoinedOne(item.arguments);
  }

  lemma JoinedOne(text: string)
    ensures CT.TextualInput([text]) == text
  {
    assert [text][1..] == [];
    assert text + "" == text;
  }

  lemma HoldsFlushed(responseId: string, a: Assembly, items: seq<OutputItem>)
    requires Holds(a, items) && forall k | 0 <= k < |items| :: Solid(items[k])
    ensures var f := FlushMessage(responseId, a); f.output == items && f.byId == a.byId && f.message.None?
  {
  }

  /** The assembly after one more item: how each kind of item is added to what a canonical list has left. */
  lemma ItemAdded(responseId: string, a: Assembly, items: seq<OutputItem>, item: OutputItem)
    requires Holds(a, items) && Canonical(items + [item])
    ensures Holds(AddAll(responseId, a, ContentsOfItem(item)), items + [item])
  {
    HoldsValid(a, items);
    var all, n := items + [item], |items|;
    assert all[n] == item && forall k | 0 <= k < n :: all[k] == items[k];
    assert Solid(item) && (n > 0 ==> !Mergeable(items[n - 1], item)) && forall k | 0 <= k < n :: Solid(items[k]);
    assert item.ReasoningItem? ==> forall k | 0 <= k < n && items[k].ReasoningItem? :: items[k].id != item.id;
    hide Canonical, Distinct, Separate, FlushMessage, Add, AddAll, ContentsOfItem, Holds;
    if item.MessageItem? {
      MessageHeld(responseId, a, items, item);
    } else if item.ReasoningItem? {
      ReasoningHeld(responseId, a, items, item);
    } else {
      CallHeld(responseId, a, items, item);
    }
  }

  lemma MessageHeld(responseId: string, a: Assembly, items: seq<OutputItem>, item: OutputItem)
    requires Holds(a, items) && item.MessageItem? && Solid(item) && (items != [] ==> !Mergeable(items[|items| - 1], item))
    requires forall k | 0 <= k < |items| :: Solid(items[k])
    ensures Holds(AddAll(responseId, a, ContentsOfItem(item)), items + [item])
  {
    HoldsFlushed(responseId, a, items);
    FindsMore(a.byId, items, item);
    hide FlushMessage, Add, AddAll, Finds;
    MessageAdded(responseId, a, item.id, item.finalAnswer, item.parts);
    assert item == MessageItem(item.id, true, item.finalAnswer, item.parts);
    assert (items + [item])[..|items|] == items;
  }

  lemma ReasoningHeld(responseId: string, a: Assembly, items: seq<OutputItem>, item: OutputItem)
    requires Holds(a, items) && item.ReasoningItem? && Solid(item)
    requires forall k | 0 <= k < |items| :: Solid(items[k]) && (items[k].ReasoningItem? ==> items[k].id != item.id)
    ensures Holds(AddAll(responseId, a, ContentsOfItem(item)), items + [item])
  {
    HoldsFlushed(responseId, a, items);
    assert item.id !in a.byId;
    FindsMore(a.byId, items, item);
    hide FlushMessage, Add, AddAll, ContentsOfItem, Finds;
    ReasoningAdded(responseId, a, item);
    assert item == ReasoningItem(item.id, true, item.summary, item.encrypted);
  }

  lemma CallHeld(responseId: string, a: Assembly, items: seq<OutputItem>, item: OutputItem)
    requires Holds(a, items) && item.CallItem? && Solid(item) && forall k | 0 <= k < |items| :: Solid(items[k])
    ensures Holds(AddAll(responseId, a, ContentsOfItem(item)), items + [item])
  {
    HoldsFlushed(responseId, a, items);
    FindsMore(a.byId, items, item);
    hide FlushMessage, Add, AddAll, ContentsOfItem, Finds;
    CallAdded(responseId, a, item);
  }

  lemma {:induction false} CanonicalHeld(responseId: string, items: seq<OutputItem>)
    requires Canonical(items)
    ensures Holds(Assembled(responseId, ContentsOfItems(items)), items)
  {
    if items != [] {
      var front, item := items[..|items| - 1], items[|items| - 1];
      assert front + [item] == items;
      assert Canonical(front);
      hide Holds, Canonical, Distinct, Separate, AddAll, Add;
      CanonicalHeld(responseId, front);
      AssembledAppend(responseId, ContentsOfItems(front), ContentsOfItem(item));
      HoldsValid(Assembled(responseId, ContentsOfItems(front)), front);
      ItemAdded(responseId, Assembled(responseId, ContentsOfItems(front)), front, item);
    }
  }

  lemma HoldsValid(a: Assembly, items: seq<OutputItem>)
    requires Holds(a, items)
    ensures a.Valid()
  {
  }

  // ----- What is produced: solid items, and reasoning items of distinct ids -----

  /** No seal is empty. */
  ghost predicate Sealed(cs: seq<CT.Content>) {
    forall k | 0 <= k < |cs| :: cs[k].body.Opaque? && cs[k].phase.Reasoning? ==> cs[k].body.data != ""
  }

  ghost predicate Produced(a: Assembly) {
    && a.Valid()
    && (forall k | 0 <= k < |a.output| :: Solid(a.output[k]))
    && (a.message.Some? ==> a.message.value.completed && a.message.value.parts != [])
    && (forall k | 0 <= k < |a.output| && a.output[k].ReasoningItem? :: a.output[k].id in a.byId && a.byId[a.output[k].id] == k)
    && (forall id <- a.byId.Keys :: a.output[a.byId[id]].id == id)
  }

  lemma FlushProduced(responseId: string, a: Assembly)
    requires Produced(a)
    ensures Produced(FlushMessage(responseId, a)) && FlushMessage(responseId, a).reasoning == a.reasoning
  {
    MadeUpId("msg", responseId, |a.output|);
    hide SyntheticId;
  }

  lemma MadeUpId(prefix: string, responseId: string, out: nat)
    ensures SyntheticId(prefix, responseId, out) != ""
  {
    assert |SyntheticId(prefix, responseId, out)| >= 1;
  }

  lemma TextProduced(responseId: string, a: Assembly, id: string, finalAnswer: bool, text: string)
    requires Produced(a)
    ensures Produced(AddText(responseId, a, id, finalAnswer, text))
  {
    var b := a.(reasoning := None);
    assert Produced(b);
    FlushProduced(responseId, b);
    hide FlushMessage, SyntheticId;
  }

  lemma CallProduced(responseId: string, a: Assembly, id: string, callId: string, name: string, arguments: string)
    requires Produced(a)
    ensures Produced(AddCall(responseId, a, id, callId, name, arguments))
  {
    FlushProduced(responseId, a);
    MadeUpId("fc", responseId, |FlushMessage(responseId, a).output|);
    hide FlushMessage, SyntheticId;
  }

  /** The item for a thought, which may still be empty. */
  lemma OpenProduced(responseId: string, a: Assembly, id: string)
    requires Produced(a) && a.message.None?
    ensures var t := ReasoningFor(responseId, a, id);
            && t.message.None? && t.reasoning.Some?
            && (forall k | 0 <= k < |t.output| :: k != t.reasoning.value ==> Solid(t.output[k]))
            && t.output[t.reasoning.value].id != "" && t.output[t.reasoning.value].completed
            && (forall k | 0 <= k < |t.output| && t.output[k].ReasoningItem? :: t.output[k].id in t.byId && t.byId[t.output[k].id] == k)
            && (forall id <- t.byId.Keys :: t.output[t.byId[id]].id == id)
  {
    MadeUpId("rs", responseId, |a.output|);
    hide SyntheticId;
  }

  lemma ThoughtProduced(responseId: string, a: Assembly, c: CT.Content)
    requires Produced(a) && a.message.None? && (c.body.Text? || (c.body.Opaque? && c.body.data != ""))
    ensures var t := ReasoningFor(responseId, a, c.id);
            Produced(if c.body.Text? then AddSummary(t, c.body.text) else SetEncrypted(t, c.body.data))
  {
    OpenProduced(responseId, a, c.id);
    hide ReasoningFor;
  }

  lemma AddProduced(responseId: string, a: Assembly, c: CT.Content)
    requires Produced(a) && (c.body.Opaque? && c.phase.Reasoning? ==> c.body.data != "")
    ensures Produced(Add(responseId, a, c))
  {
    FlushProduced(responseId, a);
    hide Produced, FlushMessage, ReasoningFor;
    if c.body.ToolUse? {
      CallProduced(responseId, a, c.id, c.body.callId, c.body.name, CT.TextualInput(c.body.inputs));
    } else if c.body.Text? && !c.phase.Reasoning? {
      TextProduced(responseId, a, c.id, IsFinalAnswer(c.phase), c.body.text);
    } else if (c.body.Text? || c.body.Opaque?) && c.phase.Reasoning? {
      FlushedNone(responseId, a);
      ThoughtProduced(responseId, FlushMessage(responseId, a), c);
    }
  }

  lemma FlushedNone(responseId: string, a: Assembly)
    requires a.Valid()
    ensures FlushMessage(responseId, a).message.None?
  {
  }

  lemma {:induction false} AssembledProduced(responseId: string, cs: seq<CT.Content>)
    requires Sealed(cs)
    ensures Produced(Assembled(responseId, cs))
  {
    if cs != [] {
      AssembledProduced(responseId, cs[..|cs| - 1]);
      hide Produced, Add;
      AddProduced(responseId, Assembled(responseId, cs[..|cs| - 1]), cs[|cs| - 1]);
    }
  }

  // ----- Other lists shrink -----

  function Size(a: Assembly): nat {
    |a.output| + if a.message.Some? then 1 else 0
  }

  predicate Open(a: Assembly, id: string, finalAnswer: bool)
    requires a.Valid()
  {
    a.message.Some? && a.message.value.id == id && a.message.value.finalAnswer == finalAnswer
  }

  lemma TextGrows(responseId: string, a: Assembly, id: string, finalAnswer: bool, text: string)
    requires a.Valid()
    ensures var r := Add(responseId, a, TextOf(id, PhaseOf(finalAnswer), text));
            Size(r) == Size(a) + (if Open(a, id, finalAnswer) then 0 else 1) && Open(r, id, finalAnswer)
  {
    hide SyntheticId;
  }

  lemma {:induction false} TextsGrow(responseId: string, a: Assembly, id: string, finalAnswer: bool, texts: seq<string>)
    requires a.Valid()
    ensures var r := AddAll(responseId, a, TextsOf(id, PhaseOf(finalAnswer), texts));
            && Size(r) == Size(a) + (if texts == [] || Open(a, id, finalAnswer) then 0 else 1)
            && (if texts == [] then r == a else Open(r, id, finalAnswer))
    decreases texts
  {
    if texts != [] {
      var n, phase := |texts| - 1, PhaseOf(finalAnswer);
      var front := TextsOf(id, phase, texts[..n]);
      assert TextsOf(id, phase, texts)[..|TextsOf(id, phase, texts)| - 1] == front;
      hide Add, Size, Open;
      TextsGrow(responseId, a, id, finalAnswer, texts[..n]);
      TextGrows(responseId, AddAll(responseId, a, front), id, finalAnswer, texts[n]);
    }
  }

  lemma {:induction false} ThoughtsGrow(responseId: string, a: Assembly, id: string, cs: seq<CT.Content>)
    requires a.Valid() && id != ""
    requires forall k | 0 <= k < |cs| :: cs[k].id == id && cs[k].phase.Reasoning? && (cs[k].body.Text? || cs[k].body.Opaque?)
    ensures var r := AddAll(responseId, a, cs);
            Size(r) <= Size(a) + 1 && (cs == [] ==> r == a) && (cs != [] ==> r.message.None? && id in r.byId)
    decreases cs
  {
    if cs != [] {
      ThoughtsGrow(responseId, a, id, cs[..|cs| - 1]);
    }
  }

  lemma ItemGrows(responseId: string, a: Assembly, item: OutputItem)
    requires a.Valid() && item.id != ""
    ensures Size(AddAll(responseId, a, ContentsOfItem(item))) <= Size(a) + 1
  {
    match item
    case MessageItem(id, _, finalAnswer, parts) => TextsGrow(responseId, a, id, finalAnswer, parts);
    case ReasoningItem(id, _, summary, encrypted) =>
      FirstText(id, summary);
      ThoughtsGrow(responseId, a, id, ContentsOfItem(item));
    case CallItem(_, _, _, _, _) => AddedOne(responseId, a, ContentsOfItem(item)[0]);
  }

  lemma MergedAway(responseId: string, a: Assembly, items: seq<OutputItem>, item: OutputItem)
    requires Holds(a, items) && items != [] && item.MessageItem? && Mergeable(items[|items| - 1], item) && item.parts != []
    ensures Size(AddAll(responseId, a, ContentsOfItem(item))) == |items|
  {
    hide AddAll, TextsOf, Finds;
    TextsGrow(responseId, a, item.id, item.finalAnswer, item.parts);
  }

  lemma {:induction false} OthersShrink(responseId: string, items: seq<OutputItem>)
    requires Distinct(items) && !Separate(items)
    ensures Size(Assembled(responseId, ContentsOfItems(items))) < |items|
  {
    hide *;
    LastPair(items);
    var front, item := items[..|items| - 1], items[|items| - 1];
    var a := Assembled(responseId, ContentsOfItems(front));
    ContentsMore(front, item);
    AssembledAppend(responseId, ContentsOfItems(front), ContentsOfItem(item));
    if Separate(front) {
      BothCanonical(front);
      CanonicalHeld(responseId, front);
      MergedAway(responseId, a, front, item);
    } else {
      OthersShrink(responseId, front);
      ItemGrows(responseId, a, item);
    }
  }

  lemma BothCanonical(items: seq<OutputItem>)
    requires Distinct(items) && Separate(items)
    ensures Canonical(items)
  {
  }

  lemma LastPair(items: seq<OutputItem>)
    requires Distinct(items) && !Separate(items)
    ensures items != []
    ensures var front, item := items[..|items| - 1], items[|items| - 1];
            && front + [item] == items && Distinct(front) && item.id != ""
            && (Separate(front) ==> front != [] && Mergeable(front[|front| - 1], item) && item.MessageItem? && item.parts != [])
  {
  }

  lemma {:induction false} ItemsSealed(items: seq<OutputItem>)
    ensures Sealed(ContentsOfItems(items))
  {
    if items != [] {
      ItemsSealed(items[..|items| - 1]);
      var item := items[|items| - 1];
      if item.MessageItem? {
        NoSeals(item.id, PhaseOf(item.finalAnswer), item.parts);
      } else if item.ReasoningItem? {
        NoSeals(item.id, CT.Reasoning, item.summary);
      }
    }
  }

  lemma {:induction false} NoSeals(id: string, phase: CT.Phase, texts: seq<string>)
    ensures forall k | 0 <= k < |TextsOf(id, phase, texts)| :: TextsOf(id, phase, texts)[k].body.Text?
    decreases texts
  {
    if texts != [] {
      NoSeals(id, phase, texts[..|texts| - 1]);
    }
  }

  lemma RegroupsBack(responseId: string, items: seq<OutputItem>)
    ensures Converted(responseId, ContentsOfItems(items)) == items <==> Canonical(items)
  {
    hide *;
    if Canonical(items) {
      CanonicalBack(responseId, items);
    } else if Converted(responseId, ContentsOfItems(items)) == items {
      BackIsCanonical(responseId, items);
      assert false;
    }
  }

  lemma CanonicalBack(responseId: string, items: seq<OutputItem>)
    requires Canonical(items)
    ensures Converted(responseId, ContentsOfItems(items)) == items
  {
    hide Holds, Separate, ContentsOfItems, FlushMessage, Solid;
    CanonicalHeld(responseId, items);
    HoldsFlushed(responseId, Assembled(responseId, ContentsOfItems(items)), items);
  }

  lemma BackIsCanonical(responseId: string, items: seq<OutputItem>)
    requires Converted(responseId, ContentsOfItems(items)) == items
    ensures Canonical(items)
  {
    hide Distinct, Separate, Produced, Size, ContentsOfItems, FlushMessage;
    var a := Assembled(responseId, ContentsOfItems(items));
    ItemsSealed(items);
    AssembledProduced(responseId, ContentsOfItems(items));
    FlushProduced(responseId, a);
    ProducedDistinct(FlushMessage(responseId, a));
    FlushedSize(responseId, a);
    if !Separate(items) {
      OthersShrink(responseId, items);
    }
  }

  lemma ProducedDistinct(a: Assembly)
    requires Produced(a)
    ensures Distinct(a.output)
  {
  }

  lemma FlushedSize(responseId: string, a: Assembly)
    requires a.Valid()
    ensures |FlushMessage(responseId, a).output| == Size(a)
  {
  }

  /**
   Regroup undoes flatten: the items of an upstream come back, as far as a client can see them, if and only if they are a
   list that regrouping can produce.
   */
  lemma RegroupUndoesFlatten(responseId: string, us: seq<UpstreamItem>)
    ensures Converted(responseId, Flattened(us)) == Visible(us) <==> Canonical(Visible(us))
  {
    FlattenedVisible(us);
    RegroupsBack(responseId, Visible(us));
  }
}
