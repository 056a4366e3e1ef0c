/**
 A client replays the output items of an earlier answer as input items. They become one message again, with the same
 contents in the same order, exactly if reasoning came in runs.
 */
module ResponsesReplay {
  import opened Basics
  import opened ResponsesTypes
  import opened ResponsesConverters
  import opened ItemGrouping
  import opened ResponsesRegroup
  import CT = ChatTypes

  // ----- Input items -----

  datatype Role = System | User | Model

  datatype InputPart = TextPart(text: string) | ImagePart(url: string) | UnknownPart

  datatype MessageContent = Plain(text: string) | Parts(parts: seq<InputPart>)

  /** The output of a call: a text, or parts with theirs. */
  datatype CallOutput = Whole(text: string) | Pieces(texts: seq<string>)

  datatype InputItem =
    | InputMessage(role: string, finalAnswer: bool, content: MessageContent)
    | InputReasoning(id: string, summary: seq<string>, raw: seq<string>, encrypted: Option<string>)
    | InputCall(callId: string, name: string, arguments: string)
    | InputCallOutput(callId: string, output: CallOutput)
    | UnknownInput

  datatype RoleMessage = RoleMessage(role: Role, contents: seq<CT.Content>)

  function RoleOf(role: string): Role {
    if role == "system" || role == "developer" then System else if role == "assistant" then Model else User
  }

  function Joined(texts: seq<string>): string {
    if texts == [] then "" else Joined(texts[..|texts| - 1]) + texts[|texts| - 1]
  }

  function PartContents(phase: CT.Phase, parts: seq<InputPart>): seq<CT.Content> {
    if parts == [] then [] else
    PartContents(phase, parts[..|parts| - 1]) +
    match parts[|parts| - 1]
    case TextPart(text) => [TextOf("", phase, text)]
    case ImagePart(url) => [CT.Content("", None, phase, "", CT.Image(url))]
    case UnknownPart => []
  }

  function MessageOf(i: InputItem): Option<RoleMessage> {
    match i
    case InputMessage(role, finalAnswer, content) =>
      Some(RoleMessage(RoleOf(role), match content
                                     case Plain(text) => [TextOf("", PhaseOf(finalAnswer), text)]
                                     case Parts(parts) => PartContents(PhaseOf(finalAnswer), parts)))
    case InputReasoning(id, summary, raw, encrypted) =>
      Some(RoleMessage(Model, TextsOf(id, CT.Reasoning, summary) + TextsOf(id, CT.Reasoning, raw)
                              + if encrypted.Some? then [SealOf(id, encrypted.value)] else []))
    case InputCall(callId, name, arguments) => Some(RoleMessage(Model, [CallOf("", callId, name, arguments)]))
    case InputCallOutput(callId, output) =>
      Some(RoleMessage(User, [CT.Content("", None, CT.Normal, "",
                                         CT.ToolResult(callId, if output.Whole? then output.text else Joined(output.texts)))]))
    case UnknownInput => None
  }

  /** Joins a message to the last one if it has the same role. */
  function AppendAdjacent(ms: seq<RoleMessage>, m: Option<RoleMessage>): seq<RoleMessage> {
    if m.None? then ms
    else if ms != [] && ms[|ms| - 1].role == m.value.role
    then ms[|ms| - 1 := ms[|ms| - 1].(contents := ms[|ms| - 1].contents + m.value.contents)]
    else ms + [m.value]
  }

  function MessagesOf(items: seq<InputItem>): seq<RoleMessage> {
    if items == [] then [] else AppendAdjacent(MessagesOf(items[..|items| - 1]), MessageOf(items[|items| - 1]))
  }

  // ----- The conversion as it runs -----

  class MessageCell {
    const role: Role
    var contents: seq<CT.Content>

    constructor (m: RoleMessage)
      ensures role == m.role && contents == m.contents
    {
      role, contents := m.role, m.contents;
    }
  }

  class RequestMessages {
    var messages: seq<MessageCell>
    ghost var repr: set<MessageCell>

    ghost predicate Valid()
      reads this
    {
      && (forall m <- messages :: m in repr)
      && (forall i, j | 0 <= i < j < |messages| :: messages[i] != messages[j])
    }

    ghost function Value(): seq<RoleMessage>
      reads this, messages
    {
      var ms := messages;
      seq(|ms|, k requires 0 <= k < |ms| reads ms => RoleMessage(ms[k].role, ms[k].contents))
    }

    constructor ()
      ensures Valid() && Value() == [] && repr == {}
    {
      messages, repr := [], {};
    }

    /** Extends the last message in place, or appends a new one. */
    method AppendAdjacentMessage(m: Option<RoleMessage>)
      requires Valid()
      modifies this, repr
      ensures Valid() && Value() == AppendAdjacent(old(Value()), m) && old(repr) <= repr && fresh(repr - old(repr))
    {
      if m.None? {
        return;
      }
      if messages != [] && messages[|messages| - 1].role == m.value.role {
        var last := messages[|messages| - 1];
        assert Value()[|messages| - 1] == RoleMessage(last.role, last.contents);
        last.contents := last.contents + m.value.contents;
        assert Value() == AppendAdjacent(old(Value()), m);
      } else {
        var cell := new MessageCell(m.value);
        messages, repr := messages + [cell], repr + {cell};
        assert Value() == old(Value()) + [m.value];
      }
    }
  }

  /** What a request brings along: instructions, and a text or a list of items. */
  datatype Input = InputText(text: string) | InputItems(items: seq<InputItem>)

  /** The same as a list of items: instructions are a message of the system, a text is one of the user. */
  function AllItems(instructions: Option<string>, input: Input): seq<InputItem> {
    (if instructions.Some? then [InputMessage("system", false, Plain(instructions.value))] else []) +
    match input
    case InputText(text) => [InputMessage("user", false, Plain(text))]
    case InputItems(items) => items
  }

  method ConvertInput(instructions: Option<string>, input: Input) returns (r: RequestMessages)
    ensures fresh(r) && r.Valid() && fresh(r.repr) && r.Value() == MessagesOf(AllItems(instructions, input))
  {
    hide *;
    r := new RequestMessages();
    AllItemsAre(instructions, input);
    ghost var first := [];
    if instructions.Some? {
      AppendText(r, System, instructions.value, first, InputMessage("system", false, Plain(instructions.value)));
      first := first + [InputMessage("system", false, Plain(instructions.value))];
    }
    match input {
      case InputText(text) => AppendText(r, User, text, first, InputMessage("user", false, Plain(text)));
      case InputItems(items) => AppendItems(r, items, first);
    }
  }

  lemma AllItemsAre(instructions: Option<string>, input: Input)
    ensures var first := if instructions.Some? then [] + [InputMessage("system", false, Plain(instructions.value))] else [];
            AllItems(instructions, input) == first + (match input
                                                      case InputText(text) => [InputMessage("user", false, Plain(text))]
                                                      case InputItems(items) => items)
    ensures MessagesOf([]) == []
    ensures forall text :: MessageOf(InputMessage("system", false, Plain(text))) == Some(RoleMessage(System, [TextOf("", CT.Normal, text)]))
    ensures forall text :: MessageOf(InputMessage("user", false, Plain(text))) == Some(RoleMessage(User, [TextOf("", CT.Normal, text)]))
  {
  }

  method AppendText(r: RequestMessages, role: Role, text: string, ghost first: seq<InputItem>, ghost item: InputItem)
    requires r.Valid() && r.Value() == MessagesOf(first) && MessageOf(item) == Some(RoleMessage(role, [TextOf("", CT.Normal, text)]))
    modifies r, r.repr
    ensures r.Valid() && r.Value() == MessagesOf(first + [item]) && fresh(r.repr - old(r.repr))
  {
    hide AppendAdjacent, MessagesOf, MessageOf;
    r.AppendAdjacentMessage(Some(RoleMessage(role, [TextOf("", CT.Normal, text)])));
    OneMore(first, item, first + [item]);
  }

  method AppendItems(r: RequestMessages, items: seq<InputItem>, ghost first: seq<InputItem>)
    requires r.Valid() && r.Value() == MessagesOf(first)
    modifies r, r.repr
    ensures r.Valid() && r.Value() == MessagesOf(first + items) && fresh(r.repr - old(r.repr))
  {
    hide AppendAdjacent, MessagesOf, MessageOf;
    assert first + items[..0] == first;
    for k := 0 to |items|
      invariant r.Valid() && fresh(r.repr - old(r.repr)) && r.Value() == MessagesOf(first + items[..k])
    {
      OneMore(first + items[..k], items[k], first + items[..k + 1]);
      r.AppendAdjacentMessage(MessageOf(items[k]));
    }
    assert first + items[..|items|] == first + items;
  }

  // ----- Replaying our own output items -----

  /** An output item as it appears in the input of a later request. */
  function AsInput(item: OutputItem): InputItem {
    match item
    case MessageItem(_, _, finalAnswer, parts) => InputMessage("assistant", finalAnswer, Parts(seq(|parts|, k requires 0 <= k < |parts| => TextPart(parts[k]))))
    case ReasoningItem(id, _, summary, encrypted) => InputReasoning(id, summary, [], if encrypted == "" then None else Some(encrypted))
    case CallItem(_, _, callId, name, arguments) => InputCall(callId, name, arguments)
  }

  function AsInputs(items: seq<OutputItem>): seq<InputItem> {
    seq(|items|, k requires 0 <= k < |items| => AsInput(items[k]))
  }

  /** The contents that an item is replayed as. */
  function ReplayedItem(item: OutputItem): seq<CT.Content> {
    match item
    case MessageItem(_, _, finalAnswer, parts) => TextsOf("", PhaseOf(finalAnswer), parts)
    case ReasoningItem(id, _, summary, encrypted) => TextsOf(id, CT.Reasoning, summary) + SealsOf(id, encrypted)
    case CallItem(_, _, callId, name, arguments) => [CallOf("", callId, name, arguments)]
  }

  function Replayed(items: seq<OutputItem>): seq<CT.Content> {
    if items == [] then [] else Replayed(items[..|items| - 1]) + ReplayedItem(items[|items| - 1])
  }

  lemma {:induction false} PartsReplayed(phase: CT.Phase, texts: seq<string>, parts: seq<InputPart>)
    requires |parts| == |texts| && forall k | 0 <= k < |texts| :: parts[k] == TextPart(texts[k])
    ensures PartContents(phase, parts) == TextsOf("", phase, texts)
  {
    if texts != [] {
      PartsReplayed(phase, texts[..|texts| - 1], parts[..|parts| - 1]);
    }
  }

  lemma ItemReplayed(item: OutputItem)
    ensures MessageOf(AsInput(item)) == Some(RoleMessage(Model, ReplayedItem(item)))
  {
    match item
    case MessageItem(_, _, finalAnswer, parts) =>
      PartsReplayed(PhaseOf(finalAnswer), parts, AsInput(item).content.parts);
    case ReasoningItem(id, _, summary, encrypted) =>
      assert TextsOf(id, CT.Reasoning, summary) + [] == TextsOf(id, CT.Reasoning, summary);
    case CallItem(_, _, _, _, _) =>
  }

  /** All of them become one message of the model. */
  lemma {:induction false} OneMessage(items: seq<OutputItem>)
    ensures MessagesOf(AsInputs(items)) == if items == [] then [] else [RoleMessage(Model, Replayed(items))]
  {
    if items != [] {
      hide *;
      var front, item := items[..|items| - 1], items[|items| - 1];
      assert front + [item] == items;
      OneMessage(front);
      ItemReplayed(item);
      JoinedLast(if front == [] then [] else [RoleMessage(Model, Replayed(front))], Replayed(front), ReplayedItem(item));
      InputsMore(front, item);
      OneMore(AsInputs(front), AsInput(item), AsInputs(items));
      ReplayedMore(front, item);
    }
  }

  lemma InputsMore(items: seq<OutputItem>, item: OutputItem)
    ensures var inputs := AsInputs(items + [item]);
            inputs != [] && inputs[..|inputs| - 1] == AsInputs(items) && inputs[|inputs| - 1] == AsInput(item)
  {
  }

  lemma JoinedLast(ms: seq<RoleMessage>, cs: seq<CT.Content>, ds: seq<CT.Content>)
    requires ms == if ms == [] then [] else [RoleMessage(Model, cs)]
    requires ms == [] ==> Replayed([]) == cs
    ensures AppendAdjacent(ms, Some(RoleMessage(Model, ds))) == [RoleMessage(Model, cs + ds)]
  {
    assert [] + ds == ds;
  }

  lemma OneMore(items: seq<InputItem>, item: InputItem, all: seq<InputItem>)
    requires all != [] && all[..|all| - 1] == items && all[|all| - 1] == item
    ensures MessagesOf(all) == AppendAdjacent(MessagesOf(items), MessageOf(item))
  {
  }

  lemma ReplayedMore(items: seq<OutputItem>, item: OutputItem)
    ensures Replayed(items + [item]) == Replayed(items) + ReplayedItem(item) && Replayed([]) == []
  {
    assert (items + [item])[..|items|] == items;
  }

  // ----- What is left of the contents -----

  /** Without signature and index, and without the item id of texts and calls; contents that are passed over are lost. */
  function Kept(c: CT.Content): seq<CT.Content> {
    match c.body
    case Text(text) => if c.phase.Reasoning? then [TextOf(c.id, CT.Reasoning, text)] else [TextOf("", c.phase, text)]
    case Opaque(data) => if c.phase.Reasoning? then [SealOf(c.id, data)] else []
    case ToolUse(callId, name, inputs) => [CallOf("", callId, name, CT.TextualInput(inputs))]
    case _ => []
  }

  function AllKept(cs: seq<CT.Content>): seq<CT.Content> {
    if cs == [] then [] else AllKept(cs[..|cs| - 1]) + Kept(Last(cs))
  }

  /** A thought in place: with an id, not empty if sealed, and only after a summary of the item it continues. */
  ghost predicate InPlace(cs: seq<CT.Content>, c: CT.Content) {
    IsThought(c) ==>
      && c.id != "" && (IsSeal(c) ==> c.body.data != "")
      && (Known(cs, c.id) ==> var l := LastSpoken(cs); l.Some? && IsSummary(l.value) && l.value.id == c.id)
  }

  /** Reasoning comes in runs of one id, each with its seal last. */
  ghost predicate InRuns(cs: seq<CT.Content>) {
    cs == [] || (InRuns(cs[..|cs| - 1]) && InPlace(cs[..|cs| - 1], Last(cs)))
  }

  lemma RunsMore(cs: seq<CT.Content>, c: CT.Content)
    ensures InRuns(cs + [c]) <==> InRuns(cs) && InPlace(cs, c)
  {
    assert (cs + [c])[..|cs|] == cs && Last(cs + [c]) == c;
  }

  lemma KeptMore(cs: seq<CT.Content>, c: CT.Content)
    ensures AllKept(cs + [c]) == AllKept(cs) + Kept(c)
  {
    assert (cs + [c])[..|cs|] == cs && Last(cs + [c]) == c;
  }

  function KeptLast(l: Option<CT.Content>): Option<CT.Content>
    requires l.Some? ==> IsSpoken(l.value)
  {
    if l.Some? then Some(Kept(l.value)[0]) else None
  }

  lemma KeptInPlace(cs: seq<CT.Content>, ks: seq<CT.Content>, c: CT.Content)
    requires Mirrors(cs, ks) && IsSpoken(c)
    ensures InPlace(ks, Kept(c)[0]) <==> InPlace(cs, c)
  {
    hide Known, LastSpoken;
  }

  ghost predicate Mirrors(cs: seq<CT.Content>, ks: seq<CT.Content>) {
    (forall id :: Known(ks, id) <==> Known(cs, id)) && LastSpoken(ks) == KeptLast(LastSpoken(cs))
  }

  lemma MirrorsMore(cs: seq<CT.Content>, ks: seq<CT.Content>, c: CT.Content)
    requires Mirrors(cs, ks)
    ensures Mirrors(cs + [c], ks + Kept(c))
  {
    hide Known, LastSpoken;
    KnownMore(cs, c);
    SpokenMore(cs, c);
    if IsSpoken(c) {
      var k := Kept(c)[0];
      assert Kept(c) == [k];
      KnownMore(ks, k);
      SpokenMore(ks, k);
    } else {
      assert ks + [] == ks;
    }
  }

  lemma {:induction false} KeptMirrors(cs: seq<CT.Content>)
    ensures Mirrors(cs, AllKept(cs))
  {
    if cs != [] {
      var front, c := cs[..|cs| - 1], Last(cs);
      assert front + [c] == cs;
      KeptMirrors(front);
      hide *;
      KeptMore(front, c);
      MirrorsMore(front, AllKept(front), c);
    }
  }

  /** Runs are seen in what is kept. */
  lemma {:induction false} KeptInRuns(cs: seq<CT.Content>)
    ensures InRuns(AllKept(cs)) <==> InRuns(cs)
  {
    if cs != [] {
      var front, c := cs[..|cs| - 1], Last(cs);
      assert front + [c] == cs;
      hide *;
      KeptInRuns(front);
      KeptMore(front, c);
      RunsMore(front, c);
      KeptOne(c);
      if IsSpoken(c) {
        KeptMirrors(front);
        RunsMore(AllKept(front), Kept(c)[0]);
        KeptInPlace(front, AllKept(front), c);
      } else {
        assert AllKept(front) + [] == AllKept(front);
        MutePlaced(front, c);
      }
    }
  }

  lemma KeptOne(c: CT.Content)
    ensures if IsSpoken(c) then |Kept(c)| == 1 && Kept(c) == [Kept(c)[0]] else Kept(c) == []
  {
  }

  lemma MutePlaced(cs: seq<CT.Content>, c: CT.Content)
    requires !IsSpoken(c)
    ensures InPlace(cs, c)
  {
  }

  // ----- Whatever is replayed comes in runs -----

  ghost predicate HasThought(items: seq<OutputItem>, id: string) {
    exists k | 0 <= k < |items| :: items[k].ReasoningItem? && items[k].id == id
  }

  lemma {:induction false} RunAppended(cs: seq<CT.Content>, id: string, texts: seq<string>)
    requires InRuns(cs) && id != "" && !Known(cs, id)
    ensures var r := cs + TextsOf(id, CT.Reasoning, texts);
            && InRuns(r) && (forall x :: Known(r, x) <==> Known(cs, x) || (texts != [] && x == id))
            && (texts != [] ==> LastSpoken(r) == Some(TextOf(id, CT.Reasoning, texts[|texts| - 1])))
    decreases texts
  {
    if texts == [] {
      assert cs + [] == cs;
    } else {
      var n := |texts| - 1;
      var r, c := cs + TextsOf(id, CT.Reasoning, texts[..n]), TextOf(id, CT.Reasoning, texts[n]);
      RunAppended(cs, id, texts[..n]);
      assert cs + TextsOf(id, CT.Reasoning, texts) == r + [c];
      hide InRuns, Known, LastSpoken, TextsOf;
      RunsMore(r, c);
      KnownMore(r, c);
      SpokenMore(r, c);
    }
  }

  lemma SealAppended(cs: seq<CT.Content>, id: string, data: string)
    requires InRuns(cs) && id != "" && data != ""
    requires Known(cs, id) ==> LastSpoken(cs).Some? && IsSummary(LastSpoken(cs).value) && LastSpoken(cs).value.id == id
    ensures var r := cs + [SealOf(id, data)]; InRuns(r) && forall x :: Known(r, x) <==> Known(cs, x) || x == id
  {
    hide InRuns, Known, LastSpoken;
    RunsMore(cs, SealOf(id, data));
    KnownMore(cs, SealOf(id, data));
  }

  lemma {:induction false} OthersAppended(cs: seq<CT.Content>, ds: seq<CT.Content>)
    requires InRuns(cs) && forall k | 0 <= k < |ds| :: !IsThought(ds[k])
    ensures InRuns(cs + ds) && forall x :: Known(cs + ds, x) <==> Known(cs, x)
    decreases ds
  {
    if ds == [] {
      assert cs + [] == cs;
    } else {
      var n := |ds| - 1;
      OthersAppended(cs, ds[..n]);
      assert cs + ds == (cs + ds[..n]) + [ds[n]];
      hide InRuns, Known;
      RunsMore(cs + ds[..n], ds[n]);
      KnownMore(cs + ds[..n], ds[n]);
    }
  }

  lemma {:induction false} Unthought(id: string, phase: CT.Phase, texts: seq<string>)
    requires !phase.Reasoning?
    ensures forall k | 0 <= k < |TextsOf(id, phase, texts)| :: !IsThought(TextsOf(id, phase, texts)[k])
    decreases texts
  {
    if texts != [] {
      Unthought(id, phase, texts[..|texts| - 1]);
    }
  }

  lemma ItemAppended(cs: seq<CT.Content>, item: OutputItem)
    requires InRuns(cs) && Solid(item) && (item.ReasoningItem? ==> !Known(cs, item.id))
    ensures var r := cs + ReplayedItem(item);
            InRuns(r) && forall x :: Known(r, x) ==> Known(cs, x) || (item.ReasoningItem? && x == item.id)
  {
    hide InRuns, Known, LastSpoken, TextsOf;
    match item
    case MessageItem(_, _, finalAnswer, parts) =>
      Unthought("", PhaseOf(finalAnswer), parts);
      OthersAppended(cs, ReplayedItem(item));
    case CallItem(_, _, _, _, _) =>
      OthersAppended(cs, ReplayedItem(item));
    case ReasoningItem(id, _, summary, encrypted) =>
      var texts := TextsOf(id, CT.Reasoning, summary);
      RunAppended(cs, id, summary);
      if encrypted == "" {
        assert texts + [] == texts;
      } else {
        SealAppended(cs + texts, id, encrypted);
        AppendAssociates(cs, texts, [SealOf(id, encrypted)]);
      }
  }

  lemma {:induction false} ReplayedInRuns(items: seq<OutputItem>)
    requires Distinct(items)
    ensures InRuns(Replayed(items)) && forall id :: Known(Replayed(items), id) ==> HasThought(items, id)
  {
    hide *;
    if items == [] {
      NothingReplayed();
    } else {
      var front, item := items[..|items| - 1], items[|items| - 1];
      assert front + [item] == items;
      DistinctFront(front, item);
      ReplayedInRuns(front);
      ReplayedMore(front, item);
      ItemAppended(Replayed(front), item);
    }
  }

  lemma NothingReplayed()
    ensures InRuns(Replayed([])) && forall id :: !Known(Replayed([]), id)
  {
    assert Replayed([]) == [];
  }

  lemma DistinctFront(front: seq<OutputItem>, item: OutputItem)
    requires Distinct(front + [item])
    ensures Distinct(front) && Solid(item) && (item.ReasoningItem? ==> !HasThought(front, item.id))
    ensures forall id :: HasThought(front, id) || (item.ReasoningItem? && id == item.id) ==> HasThought(front + [item], id)
  {
    hide Solid;
    var items := front + [item];
    assert items[|front|] == item && forall k | 0 <= k < |front| :: items[k] == front[k];
    forall id | HasThought(front, id) ensures HasThought(items, id) {
      var k :| 0 <= k < |front| && front[k].ReasoningItem? && front[k].id == id;
      assert items[k].ReasoningItem? && items[k].id == id;
    }
  }

  // ----- Runs come back as they were -----

  /** What the conversion of contents in runs is replayed as so far, and where the open run is. */
  ghost predicate Follows(responseId: string, a: Assembly, cs: seq<CT.Content>) {
    && a.Valid()
    && Replayed(Shown(responseId, a)) == AllKept(cs)
    && (forall id :: id in a.byId <==> Known(cs, id))
    && (forall id <- a.byId.Keys :: a.output[a.byId[id]].id == id)
    && var l := LastSpoken(cs);
       l.Some? && IsSummary(l.value) ==>
         var k := |a.output| - 1;
         a.message.None? && k >= 0 && l.value.id in a.byId && a.byId[l.value.id] == k && a.output[k].encrypted == ""
  }

  lemma ReplayedLonger(items: seq<OutputItem>, item: OutputItem, more: seq<CT.Content>)
    requires items != [] && ReplayedItem(item) == ReplayedItem(items[|items| - 1]) + more
    ensures Replayed(items[|items| - 1 := item]) == Replayed(items) + more
  {
    var n := |items| - 1;
    assert items[n := item][..n] == items[..n];
    AppendAssociates(Replayed(items[..n]), ReplayedItem(items[n]), more);
    hide ReplayedItem;
  }

  lemma TextFollows(responseId: string, a: Assembly, cs: seq<CT.Content>, c: CT.Content)
    requires Follows(responseId, a, cs) && IsText(c)
    ensures Follows(responseId, AddText(responseId, a, c.id, IsFinalAnswer(c.phase), c.body.text), cs + [c])
  {
    hide AddText, Replayed, Known, LastSpoken, AllKept, Shown;
    KeptMore(cs, c);
    KnownMore(cs, c);
    SpokenMore(cs, c);
    TextShown(responseId, a, c.id, IsFinalAnswer(c.phase), c.body.text);
  }

  lemma TextShown(responseId: string, a: Assembly, id: string, finalAnswer: bool, text: string)
    requires a.Valid()
    ensures var r := AddText(responseId, a, id, finalAnswer, text);
            && r.byId == a.byId && a.output <= r.output
            && Replayed(Shown(responseId, r)) == Replayed(Shown(responseId, a)) + [TextOf("", PhaseOf(finalAnswer), text)]
  {
    hide SyntheticId, Replayed;
    var items, r := Shown(responseId, a), AddText(responseId, a, id, finalAnswer, text);
    if Open(a, id, finalAnswer) {
      var m := a.message.value;
      var m' := m.(parts := m.parts + [text]);
      TextsMore("", PhaseOf(finalAnswer), m.parts, text);
      var k := |items| - 1;
      assert Shown(responseId, r) == items[k := Identified(m', responseId, |a.output|)];
      hide TextsOf;
      ReplayedLonger(items, Identified(m', responseId, |a.output|), [TextOf("", PhaseOf(finalAnswer), text)]);
    } else {
      var m := MessageItem(id, true, finalAnswer, [text]);
      assert [] + [text] == [text];
      TextsMore("", PhaseOf(finalAnswer), [], text);
      assert Shown(responseId, r) == items + [Identified(m, responseId, |items|)];
      ReplayedMore(items, Identified(m, responseId, |items|));
    }
  }

  lemma CallFollows(responseId: string, a: Assembly, cs: seq<CT.Content>, c: CT.Content)
    requires Follows(responseId, a, cs) && c.body.ToolUse?
    ensures Follows(responseId, Add(responseId, a, c), cs + [c])
  {
    hide SyntheticId, Replayed, Known, LastSpoken, AllKept;
    KeptMore(cs, c);
    KnownMore(cs, c);
    SpokenMore(cs, c);
    var items := Shown(responseId, a);
    var itemId := if c.id == "" then SyntheticId("fc", responseId, |items|) else c.id;
    var call := CallItem(itemId, true, c.body.callId, c.body.name, CT.TextualInput(c.body.inputs));
    ReplayedMore(items, call);
    assert Shown(responseId, Add(responseId, a, c)) == items + [call];
  }

  lemma ShownFlushed(responseId: string, a: Assembly)
    requires a.Valid()
    ensures var f := FlushMessage(responseId, a);
            a.output <= f.output == Shown(responseId, a) == Shown(responseId, f) && f.message.None? && f.byId == a.byId && f.reasoning == a.reasoning
  {
  }

  function ItemOf(c: CT.Content): OutputItem
    requires IsThought(c)
  {
    if IsSummary(c) then ReasoningItem(c.id, true, [c.body.text], "") else ReasoningItem(c.id, true, [], c.body.data)
  }

  lemma NewThoughtAdded(responseId: string, a: Assembly, c: CT.Content)
    requires a.Valid() && IsThought(c) && c.id != "" && c.id !in a.byId
    ensures var items := Shown(responseId, a);
            Add(responseId, a, c) == Assembly(items + [ItemOf(c)], None, Some(|items|), a.byId[c.id := |items|])
  {
    hide SyntheticId;
    if IsSummary(c) {
      assert [] + [c.body.text] == [c.body.text];
    }
  }

  /** A thought of a new id is an item of its own. */
  lemma NewThoughtFollows(responseId: string, a: Assembly, cs: seq<CT.Content>, c: CT.Content)
    requires Follows(responseId, a, cs) && IsThought(c) && InPlace(cs, c) && !Known(cs, c.id)
    ensures Follows(responseId, Add(responseId, a, c), cs + [c])
  {
    hide Replayed, Known, LastSpoken, AllKept, FlushMessage, Shown, Add;
    NewThoughtAdded(responseId, a, c);
    ShownFlushed(responseId, a);
    KeptMore(cs, c);
    KnownMore(cs, c);
    SpokenMore(cs, c);
    ReplayedMore(Shown(responseId, a), ItemOf(c));
    ThoughtReplayed(c, ItemOf(c));
    UnflushedShown(responseId, Add(responseId, a, c));
  }

  lemma UnflushedShown(responseId: string, a: Assembly)
    requires a.Valid() && a.message.None?
    ensures Shown(responseId, a) == a.output
  {
  }

  lemma JoinedThoughtAdded(responseId: string, a: Assembly, c: CT.Content)
    requires a.Valid() && IsThought(c) && c.id != "" && c.id in a.byId && a.message.None?
    ensures var k := a.byId[c.id];
            var item := if IsSummary(c) then a.output[k].(summary := a.output[k].summary + [c.body.text]) else a.output[k].(encrypted := c.body.data);
            Add(responseId, a, c) == a.(output := a.output[k := item], reasoning := Some(k))
  {
  }

  /** A thought that continues the open run extends its item. */
  lemma JoinedThoughtFollows(responseId: string, a: Assembly, cs: seq<CT.Content>, c: CT.Content)
    requires Follows(responseId, a, cs) && IsThought(c) && InPlace(cs, c) && Known(cs, c.id)
    ensures Follows(responseId, Add(responseId, a, c), cs + [c])
  {
    hide Replayed, Known, LastSpoken, AllKept, FlushMessage, Shown, Add;
    var k := |a.output| - 1;
    var was := a.output[k];
    var item := if IsSummary(c) then was.(summary := was.summary + [c.body.text]) else was.(encrypted := c.body.data);
    JoinedThoughtAdded(responseId, a, c);
    KeptMore(cs, c);
    KnownMore(cs, c);
    SpokenMore(cs, c);
    UnflushedShown(responseId, a);
    UnflushedShown(responseId, Add(responseId, a, c));
    ThoughtExtends(was, item, c);
    ReplayedLonger(a.output, item, Kept(c));
  }

  lemma ThoughtExtends(was: OutputItem, item: OutputItem, c: CT.Content)
    requires IsThought(c) && (IsSeal(c) ==> c.body.data != "") && was.ReasoningItem? && was.encrypted == "" && was.id == c.id
    requires item == if IsSummary(c) then was.(summary := was.summary + [c.body.text]) else was.(encrypted := c.body.data)
    ensures ReplayedItem(item) == ReplayedItem(was) + Kept(c)
  {
    if IsSummary(c) {
      TextsMore(c.id, CT.Reasoning, was.summary, c.body.text);
    }
  }

  lemma ThoughtReplayed(c: CT.Content, item: OutputItem)
    requires IsThought(c) && (IsSeal(c) ==> c.body.data != "")
    requires item == ItemOf(c)
    ensures ReplayedItem(item) == Kept(c)
  {
    assert TextsOf(c.id, CT.Reasoning, []) == [];
    if IsSummary(c) {
      TextsMore(c.id, CT.Reasoning, [], c.body.text);
      assert [] + [c.body.text] == [c.body.text];
    }
  }

  lemma MuteFollows(responseId: string, a: Assembly, cs: seq<CT.Content>, c: CT.Content)
    requires Follows(responseId, a, cs) && !IsSpoken(c)
    ensures Follows(responseId, Add(responseId, a, c), cs + [c])
  {
    hide Replayed, Known, LastSpoken, AllKept, Shown;
    KeptMore(cs, c);
    KnownMore(cs, c);
    SpokenMore(cs, c);
    assert AllKept(cs) + [] == AllKept(cs);
  }

  lemma {:induction false} RunsFollow(responseId: string, cs: seq<CT.Content>)
    requires InRuns(cs)
    ensures Follows(responseId, Assembled(responseId, cs), cs)
  {
    if cs != [] {
      var front, c := cs[..|cs| - 1], Last(cs);
      assert front + [c] == cs;
      RunsFollow(responseId, front);
      var a := Assembled(responseId, front);
      hide Follows, Known, InPlace, LastSpoken, Add;
      if IsText(c) {
        TextFollows(responseId, a, front, c);
        TextAdded(responseId, a, c);
      } else if c.body.ToolUse? {
        CallFollows(responseId, a, front, c);
      } else if !IsThought(c) {
        MuteFollows(responseId, a, front, c);
      } else if Known(front, c.id) {
        JoinedThoughtFollows(responseId, a, front, c);
      } else {
        NewThoughtFollows(responseId, a, front, c);
      }
    }
  }

  lemma TextAdded(responseId: string, a: Assembly, c: CT.Content)
    requires a.Valid() && IsText(c)
    ensures Add(responseId, a, c) == AddText(responseId, a, c.id, IsFinalAnswer(c.phase), c.body.text)
  {
  }

  // ----- Seals -----

  lemma {:induction false} KeptSealed(cs: seq<CT.Content>)
    requires Sealed(AllKept(cs))
    ensures Sealed(cs)
  {
    if cs != [] {
      var front, c := cs[..|cs| - 1], Last(cs);
      assert AllKept(cs) == AllKept(front) + Kept(c);
      assert Sealed(AllKept(front)) by {
        forall k | 0 <= k < |AllKept(front)| ensures AllKept(front)[k] == AllKept(cs)[k] {
        }
      }
      KeptSealed(front);
      if IsSeal(c) {
        assert AllKept(cs)[|AllKept(front)|] == Kept(c)[0];
      }
    }
  }

  lemma {:induction false} ReplayedSealed(items: seq<OutputItem>)
    ensures Sealed(Replayed(items))
  {
    if items != [] {
      var item := items[|items| - 1];
      ReplayedSealed(items[..|items| - 1]);
      if item.MessageItem? {
        NoSeals("", PhaseOf(item.finalAnswer), item.parts);
      } else if item.ReasoningItem? {
        NoSeals(item.id, CT.Reasoning, item.summary);
      }
    }
  }

  lemma ProducedDistinct(responseId: string, a: Assembly)
    requires Produced(a)
    ensures Distinct(Shown(responseId, a))
  {
    FlushProduced(responseId, a);
    hide FlushMessage;
  }

  lemma {:induction false} NothingKept(responseId: string, cs: seq<CT.Content>)
    requires AllKept(cs) == []
    ensures Assembled(responseId, cs) == NOTHING && InRuns(cs)
  {
    if cs != [] {
      assert Kept(Last(cs)) == [];
      NothingKept(responseId, cs[..|cs| - 1]);
    }
  }

  /**
   Replay round trip: contents that are sent as output items and come back as input items are one message of the model
   with the same contents in the same order, but for what is forgotten, if and only if reasoning comes in runs.
   */
  lemma ReplayRoundTrip(responseId: string, cs: seq<CT.Content>)
    ensures MessagesOf(AsInputs(Converted(responseId, cs))) == (if AllKept(cs) == [] then [] else [RoleMessage(Model, AllKept(cs))])
       <==> InRuns(cs)
  {
    var items := Converted(responseId, cs);
    OneMessage(items);
    assert items == Shown(responseId, Assembled(responseId, cs));
    if AllKept(cs) == [] {
      NothingKept(responseId, cs);
    } else if InRuns(cs) {
      RunsFollow(responseId, cs);
      assert items != [];
    } else if MessagesOf(AsInputs(items)) == [RoleMessage(Model, AllKept(cs))] {
      ReplayedSealed(items);
      KeptSealed(cs);
      AssembledProduced(responseId, cs);
      ProducedDistinct(responseId, Assembled(responseId, cs));
      ReplayedInRuns(items);
      KeptInRuns(cs);
      assert false;
    }
  }

  // ----- What joining adjacent messages keeps, for any input -----

  /** What is said, and by whom, in order. */
  function Spoken(ms: seq<RoleMessage>): seq<(Role, CT.Content)> {
    if ms == [] then [] else Spoken(ms[..|ms| - 1]) + SpokenBy(ms[|ms| - 1].role, ms[|ms| - 1].contents)
  }

  function SpokenBy(role: Role, cs: seq<CT.Content>): (r: seq<(Role, CT.Content)>)
    ensures |r| == |cs|
  {
    seq(|cs|, k requires 0 <= k < |cs| => (role, cs[k]))
  }

  /** A content without id, index or signature. */
  function Bare(phase: CT.Phase, body: CT.Body): CT.Content {
    CT.Content("", None, phase, "", body)
  }

  /**
   What an input item says. Developers speak for the system, assistants for the model, and everybody else is a user, who
   also brings the results of calls.
   */
  function Said(i: InputItem): seq<(Role, CT.Content)> {
    match i
    case InputMessage(role, finalAnswer, content) =>
      var phase := if finalAnswer then CT.Outcome else CT.Normal;
      var who := if role == "developer" then System else if role == "system" then System else if role == "assistant" then Model else User;
      (match content
       case Plain(text) => [(who, Bare(phase, CT.Text(text)))]
       case Parts(parts) => SaidParts(who, phase, parts))
    case InputReasoning(id, summary, raw, encrypted) =>
      SaidThoughts(id, summary) + SaidThoughts(id, raw)
      + (if encrypted.Some? then [(Model, CT.Content(id, None, CT.Reasoning, "", CT.Opaque(encrypted.value)))] else [])
    case InputCall(callId, name, arguments) => [(Model, Bare(CT.Normal, CT.ToolUse(callId, name, [arguments])))]
    case InputCallOutput(callId, Whole(text)) => [(User, Bare(CT.Normal, CT.ToolResult(callId, text)))]
    case InputCallOutput(callId, Pieces(texts)) => [(User, Bare(CT.Normal, CT.ToolResult(callId, CT.TextualInput(texts))))]
    case UnknownInput => []
  }

  function SaidParts(who: Role, phase: CT.Phase, parts: seq<InputPart>): seq<(Role, CT.Content)> {
    if parts == [] then [] else
    SaidParts(who, phase, parts[..|parts| - 1]) +
    match parts[|parts| - 1]
    case TextPart(text) => [(who, Bare(phase, CT.Text(text)))]
    case ImagePart(url) => [(who, Bare(phase, CT.Image(url)))]
    case UnknownPart => []
  }

  function SaidThoughts(id: string, texts: seq<string>): seq<(Role, CT.Content)> {
    if texts == [] then [] else
    SaidThoughts(id, texts[..|texts| - 1]) + [(Model, CT.Content(id, None, CT.Reasoning, "", CT.Text(texts[|texts| - 1])))]
  }

  function AllSaid(items: seq<InputItem>): seq<(Role, CT.Content)> {
    if items == [] then [] else AllSaid(items[..|items| - 1]) + Said(items[|items| - 1])
  }

  lemma SpokenByMore(role: Role, a: seq<CT.Content>, b: seq<CT.Content>)
    ensures SpokenBy(role, a + b) == SpokenBy(role, a) + SpokenBy(role, b)
  {
  }

  lemma {:induction false} PartsSaid(who: Role, phase: CT.Phase, parts: seq<InputPart>)
    ensures SpokenBy(who, PartContents(phase, parts)) == SaidParts(who, phase, parts)
  {
    if parts != [] {
      var front, p := parts[..|parts| - 1], parts[|parts| - 1];
      PartsSaid(who, phase, front);
      var last := match p case TextPart(text) => [TextOf("", phase, text)]
                          case ImagePart(url) => [CT.Content("", None, phase, "", CT.Image(url))]
                          case UnknownPart => [];
      SpokenByMore(who, PartContents(phase, front), last);
    }
  }

  lemma {:induction false} ThoughtsSaid(id: string, texts: seq<string>)
    ensures SpokenBy(Model, TextsOf(id, CT.Reasoning, texts)) == SaidThoughts(id, texts)
  {
    if texts != [] {
      var front := texts[..|texts| - 1];
      ThoughtsSaid(id, front);
      SpokenByMore(Model, TextsOf(id, CT.Reasoning, front), [TextOf(id, CT.Reasoning, texts[|texts| - 1])]);
    }
  }

  lemma ItemSaid(i: InputItem)
    ensures var m := MessageOf(i); (if m.Some? then SpokenBy(m.value.role, m.value.contents) else []) == Said(i)
  {
    match i
    case InputMessage(role, finalAnswer, content) =>
      if content.Parts? {
        PartsSaid(RoleOf(role), PhaseOf(finalAnswer), content.parts);
      }
    case InputReasoning(id, summary, raw, encrypted) =>
      ThoughtsSaid(id, summary);
      ThoughtsSaid(id, raw);
      var a, b := TextsOf(id, CT.Reasoning, summary), TextsOf(id, CT.Reasoning, raw);
      var c := if encrypted.Some? then [SealOf(id, encrypted.value)] else [];
      SpokenByMore(Model, a, b);
      SpokenByMore(Model, a + b, c);
    case InputCallOutput(_, output) =>
      if output.Pieces? {
        JoinedIs(output.texts);
      }
    case _ =>
  }

  lemma {:induction false} JoinedIs(texts: seq<string>)
    ensures Joined(texts) == CT.TextualInput(texts)
  {
    if texts != [] {
      JoinedIs(texts[..|texts| - 1]);
      InputMore(texts[..|texts| - 1], texts[|texts| - 1]);
      assert texts[..|texts| - 1] + [texts[|texts| - 1]] == texts;
    }
  }

  lemma {:induction false} InputMore(texts: seq<string>, text: string)
    ensures CT.TextualInput(texts + [text]) == CT.TextualInput(texts) + text
    decreases texts
  {
    if texts == [] {
      assert (texts + [text])[1..] == [] && text + "" == text;
    } else {
      assert (texts + [text])[1..] == texts[1..] + [text];
      InputMore(texts[1..], text);
    }
  }

  lemma JoiningKeeps(ms: seq<RoleMessage>, m: RoleMessage)
    ensures Spoken(AppendAdjacent(ms, Some(m))) == Spoken(ms) + SpokenBy(m.role, m.contents)
  {
    var r, n := AppendAdjacent(ms, Some(m)), |ms| - 1;
    if ms != [] && ms[n].role == m.role {
      assert r[..n] == ms[..n];
      SpokenByMore(m.role, ms[n].contents, m.contents);
      AppendAssociates(Spoken(ms[..n]), SpokenBy(m.role, ms[n].contents), SpokenBy(m.role, m.contents));
    } else {
      assert r[..|ms|] == ms;
    }
  }

  /** Roles alternate, and everything the items say is said in order, by whom they say it. */
  lemma {:induction false} MessagesAlternate(items: seq<InputItem>)
    ensures forall k | 0 < k < |MessagesOf(items)| :: MessagesOf(items)[k - 1].role != MessagesOf(items)[k].role
    ensures Spoken(MessagesOf(items)) == AllSaid(items)
  {
    if items != [] {
      var front, i := items[..|items| - 1], items[|items| - 1];
      var m := MessageOf(i);
      MessagesAlternate(front);
      ItemSaid(i);
      hide MessageOf, Spoken, Said;
      if m.Some? {
        JoiningKeeps(MessagesOf(front), m.value);
      } else {
        assert AllSaid(front) + [] == AllSaid(front);
      }
    }
  }

  /** Instructions are the system's and come first; an input that is one text is the user's. */
  lemma InputSaid(instructions: Option<string>, input: Input)
    ensures Spoken(MessagesOf(AllItems(instructions, input))) ==
            (if instructions.Some? then [(System, Bare(CT.Normal, CT.Text(instructions.value)))] else []) +
            match input
            case InputText(text) => [(User, Bare(CT.Normal, CT.Text(text)))]
            case InputItems(items) => AllSaid(items)
  {
    MessagesAlternate(AllItems(instructions, input));
    var first := if instructions.Some? then [InputMessage("system", false, Plain(instructions.value))] else [];
    match input
    case InputText(text) =>
      OneSaid(InputMessage("user", false, Plain(text)));
      SaidInTurn(first, [InputMessage("user", false, Plain(text))]);
      FirstSaid(instructions);
    case InputItems(items) =>
      SaidInTurn(first, items);
      FirstSaid(instructions);
  }

  lemma FirstSaid(instructions: Option<string>)
    ensures AllSaid(if instructions.Some? then [InputMessage("system", false, Plain(instructions.value))] else []) ==
            if instructions.Some? then [(System, Bare(CT.Normal, CT.Text(instructions.value)))] else []
  {
    if instructions.Some? {
      OneSaid(InputMessage("system", false, Plain(instructions.value)));
    }
  }

  lemma OneSaid(i: InputItem)
    ensures AllSaid([i]) == Said(i)
  {
    assert [i][..0] == [] && [] + Said(i) == Said(i);
    hide Said;
  }

  lemma {:induction false} SaidInTurn(a: seq<InputItem>, b: seq<InputItem>)
    ensures AllSaid(a + b) == AllSaid(a) + AllSaid(b)
    decreases b
  {
    hide Said;
    if b == [] {
      assert a + b == a && AllSaid(a) + [] == AllSaid(a);
    } else {
      var n := |b| - 1;
      assert (a + b)[..|a + b| - 1] == a + b[..n];
      SaidInTurn(a, b[..n]);
    }
  }
}
