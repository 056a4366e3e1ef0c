/** However contents are grouped into items by the stream server, the items say what the contents say, in order. */
module GroupingMeaning {
  import opened Basics
  import opened ResponsesTypes
  import opened ItemGrouping
  import CT = ChatTypes

  datatype Mark = Said(finalAnswer: bool, text: string) | Thought(text: string) | Sealed(data: string) | Called(callId: string, name: string, arguments: string)

  function Sayings(finalAnswer: bool, parts: seq<string>): seq<Mark> {
    if parts == [] then [] else Sayings(finalAnswer, parts[..|parts| - 1]) + [Said(finalAnswer, parts[|parts| - 1])]
  }

  function Thoughts(summary: seq<string>): seq<Mark> {
    if summary == [] then [] else Thoughts(summary[..|summary| - 1]) + [Thought(summary[|summary| - 1])]
  }

  function MarksOf(item: OutputItem): seq<Mark> {
    match item
    case MessageItem(_, _, finalAnswer, parts) => Sayings(finalAnswer, parts)
    case ReasoningItem(_, _, summary, encrypted) => Thoughts(summary) + if encrypted == "" then [] else [Sealed(encrypted)]
    case CallItem(_, _, callId, name, arguments) => [Called(callId, name, arguments)]
  }

  function Marks(items: seq<OutputItem>): seq<Mark> {
    if items == [] then [] else Marks(items[..|items| - 1]) + MarksOf(items[|items| - 1])
  }

  /** Text is of the final answer if its phase is the outcome; reasoning is thought, or sealed; other opaque data is dropped. */
  function Told(c: CT.Content): seq<Mark> {
    match c.body
    case Text(text) => if c.phase == CT.Reasoning then [Thought(text)] else [Said(c.phase == CT.Outcome, text)]
    case Opaque(data) => if c.phase == CT.Reasoning && data != "" then [Sealed(data)] else []
    case ToolUse(callId, name, inputs) => [Called(callId, name, CT.TextualInput(inputs))]
    case _ => []
  }

  function AllTold(cs: seq<CT.Content>): seq<Mark> {
    if cs == [] then [] else AllTold(cs[..|cs| - 1]) + Told(cs[|cs| - 1])
  }

  /** What is held back is not sealed. */
  ghost predicate Unsealed(s: Served) {
    s.open && s.items != [] && s.items[|s.items| - 1].ReasoningItem? ==> s.items[|s.items| - 1].encrypted == ""
  }

  lemma MarksMore(items: seq<OutputItem>, item: OutputItem)
    ensures Marks(items + [item]) == Marks(items) + MarksOf(item)
  {
    assert (items + [item])[..|items|] == items;
  }

  lemma SayingsMore(finalAnswer: bool, parts: seq<string>, text: string)
    ensures Sayings(finalAnswer, parts + [text]) == Sayings(finalAnswer, parts) + [Said(finalAnswer, text)]
    ensures Thoughts(parts + [text]) == Thoughts(parts) + [Thought(text)]
  {
    assert (parts + [text])[..|parts|] == parts;
  }

  /** The last item goes on with more. */
  lemma LastMore(items: seq<OutputItem>, item: OutputItem, more: seq<Mark>)
    requires items != [] && MarksOf(item) == MarksOf(items[|items| - 1]) + more
    ensures Marks(items[|items| - 1 := item]) == Marks(items) + more
  {
    hide MarksOf;
    var front, last := items[..|items| - 1], items[|items| - 1];
    assert front + [last] == items && items[|items| - 1 := item] == front + [item];
    MarksMore(front, last);
    MarksMore(front, item);
    AppendAssociates(Marks(front), MarksOf(last), more);
  }

  lemma TextTold(responseId: string, s: Served, c: CT.Content)
    requires IsText(c)
    ensures Marks(ServeNext(responseId, s, c).items) == Marks(s.items) + Told(c) && Unsealed(ServeNext(responseId, s, c))
  {
    hide SyntheticId, Marks;
    var n, r := |s.items|, ServeNext(responseId, s, c);
    if |r.items| == n {
      var item := s.items[n - 1];
      SayingsMore(item.finalAnswer, item.parts, c.body.text);
      LastMore(s.items, item.(parts := item.parts + [c.body.text]), Told(c));
    } else {
      MarksMore(s.items, r.items[n]);
      SayingsMore(IsFinalAnswer(c.phase), [], c.body.text);
      assert [] + [c.body.text] == [c.body.text] && [] + [Said(IsFinalAnswer(c.phase), c.body.text)] == Told(c);
    }
  }

  lemma OpenThoughts(item: OutputItem)
    requires item.ReasoningItem? && item.encrypted == ""
    ensures MarksOf(item) == Thoughts(item.summary)
  {
    assert Thoughts(item.summary) + [] == Thoughts(item.summary);
  }

  lemma SummaryTold(responseId: string, s: Served, c: CT.Content)
    requires IsSummary(c) && Unsealed(s)
    ensures Marks(ServeNext(responseId, s, c).items) == Marks(s.items) + Told(c) && Unsealed(ServeNext(responseId, s, c))
  {
    hide SyntheticId, Marks;
    var n, r := |s.items|, ServeNext(responseId, s, c);
    if |r.items| == n {
      var item := s.items[n - 1];
      SayingsMore(false, item.summary, c.body.text);
      OpenThoughts(item);
      OpenThoughts(item.(summary := item.summary + [c.body.text]));
      hide MarksOf, Thoughts;
      LastMore(s.items, item.(summary := item.summary + [c.body.text]), Told(c));
    } else {
      MarksMore(s.items, r.items[n]);
      SayingsMore(false, [], c.body.text);
      assert [] + [c.body.text] == [c.body.text] && [] + [Thought(c.body.text)] + [] == Told(c);
    }
  }

  lemma SealTold(responseId: string, s: Served, c: CT.Content)
    requires IsSeal(c) && Unsealed(s)
    ensures Marks(ServeNext(responseId, s, c).items) == Marks(s.items) + Told(c) && Unsealed(ServeNext(responseId, s, c))
  {
    hide SyntheticId, Marks;
    var n, r := |s.items|, ServeNext(responseId, s, c);
    if |r.items| == n {
      var item := s.items[n - 1];
      OpenThoughts(item);
      if c.body.data == "" {
        assert item.(encrypted := c.body.data) == item && MarksOf(item) + [] == MarksOf(item);
      }
      LastMore(s.items, item.(encrypted := c.body.data), Told(c));
    } else {
      MarksMore(s.items, r.items[n]);
      assert Thoughts([]) == [] && [] + Told(c) == Told(c);
    }
  }

  lemma OtherTold(responseId: string, s: Served, c: CT.Content)
    requires !IsText(c) && !IsThought(c)
    ensures Marks(ServeNext(responseId, s, c).items) == Marks(s.items) + Told(c) && Unsealed(ServeNext(responseId, s, c))
  {
    hide SyntheticId, Marks;
    var r := ServeNext(responseId, s, c);
    if |r.items| > |s.items| {
      MarksMore(s.items, r.items[|s.items|]);
    } else {
      assert Marks(s.items) + [] == Marks(s.items);
    }
  }

  lemma {:induction false} ServedTells(responseId: string, cs: seq<CT.Content>)
    ensures Marks(Serve(responseId, cs).items) == AllTold(cs) && Unsealed(Serve(responseId, cs))
  {
    if cs != [] {
      var front, c := cs[..|cs| - 1], cs[|cs| - 1];
      var s := Serve(responseId, front);
      ServedTells(responseId, front);
      hide ServeNext, Told, Marks, Unsealed;
      if IsText(c) {
        TextTold(responseId, s, c);
      } else if IsSummary(c) {
        SummaryTold(responseId, s, c);
      } else if IsSeal(c) {
        SealTold(responseId, s, c);
      } else {
        OtherTold(responseId, s, c);
      }
    }
  }

  // ----- Ids -----

  function KindOf(item: OutputItem): string {
    match item
    case MessageItem(_, _, _, _) => "msg_"
    case ReasoningItem(_, _, _, _) => "rs_"
    case CallItem(_, _, _, _, _) => "fc_"
  }

  /** The id that is made up for an item of a kind at a place. */
  function MadeUp(kind: string, responseId: string, k: nat): string {
    kind + responseId + "_" + Digits(k)
  }

  ghost predicate NamedAt(responseId: string, cs: seq<CT.Content>, items: seq<OutputItem>, k: nat)
    requires k < |items|
  {
    (exists j | 0 <= j < |cs| :: cs[j].id != "" && items[k].id == cs[j].id) || items[k].id == MadeUp(KindOf(items[k]), responseId, k)
  }

  /** A new item has the given id, or one made up. Other items keep theirs. */
  ghost predicate GoesOn(responseId: string, items: seq<OutputItem>, id: string, r: seq<OutputItem>) {
    && |items| <= |r| <= |items| + 1
    && (|r| > |items| ==> r[|items|].id == if id != "" then id else MadeUp(KindOf(r[|items|]), responseId, |items|))
    && forall k | 0 <= k < |items| :: r[k].id == items[k].id && KindOf(r[k]) == KindOf(items[k])
  }

  lemma ItemAdded(responseId: string, items: seq<OutputItem>, id: string, prefix: string, item: OutputItem)
    requires item.id == GivenOr(id, prefix, responseId, |items|) && prefix + "_" == KindOf(item)
    ensures GoesOn(responseId, items, id, items + [item])
  {
    hide Digits, KindOf;
  }

  lemma ItemKept(responseId: string, items: seq<OutputItem>, id: string, item: OutputItem)
    requires items != [] && item.id == items[|items| - 1].id && KindOf(item) == KindOf(items[|items| - 1])
    ensures GoesOn(responseId, items, id, items[|items| - 1 := item]) && GoesOn(responseId, items, id, items)
  {
    hide MadeUp, KindOf;
  }

  lemma NextNamed(responseId: string, s: Served, c: CT.Content)
    ensures GoesOn(responseId, s.items, c.id, ServeNext(responseId, s, c).items)
  {
    hide GoesOn, SyntheticId, GivenOr, KindOf;
    var n, r := |s.items|, ServeNext(responseId, s, c).items;
    KindsAre();
    if |r| > n {
      ItemAdded(responseId, s.items, c.id, if IsText(c) then "msg" else if IsThought(c) then "rs" else "fc", r[n]);
    } else if r == s.items {
      NothingAdded(responseId, s.items, c.id);
    } else {
      ItemKept(responseId, s.items, c.id, r[n - 1]);
    }
  }

  lemma NothingAdded(responseId: string, items: seq<OutputItem>, id: string)
    ensures GoesOn(responseId, items, id, items)
  {
  }

  lemma KindsAre()
    ensures forall item: OutputItem :: KindOf(item) == if item.MessageItem? then "msg_" else if item.ReasoningItem? then "rs_" else "fc_"
    ensures "msg" + "_" == "msg_" && "rs" + "_" == "rs_" && "fc" + "_" == "fc_"
  {
  }

  ghost predicate AllNamed(responseId: string, cs: seq<CT.Content>, items: seq<OutputItem>) {
    forall k | 0 <= k < |items| :: NamedAt(responseId, cs, items, k)
  }

  /** Every item has an id that a content gave, or the one made up for its kind, its response and its place. */
  lemma {:induction false} ServedNamed(responseId: string, cs: seq<CT.Content>)
    ensures AllNamed(responseId, cs, Serve(responseId, cs).items)
  {
    if cs != [] {
      var front, c := cs[..|cs| - 1], cs[|cs| - 1];
      ServedNamed(responseId, front);
      hide ServeNext, AllNamed;
      StillNamed(responseId, cs, Serve(responseId, front));
    }
  }

  lemma StillNamed(responseId: string, cs: seq<CT.Content>, s: Served)
    requires cs != [] && AllNamed(responseId, cs[..|cs| - 1], s.items)
    ensures AllNamed(responseId, cs, ServeNext(responseId, s, Last(cs)).items)
  {
    hide ServeNext, MadeUp, KindOf;
    var c, items := Last(cs), ServeNext(responseId, s, Last(cs)).items;
    NextNamed(responseId, s, c);
    forall k | 0 <= k < |items|
      ensures NamedAt(responseId, cs, items, k)
    {
      if k < |s.items| {
        hide NamedAt;
        KeptNamed(responseId, cs, s.items, items, k);
      }
    }
  }

  lemma KeptNamed(responseId: string, cs: seq<CT.Content>, items: seq<OutputItem>, items': seq<OutputItem>, k: nat)
    requires cs != [] && k < |items| <= |items'| && NamedAt(responseId, cs[..|cs| - 1], items, k)
    requires items'[k].id == items[k].id && KindOf(items'[k]) == KindOf(items[k])
    ensures NamedAt(responseId, cs, items', k)
  {
    hide MadeUp, KindOf;
    var front := cs[..|cs| - 1];
    if exists j | 0 <= j < |front| :: front[j].id != "" && items[k].id == front[j].id {
      var j :| 0 <= j < |front| && front[j].id != "" && items[k].id == front[j].id;
      assert cs[j] == front[j];
    }
  }
}
