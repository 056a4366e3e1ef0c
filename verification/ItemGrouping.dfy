/**
 Two ways to group contents into output items. The stream server only knows the item it still holds back; the converter
 of complete responses looks further. Both make up ids for items whose contents have none, and both compare ids.
 */
module ItemGrouping {
  import opened Basics
  import opened ResponsesTypes
  import opened ResponsesConverters
  import CT = ChatTypes

  // ----- Contents by what they are to the grouping -----

  predicate IsText(c: CT.Content) {
    c.body.Text? && !c.phase.Reasoning?
  }

  predicate IsSummary(c: CT.Content) {
    c.body.Text? && c.phase.Reasoning?
  }

  predicate IsSeal(c: CT.Content) {
    c.body.Opaque? && c.phase.Reasoning?
  }

  predicate IsThought(c: CT.Content) {
    IsSummary(c) || IsSeal(c)
  }

  predicate IsSpoken(c: CT.Content) {
    c.body.Text? || c.body.ToolUse? || IsSeal(c)
  }

  function Last(cs: seq<CT.Content>): CT.Content
    requires cs != []
  {
    cs[|cs| - 1]
  }

  /** The last content that is not passed over. */
  function LastSpoken(cs: seq<CT.Content>): (r: Option<CT.Content>)
    ensures r.Some? ==> IsSpoken(r.value)
  {
    if cs == [] then None else if IsSpoken(Last(cs)) then Some(Last(cs)) else LastSpoken(cs[..|cs| - 1])
  }

  predicate SameMessage(c: CT.Content, d: CT.Content) {
    c.id == d.id && IsFinalAnswer(c.phase) == IsFinalAnswer(d.phase)
  }

  // ----- What the stream server makes of a sequence of contents -----

  /** All items, as they end up; `open` if the last one is held back for a continuation. */
  datatype Served = Served(items: seq<OutputItem>, open: bool)

  function GivenOr(id: string, prefix: string, responseId: string, out: nat): string {
    if id == "" then SyntheticId(prefix, responseId, out) else id
  }

  function ServeText(responseId: string, s: Served, c: CT.Content): Served
    requires c.body.Text?
  {
    var n := |s.items|;
    if s.open && n > 0 && s.items[n - 1].MessageItem? && c.id != "" && s.items[n - 1].id == c.id
       && s.items[n - 1].finalAnswer == IsFinalAnswer(c.phase)
    then s.(items := s.items[n - 1 := s.items[n - 1].(parts := s.items[n - 1].parts + [c.body.text])])
    else Served(s.items + [MessageItem(GivenOr(c.id, "msg", responseId, n), true, IsFinalAnswer(c.phase), [c.body.text])], true)
  }

  predicate HoldsThought(s: Served, id: string) {
    var n := |s.items|;
    s.open && n > 0 && s.items[n - 1].ReasoningItem? && (id == "" || s.items[n - 1].id == id)
  }

  function ServeSummary(responseId: string, s: Served, c: CT.Content): Served
    requires c.body.Text?
  {
    var n := |s.items|;
    if HoldsThought(s, c.id)
    then s.(items := s.items[n - 1 := s.items[n - 1].(summary := s.items[n - 1].summary + [c.body.text])])
    else Served(s.items + [ReasoningItem(GivenOr(c.id, "rs", responseId, n), true, [c.body.text], "")], true)
  }

  function ServeSeal(responseId: string, s: Served, c: CT.Content): Served
    requires c.body.Opaque?
  {
    var n := |s.items|;
    if HoldsThought(s, c.id) then Served(s.items[n - 1 := s.items[n - 1].(encrypted := c.body.data)], false)
    else Served(s.items + [ReasoningItem(GivenOr(c.id, "rs", responseId, n), true, [], c.body.data)], false)
  }

  function ServeNext(responseId: string, s: Served, c: CT.Content): Served {
    if IsText(c) then ServeText(responseId, s, c)
    else if IsSummary(c) then ServeSummary(responseId, s, c)
    else if IsSeal(c) then ServeSeal(responseId, s, c)
    else if c.body.ToolUse?
    then Served(s.items + [CallItem(GivenOr(c.id, "fc", responseId, |s.items|), true, c.body.callId, c.body.name, CT.TextualInput(c.body.inputs))], false)
    else s.(open := false)
  }

  function Serve(responseId: string, cs: seq<CT.Content>): Served {
    if cs == [] then Served([], false) else ServeNext(responseId, Serve(responseId, cs[..|cs| - 1]), Last(cs))
  }

  // ----- Ids -----

  lemma {:induction false} DigitsInjective(m: nat, n: nat)
    requires Digits(m) == Digits(n)
    ensures m == n
  {
    var dm, dn := Digits(m), Digits(n);
    assert dm[|dm| - 1] == "0123456789"[m % 10] && dn[|dn| - 1] == "0123456789"[n % 10];
    assert m % 10 == n % 10;
    if m >= 10 && n >= 10 {
      assert dm[..|dm| - 1] == Digits(m / 10) && dn[..|dn| - 1] == Digits(n / 10);
      DigitsInjective(m / 10, n / 10);
    }
  }

  lemma SyntheticInjective(prefix: string, responseId: string, m: nat, n: nat)
    requires SyntheticId(prefix, responseId, m) == SyntheticId(prefix, responseId, n)
    ensures m == n
  {
    var p := prefix + "_" + responseId + "_";
    assert (p + Digits(m))[|p|..] == Digits(m) && (p + Digits(n))[|p|..] == Digits(n);
    DigitsInjective(m, n);
  }

  // ----- What is joined to what -----

  /** How many items the stream server has made of the contents. */
  function ItemCount(responseId: string, cs: seq<CT.Content>): nat
    decreases |cs|, 2
  {
    if cs == [] then 0 else
    var front := cs[..|cs| - 1];
    ItemCount(responseId, front) + if IsSpoken(Last(cs)) && !Continued(responseId, front, Last(cs)) then 1 else 0
  }

  /** The id of the item that the last content, a text or a thought, went to: given or made up. */
  function ItemId(responseId: string, cs: seq<CT.Content>): string
    requires cs != []
    decreases |cs|, 0
  {
    var front, c := cs[..|cs| - 1], Last(cs);
    if c.id != "" then c.id
    else if IsThought(c) && front != [] && IsSummary(Last(front)) then ItemId(responseId, front)
    else SyntheticId(if IsText(c) then "msg" else "rs", responseId, ItemCount(responseId, front))
  }

  /** Whether the stream server puts c into the item it still holds back. */
  predicate Continued(responseId: string, cs: seq<CT.Content>, c: CT.Content)
    decreases |cs|, 1
  {
    cs != [] &&
    if IsText(c)
    then IsText(Last(cs)) && IsFinalAnswer(Last(cs).phase) == IsFinalAnswer(c.phase) && c.id != "" && ItemId(responseId, cs) == c.id
    else IsThought(c) && IsSummary(Last(cs)) && (c.id == "" || ItemId(responseId, cs) == c.id)
  }

  /** There is a reasoning item of this id. */
  ghost predicate Filed(responseId: string, cs: seq<CT.Content>, id: string) {
    exists k :: 0 <= k < |cs| && IsThought(cs[k]) && ItemId(responseId, cs[..k + 1]) == id
  }

  /** Whether the converter joins c to an item: to the open message by ids as given, to reasoning by ids given or made up. */
  ghost predicate Regrouped(responseId: string, cs: seq<CT.Content>, c: CT.Content) {
    var l := LastSpoken(cs);
    if IsText(c) then l.Some? && IsText(l.value) && SameMessage(l.value, c)
    else IsThought(c) &&
         ((c.id == "" && l.Some? && IsThought(l.value)) || Filed(responseId, cs, GivenOr(c.id, "rs", responseId, ItemCount(responseId, cs))))
  }

  /** At every content, the one joins it to an item if and only if the other does. */
  ghost predicate Agree(responseId: string, cs: seq<CT.Content>) {
    cs != [] ==>
      var front, c := cs[..|cs| - 1], Last(cs);
      Agree(responseId, front) && (Continued(responseId, front, c) <==> Regrouped(responseId, front, c))
  }

  lemma {:induction false} OneMoreItem(responseId: string, cs: seq<CT.Content>, c: CT.Content)
    ensures ItemCount(responseId, cs + [c]) == ItemCount(responseId, cs) + if IsSpoken(c) && !Continued(responseId, cs, c) then 1 else 0
    ensures ItemId(responseId, cs + [c]) ==
            if c.id != "" then c.id
            else if IsThought(c) && cs != [] && IsSummary(Last(cs)) then ItemId(responseId, cs)
            else SyntheticId(if IsText(c) then "msg" else "rs", responseId, ItemCount(responseId, cs))
  {
    assert (cs + [c])[..|cs|] == cs;
  }

  lemma {:induction false} FiledMore(responseId: string, cs: seq<CT.Content>, c: CT.Content)
    ensures forall id :: Filed(responseId, cs + [c], id) <==> Filed(responseId, cs, id) || (IsThought(c) && ItemId(responseId, cs + [c]) == id)
  {
    hide ItemId;
    var all := cs + [c];
    assert all[..|cs| + 1] == all && all[|cs|] == c;
    assert forall k | 0 <= k < |cs| :: all[k] == cs[k] && all[..k + 1] == cs[..k + 1];
    forall id | Filed(responseId, cs, id) ensures Filed(responseId, all, id) {
      var k :| 0 <= k < |cs| && IsThought(cs[k]) && ItemId(responseId, cs[..k + 1]) == id;
      assert IsThought(all[k]) && ItemId(responseId, all[..k + 1]) == id;
    }
    forall id | Filed(responseId, all, id) ensures Filed(responseId, cs, id) || (IsThought(c) && ItemId(responseId, all) == id) {
      var k :| 0 <= k < |all| && IsThought(all[k]) && ItemId(responseId, all[..k + 1]) == id;
      if k < |cs| {
        assert IsThought(cs[k]) && ItemId(responseId, cs[..k + 1]) == id;
      }
    }
  }

  // ----- The server's decisions -----

  ghost predicate Held(responseId: string, cs: seq<CT.Content>, s: Served) {
    && |s.items| == ItemCount(responseId, cs)
    && (s.open <==> cs != [] && Last(cs).body.Text?)
    && (s.open ==>
          && s.items != []
          && var item := s.items[|s.items| - 1];
             && item.id == ItemId(responseId, cs)
             && if IsText(Last(cs)) then item.MessageItem? && item.finalAnswer == IsFinalAnswer(Last(cs).phase) else item.ReasoningItem?)
  }

  /** Whatever ids are given, the server goes by `Continued`. */
  lemma {:induction false} ServedNext(responseId: string, cs: seq<CT.Content>, s: Served, c: CT.Content)
    requires Held(responseId, cs, s)
    ensures Held(responseId, cs + [c], ServeNext(responseId, s, c))
    ensures IsThought(c) ==> (Continued(responseId, cs, c) <==> HoldsThought(s, c.id))
  {
    OneMoreItem(responseId, cs, c);
    assert Last(cs + [c]) == c;
    hide SyntheticId, ItemCount, ItemId;
  }

  lemma {:induction false} ServedCount(responseId: string, cs: seq<CT.Content>)
    ensures Held(responseId, cs, Serve(responseId, cs))
  {
    if cs != [] {
      var front := cs[..|cs| - 1];
      ServedCount(responseId, front);
      assert front + [Last(cs)] == cs;
      hide Held, ServeNext;
      ServedNext(responseId, front, Serve(responseId, front), Last(cs));
    }
  }

  // ----- The converter's decisions -----

  ghost predicate Known(cs: seq<CT.Content>, id: string) {
    exists k | 0 <= k < |cs| :: IsThought(cs[k]) && cs[k].id == id
  }

  lemma KnownMore(cs: seq<CT.Content>, c: CT.Content)
    ensures forall id :: Known(cs + [c], id) <==> Known(cs, id) || (IsThought(c) && c.id == id)
  {
    var all := cs + [c];
    assert all[|cs|] == c;
    forall id | Known(cs, id) ensures Known(all, id) {
      var k :| 0 <= k < |cs| && IsThought(cs[k]) && cs[k].id == id;
      assert all[k] == cs[k];
    }
  }

  ghost predicate Tracked(responseId: string, cs: seq<CT.Content>, a: Assembly) {
    var l := LastSpoken(cs);
    && a.Valid()
    && (a.message.Some? <==> l.Some? && IsText(l.value))
    && (a.message.Some? ==> a.message.value.id == l.value.id && a.message.value.finalAnswer == IsFinalAnswer(l.value.phase))
    && (a.reasoning.Some? <==> l.Some? && IsThought(l.value))
    && !(a.message.Some? && a.reasoning.Some?)
  }

  lemma SpokenMore(cs: seq<CT.Content>, c: CT.Content)
    ensures LastSpoken(cs + [c]) == if IsSpoken(c) then Some(c) else LastSpoken(cs)
  {
    assert (cs + [c])[..|cs|] == cs;
  }

  /** Every reasoning item is found under its id. */
  ghost predicate Findable(a: Assembly) {
    && a.Valid()
    && (forall k | 0 <= k < |a.output| && a.output[k].ReasoningItem? :: a.output[k].id in a.byId && a.byId[a.output[k].id] == k)
    && (forall id <- a.byId.Keys :: a.output[a.byId[id]].id == id)
  }

  function Size(a: Assembly): nat {
    |a.output| + if a.message.Some? then 1 else 0
  }

  // ----- In step as long as no content is a trap -----

  /** The items the converter would give if it ended here. */
  function Shown(responseId: string, a: Assembly): seq<OutputItem>
    requires a.Valid()
  {
    FlushMessage(responseId, a).output
  }

  ghost predicate InStep(responseId: string, a: Assembly, s: Served) {
    && a.Valid() && Shown(responseId, a) == s.items
    && (a.reasoning.Some? ==> a.message.None? && a.reasoning.value == |a.output| - 1)
  }

  lemma FlushedShown(responseId: string, a: Assembly)
    requires a.Valid()
    ensures var f := FlushMessage(responseId, a);
            f.output == Shown(responseId, a) && f.reasoning == a.reasoning && f.byId == a.byId && (a.message.None? ==> f == a)
  {
  }

  lemma ThoughtFilled(responseId: string, t: Assembly, s: Served, c: CT.Content)
    requires IsThought(c) && t.Valid() && t.message.None? && t.reasoning == Some(|t.output| - 1)
    requires t.output == if HoldsThought(s, c.id) then s.items
                         else s.items + [ReasoningItem(GivenOr(c.id, "rs", responseId, |s.items|), true, [], "")]
    ensures InStep(responseId, if IsSummary(c) then AddSummary(t, c.body.text) else SetEncrypted(t, c.body.data), ServeNext(responseId, s, c))
  {
    hide SyntheticId;
    if IsSummary(c) {
      assert [] + [c.body.text] == [c.body.text];
    }
  }

  /** What the assembly knows of contents that it has grouped as the server has. */
  ghost predicate Following(responseId: string, cs: seq<CT.Content>, a: Assembly, s: Served) {
    && Tracked(responseId, cs, a) && Findable(a) && InStep(responseId, a, s)
    && forall id :: id in a.byId <==> Filed(responseId, cs, id)
  }

  /** Which reasoning item a thought goes to. */
  lemma {:induction false} ReasoningFound(responseId: string, a: Assembly, id: string)
    requires Findable(a)
    ensures var r, key := ReasoningFor(responseId, a, id), GivenOr(id, "rs", responseId, |a.output|);
            && Findable(r) && r.message == a.message
            && if id == "" && a.reasoning.Some? then r == a
               else if key in a.byId then r == a.(reasoning := Some(a.byId[key]))
               else r == NewReasoning(a, key)
  {
    hide SyntheticId;
  }

  /** What a reasoning item carries is nothing to where it is found. */
  lemma FilledFindable(a: Assembly, c: CT.Content)
    requires IsThought(c) && Findable(a) && a.reasoning.Some?
    ensures var r := if IsSummary(c) then AddSummary(a, c.body.text) else SetEncrypted(a, c.body.data);
            Findable(r) && r.byId == a.byId && r.message == a.message && r.reasoning == a.reasoning && |r.output| == |a.output|
  {
  }

  lemma ThoughtAdded(responseId: string, a: Assembly, c: CT.Content)
    requires IsThought(c) && a.Valid()
    ensures var t := ReasoningFor(responseId, FlushMessage(responseId, a), c.id);
            Add(responseId, a, c) == if IsSummary(c) then AddSummary(t, c.body.text) else SetEncrypted(t, c.body.data)
  {
  }

  lemma FlushedFindable(responseId: string, a: Assembly)
    requires Findable(a)
    ensures Findable(FlushMessage(responseId, a))
  {
    hide SyntheticId;
  }

  lemma {:induction false} OtherFindable(responseId: string, a: Assembly, c: CT.Content)
    requires !IsThought(c) && Findable(a)
    ensures Findable(Add(responseId, a, c)) && Add(responseId, a, c).byId == a.byId
  {
    hide SyntheticId;
    StillFindable(a, Add(responseId, a, c));
  }

  lemma StillFindable(a: Assembly, r: Assembly)
    requires Findable(a) && r.Valid() && r.byId == a.byId && |a.output| <= |r.output|
    requires forall k | 0 <= k < |a.output| :: r.output[k] == a.output[k]
    requires forall k | |a.output| <= k < |r.output| :: !r.output[k].ReasoningItem?
    ensures Findable(r)
  {
  }

  lemma {:induction false} FindableNext(responseId: string, a: Assembly, c: CT.Content)
    requires Findable(a)
    ensures Findable(Add(responseId, a, c))
  {
    assert a.Valid();
    hide Findable, Add;
    if IsThought(c) {
      FlushedFindable(responseId, a);
      var f := FlushMessage(responseId, a);
      ReasoningFound(responseId, f, c.id);
      FilledFindable(ReasoningFor(responseId, f, c.id), c);
      ThoughtAdded(responseId, a, c);
    } else {
      OtherFindable(responseId, a, c);
    }
  }

  lemma {:induction false} TrackedNext(responseId: string, cs: seq<CT.Content>, a: Assembly, c: CT.Content)
    requires Tracked(responseId, cs, a)
    ensures Tracked(responseId, cs + [c], Add(responseId, a, c))
  {
    SpokenMore(cs, c);
    hide SyntheticId, LastSpoken;
  }

  // ----- In step as long as they agree -----

  lemma {:induction false} TextInStep(responseId: string, cs: seq<CT.Content>, a: Assembly, s: Served, c: CT.Content)
    requires IsText(c) && Held(responseId, cs, s) && Tracked(responseId, cs, a) && InStep(responseId, a, s)
    requires Continued(responseId, cs, c) <==> Regrouped(responseId, cs, c)
    ensures InStep(responseId, Add(responseId, a, c), ServeNext(responseId, s, c))
  {
    hide SyntheticId, ItemId, ItemCount;
    var n := |s.items|;
    if Continued(responseId, cs, c) {
      assert LastSpoken(cs) == Some(Last(cs));
      hide LastSpoken;
      var m := a.message.value;
      var m' := m.(parts := m.parts + [c.body.text]);
      assert Identified(m', responseId, |a.output|) == Identified(m, responseId, |a.output|).(parts := m'.parts);
      assert (a.output + [Identified(m, responseId, |a.output|)])[|a.output| := Identified(m', responseId, |a.output|)]
          == a.output + [Identified(m', responseId, |a.output|)];
    } else {
      hide LastSpoken;
      assert [] + [c.body.text] == [c.body.text];
    }
  }

  /** A thought that both join goes to the last item. */
  lemma {:induction false} ThoughtJoined(responseId: string, cs: seq<CT.Content>, a: Assembly, s: Served, c: CT.Content)
    requires IsThought(c) && Following(responseId, cs, a, s) && Continued(responseId, cs, c) && HoldsThought(s, c.id)
    ensures var t := ReasoningFor(responseId, FlushMessage(responseId, a), c.id);
            t.output == s.items && t.message.None? && t.reasoning == Some(|s.items| - 1) && t.byId == a.byId && Findable(t)
    ensures Filed(responseId, cs, ItemId(responseId, cs + [c]))
  {
    OneMoreItem(responseId, cs, c);
    assert cs[..|cs| - 1 + 1] == cs && IsThought(cs[|cs| - 1]);
    assert Filed(responseId, cs, ItemId(responseId, cs));
    assert LastSpoken(cs) == Some(Last(cs));
    hide SyntheticId, ItemId, ItemCount, LastSpoken, Filed;
  }

  /** A thought that neither joins makes a new item. */
  lemma {:induction false} ThoughtListed(responseId: string, cs: seq<CT.Content>, a: Assembly, s: Served, c: CT.Content)
    requires IsThought(c) && Following(responseId, cs, a, s) && |s.items| == ItemCount(responseId, cs)
    requires !Continued(responseId, cs, c) && !Regrouped(responseId, cs, c)
    ensures var f, key := FlushMessage(responseId, a), GivenOr(c.id, "rs", responseId, |s.items|);
            && f.output == s.items && ReasoningFor(responseId, f, c.id) == NewReasoning(f, key) && f.byId == a.byId
            && Findable(NewReasoning(f, key)) && ItemId(responseId, cs + [c]) == key
  {
    var f := FlushMessage(responseId, a);
    FlushedFindable(responseId, a);
    FlushedShown(responseId, a);
    ReasoningFound(responseId, f, c.id);
    OneMoreItem(responseId, cs, c);
    hide SyntheticId, ItemId, ItemCount, LastSpoken, Filed, FlushMessage, ReasoningFor, Findable, Shown;
  }

  lemma {:induction false} ThoughtInStep(responseId: string, cs: seq<CT.Content>, a: Assembly, s: Served, c: CT.Content)
    requires IsThought(c) && Held(responseId, cs, s) && Following(responseId, cs, a, s)
    requires Continued(responseId, cs, c) <==> Regrouped(responseId, cs, c)
    ensures var r := Add(responseId, a, c);
            && InStep(responseId, r, ServeNext(responseId, s, c))
            && forall id :: id in r.byId <==> Filed(responseId, cs + [c], id)
  {
    hide SyntheticId, FlushMessage, ReasoningFor, Add, ServeNext, Filed, Continued, Regrouped, HoldsThought, Tracked, InStep, Findable, ItemId;
    FollowingValid(responseId, cs, a, s);
    ServedNext(responseId, cs, s, c);
    ThoughtAdded(responseId, a, c);
    FiledMore(responseId, cs, c);
    HeldCount(responseId, cs, s);
    var t := ReasoningFor(responseId, FlushMessage(responseId, a), c.id);
    if Continued(responseId, cs, c) {
      ThoughtJoined(responseId, cs, a, s, c);
    } else {
      ThoughtListed(responseId, cs, a, s, c);
    }
    ThoughtFilled(responseId, t, s, c);
    FilledFindable(t, c);
  }

  lemma HeldCount(responseId: string, cs: seq<CT.Content>, s: Served)
    requires Held(responseId, cs, s)
    ensures |s.items| == ItemCount(responseId, cs)
  {
  }

  lemma FollowingValid(responseId: string, cs: seq<CT.Content>, a: Assembly, s: Served)
    requires Following(responseId, cs, a, s)
    ensures a.Valid()
  {
  }

  lemma {:induction false} OtherInStep(responseId: string, a: Assembly, s: Served, c: CT.Content)
    requires !IsText(c) && !IsThought(c) && InStep(responseId, a, s)
    ensures InStep(responseId, Add(responseId, a, c), ServeNext(responseId, s, c))
  {
    hide SyntheticId;
  }

  lemma {:induction false} NextFollowing(responseId: string, cs: seq<CT.Content>, a: Assembly, s: Served, c: CT.Content)
    requires Held(responseId, cs, s) && Following(responseId, cs, a, s)
    requires Continued(responseId, cs, c) <==> Regrouped(responseId, cs, c)
    ensures Following(responseId, cs + [c], Add(responseId, a, c), ServeNext(responseId, s, c))
  {
    TrackedNext(responseId, cs, a, c);
    FindableNext(responseId, a, c);
    hide Held, Tracked, InStep, Findable, Continued, Regrouped, ItemId, Add, ServeNext, Filed;
    if IsThought(c) {
      ThoughtInStep(responseId, cs, a, s, c);
    } else {
      OtherFindable(responseId, a, c);
      FiledMore(responseId, cs, c);
      if IsText(c) {
        TextInStep(responseId, cs, a, s, c);
      } else {
        OtherInStep(responseId, a, s, c);
      }
    }
  }

  /** As long as they agree, they have the same items. */
  lemma {:induction false} AgreedInStep(responseId: string, cs: seq<CT.Content>)
    requires Agree(responseId, cs)
    ensures Following(responseId, cs, Assembled(responseId, cs), Serve(responseId, cs))
  {
    if cs != [] {
      var front, c := cs[..|cs| - 1], Last(cs);
      assert front + [c] == cs;
      hide Following, Continued, Regrouped, Add, ServeNext;
      AgreedInStep(responseId, front);
      ServedCount(responseId, front);
      NextFollowing(responseId, front, Assembled(responseId, front), Serve(responseId, front), c);
    }
  }
}
