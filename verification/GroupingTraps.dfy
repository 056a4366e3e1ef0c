/**
 The same as long as nobody gives an id of the form that is made up where one must be made up: then what is joined is a
 matter of the contents before alone. Server and converter differ at the contents that the converter joins to an item the
 server no longer holds, and each of them costs the server one item more.
 */
module GroupingTraps {
  import opened Basics
  import opened ResponsesTypes
  import opened ResponsesConverters
  import opened ItemGrouping
  import opened GroupingAgreement
  import CT = ChatTypes

  // ----- What is joined to what, by the contents alone -----

  /** The id of the reasoning item that the last content belongs to; empty if none of it has given one. */
  function RunId(cs: seq<CT.Content>): string
    requires cs != []
  {
    if Last(cs).id != "" then Last(cs).id
    else if |cs| > 1 && IsSummary(cs[|cs| - 2]) then RunId(cs[..|cs| - 1]) else ""
  }

  /** Whether the converter, having seen cs, puts c into an item that is already there. */
  ghost predicate ConverterJoins(cs: seq<CT.Content>, c: CT.Content) {
    var l := LastSpoken(cs);
    if IsText(c) then l.Some? && IsText(l.value) && SameMessage(l.value, c)
    else if IsThought(c) then
      if c.id == "" then l.Some? && IsThought(l.value) else exists k | 0 <= k < |cs| :: IsThought(cs[k]) && cs[k].id == c.id
    else false
  }

  /** Whether the stream server does: only directly after the part of an item it still holds back. */
  predicate ServerJoins(cs: seq<CT.Content>, c: CT.Content) {
    cs != [] &&
    if IsText(c) then c.id != "" && IsText(Last(cs)) && SameMessage(Last(cs), c)
    else IsThought(c) && IsSummary(Last(cs)) && (c.id == "" || RunId(cs) == c.id)
  }

  ghost predicate Trap(cs: seq<CT.Content>, c: CT.Content) {
    ConverterJoins(cs, c) && !ServerJoins(cs, c)
  }

  ghost function Traps(cs: seq<CT.Content>): nat {
    if cs == [] then 0 else Traps(cs[..|cs| - 1]) + if Trap(cs[..|cs| - 1], Last(cs)) then 1 else 0
  }

  lemma {:induction false} RunIdGiven(cs: seq<CT.Content>)
    requires cs != [] && IsSummary(Last(cs)) && RunId(cs) != ""
    ensures exists k | 0 <= k < |cs| :: IsThought(cs[k]) && cs[k].id == RunId(cs)
  {
    if Last(cs).id == "" {
      RunIdGiven(cs[..|cs| - 1]);
    }
  }

  /** The server never joins what the converter does not. */
  lemma ServerJoinsLess(cs: seq<CT.Content>, c: CT.Content)
    requires ServerJoins(cs, c)
    ensures ConverterJoins(cs, c)
  {
    if IsThought(c) && c.id != "" {
      RunIdGiven(cs);
    }
  }

  // ----- Ids -----

  /** If an id must be made up for a text or a thought, then none of its kind is given one that might be made up. */
  ghost predicate Genuine(responseId: string, cs: seq<CT.Content>) {
    forall j, k, out: nat | 0 <= j < |cs| && 0 <= k < |cs| && cs[j].id == "" ::
      && (IsText(cs[j]) && IsText(cs[k]) ==> cs[k].id != SyntheticId("msg", responseId, out))
      && (IsThought(cs[j]) && IsThought(cs[k]) ==> cs[k].id != SyntheticId("rs", responseId, out))
  }

  /** The id of a text is not one that has been made up for the text before it. */
  ghost predicate ClearText(responseId: string, cs: seq<CT.Content>, c: CT.Content) {
    cs != [] && IsText(Last(cs)) && Last(cs).id == "" ==> forall out: nat :: c.id != SyntheticId("msg", responseId, out)
  }

  /** Where an id is made up for a thought, no thought is given one that might be. */
  ghost predicate ClearThought(responseId: string, cs: seq<CT.Content>, c: CT.Content) {
    Known(cs, "") || c.id == "" ==>
      forall out: nat :: !Known(cs, SyntheticId("rs", responseId, out)) && c.id != SyntheticId("rs", responseId, out)
  }

  lemma GenuineClear(responseId: string, cs: seq<CT.Content>, c: CT.Content)
    requires Genuine(responseId, cs + [c])
    ensures Genuine(responseId, cs)
    ensures IsText(c) ==> ClearText(responseId, cs, c)
    ensures IsThought(c) ==> ClearThought(responseId, cs, c)
  {
    hide SyntheticId;
    var all := cs + [c];
    assert all[|cs|] == c && forall k | 0 <= k < |cs| :: all[k] == cs[k];
  }

  lemma {:induction false} RunIdless(cs: seq<CT.Content>)
    requires cs != [] && IsSummary(Last(cs)) && RunId(cs) == ""
    ensures Known(cs, "")
  {
    assert IsThought(cs[|cs| - 1]) && cs[|cs| - 1].id == "";
  }

  // ----- The server's decisions -----

  /** The item held has the id that its run of summaries has given, or a made-up one. */
  lemma {:induction false} RunItemId(responseId: string, cs: seq<CT.Content>)
    requires cs != [] && IsSummary(Last(cs))
    ensures RunId(cs) != "" ==> ItemId(responseId, cs) == RunId(cs)
    ensures RunId(cs) == "" ==> exists out: nat :: ItemId(responseId, cs) == SyntheticId("rs", responseId, out)
  {
    hide SyntheticId;
    if Last(cs).id == "" && |cs| > 1 && IsSummary(cs[|cs| - 2]) {
      RunItemId(responseId, cs[..|cs| - 1]);
    } else if Last(cs).id == "" {
      assert ItemId(responseId, cs) == SyntheticId("rs", responseId, ItemCount(responseId, cs[..|cs| - 1]));
    }
  }

  /** Ids that are made up join nothing but what has none. */
  lemma {:induction false} ContinuedIfJoins(responseId: string, cs: seq<CT.Content>, c: CT.Content)
    requires Genuine(responseId, cs + [c])
    ensures Continued(responseId, cs, c) <==> ServerJoins(cs, c)
  {
    GenuineClear(responseId, cs, c);
    if cs != [] && IsSummary(Last(cs)) {
      RunItemId(responseId, cs);
      if RunId(cs) == "" {
        RunIdless(cs);
      }
    }
    hide SyntheticId, Genuine, RunId, Known;
  }

  // ----- The converter's decisions -----

  /** The ids of the first n items' reasoning: all that are given, and of others only ones that have been made up. */
  ghost predicate Named(responseId: string, cs: seq<CT.Content>, ids: set<string>, n: nat) {
    && (forall id | id != "" && Known(cs, id) :: id in ids)
    && (forall id <- ids :: Known(cs, id) || (Known(cs, "") && exists out: nat | out < n :: id == SyntheticId("rs", responseId, out)))
  }

  lemma {:induction false} NamedKey(responseId: string, cs: seq<CT.Content>, ids: set<string>, n: nat, c: CT.Content)
    requires Named(responseId, cs, ids, n) && ClearThought(responseId, cs, c)
    ensures GivenOr(c.id, "rs", responseId, n) in ids <==> c.id != "" && Known(cs, c.id)
  {
    if c.id == "" && SyntheticId("rs", responseId, n) in ids {
      var out: nat :| out < n && SyntheticId("rs", responseId, n) == SyntheticId("rs", responseId, out);
      SyntheticInjective("rs", responseId, n, out);
    }
    hide SyntheticId, Known;
  }

  lemma {:induction false} NamedMore(responseId: string, cs: seq<CT.Content>, ids: set<string>, n: nat, c: CT.Content)
    requires Named(responseId, cs, ids, n) && IsThought(c)
    ensures Named(responseId, cs + [c], ids + {GivenOr(c.id, "rs", responseId, n)}, n + 1)
    ensures c.id == "" || c.id in ids ==> Named(responseId, cs + [c], ids, n)
  {
    hide SyntheticId, Known;
    KnownMore(cs, c);
  }

  lemma {:induction false} NamedSame(responseId: string, cs: seq<CT.Content>, ids: set<string>, n: nat, m: nat, c: CT.Content)
    requires Named(responseId, cs, ids, n) && !IsThought(c) && n <= m
    ensures Named(responseId, cs + [c], ids, m)
  {
    hide SyntheticId, Known;
    KnownMore(cs, c);
  }

  ghost predicate Indexed(responseId: string, cs: seq<CT.Content>, a: Assembly) {
    Findable(a) && Named(responseId, cs, a.byId.Keys, Size(a))
  }

  lemma {:induction false} JoinedNext(responseId: string, cs: seq<CT.Content>, a: Assembly, c: CT.Content)
    requires Genuine(responseId, cs + [c]) && Tracked(responseId, cs, a) && Indexed(responseId, cs, a)
    ensures var r := Add(responseId, a, c);
            && Indexed(responseId, cs + [c], r)
            && Size(r) == Size(a) + if IsSpoken(c) && !ConverterJoins(cs, c) then 1 else 0
  {
    GenuineClear(responseId, cs, c);
    FindableNext(responseId, a, c);
    hide Genuine, ClearThought, Findable, Add;
    if IsThought(c) {
      JoinedThought(responseId, cs, a, c);
    } else {
      JoinedOther(responseId, cs, a, c);
    }
  }

  lemma {:induction false} JoinedOther(responseId: string, cs: seq<CT.Content>, a: Assembly, c: CT.Content)
    requires !IsThought(c) && Tracked(responseId, cs, a) && Indexed(responseId, cs, a)
    ensures var r := Add(responseId, a, c);
            && Named(responseId, cs + [c], r.byId.Keys, Size(r))
            && Size(r) == Size(a) + if IsSpoken(c) && !ConverterJoins(cs, c) then 1 else 0
  {
    NamedSame(responseId, cs, a.byId.Keys, Size(a), Size(Add(responseId, a, c)), c) by {
      hide LastSpoken, Named, SyntheticId;
      OtherFindable(responseId, a, c);
    }
    hide LastSpoken, Named, SyntheticId, Findable;
    OtherFindable(responseId, a, c);
  }

  lemma {:induction false} JoinedThought(responseId: string, cs: seq<CT.Content>, a: Assembly, c: CT.Content)
    requires IsThought(c) && Tracked(responseId, cs, a) && Indexed(responseId, cs, a) && ClearThought(responseId, cs, c)
    ensures var r := Add(responseId, a, c);
            && Named(responseId, cs + [c], r.byId.Keys, Size(r))
            && Size(r) == Size(a) + if ConverterJoins(cs, c) then 0 else 1
  {
    hide *;
    IndexedIs(responseId, cs, a);
    ThoughtJoins(cs, c);
    TrackedOpen(responseId, cs, a);
    GivenIsGiven(c.id, responseId, Size(a));
    var f := FlushMessage(responseId, a);
    FlushedSize(responseId, a);
    FlushedFindable(responseId, a);
    ReasoningFound(responseId, f, c.id);
    FilledFindable(ReasoningFor(responseId, f, c.id), c);
    ThoughtAdded(responseId, a, c);
    NamedKey(responseId, cs, a.byId.Keys, Size(a), c);
    NamedMore(responseId, cs, a.byId.Keys, Size(a), c);
    ListedKey(f, GivenOr(c.id, "rs", responseId, Size(a)));
    SizeOf(ReasoningFor(responseId, f, c.id));
    SizeOf(Add(responseId, a, c));
  }

  lemma IndexedIs(responseId: string, cs: seq<CT.Content>, a: Assembly)
    requires Indexed(responseId, cs, a)
    ensures Findable(a) && Named(responseId, cs, a.byId.Keys, Size(a))
  {
    hide Findable, Named;
  }

  lemma ThoughtJoins(cs: seq<CT.Content>, c: CT.Content)
    requires IsThought(c)
    ensures ConverterJoins(cs, c) <==> if c.id == "" then LastSpoken(cs).Some? && IsThought(LastSpoken(cs).value) else Known(cs, c.id)
  {
    hide LastSpoken;
  }

  lemma SizeOf(a: Assembly)
    requires a.message.None?
    ensures Size(a) == |a.output|
  {
  }

  lemma TrackedOpen(responseId: string, cs: seq<CT.Content>, a: Assembly)
    requires Tracked(responseId, cs, a)
    ensures a.Valid() && (a.reasoning.Some? <==> LastSpoken(cs).Some? && IsThought(LastSpoken(cs).value))
  {
  }

  lemma GivenIsGiven(id: string, responseId: string, out: nat)
    ensures id != "" ==> GivenOr(id, "rs", responseId, out) == id
  {
  }

  lemma FlushedSize(responseId: string, a: Assembly)
    requires a.Valid()
    ensures var f := FlushMessage(responseId, a);
            |f.output| == Size(a) && f.reasoning == a.reasoning && f.byId == a.byId && f.message.None?
  {
  }

  lemma ListedKey(a: Assembly, key: string)
    requires a.Valid()
    ensures var r := NewReasoning(a, key);
            r.byId.Keys == a.byId.Keys + {key} && |r.output| == |a.output| + 1 && r.message == a.message && r.reasoning.Some?
  {
  }

  lemma KnownIsThought(cs: seq<CT.Content>, id: string)
    ensures Known(cs, id) <==> exists k | 0 <= k < |cs| :: IsThought(cs[k]) && cs[k].id == id
  {
  }

  /** What the converter joins, in step with the server, is what it joins by the contents alone. */
  lemma {:induction false} RegroupedIfJoins(responseId: string, cs: seq<CT.Content>, a: Assembly, s: Served, c: CT.Content)
    requires Genuine(responseId, cs + [c]) && Following(responseId, cs, a, s) && Indexed(responseId, cs, a)
    requires |s.items| == ItemCount(responseId, cs)
    ensures Regrouped(responseId, cs, c) <==> ConverterJoins(cs, c)
  {
    GenuineClear(responseId, cs, c);
    hide SyntheticId, Genuine, LastSpoken, Filed, Named, Known, ClearThought, Findable, FlushMessage;
    if IsThought(c) {
      FlushedSize(responseId, a);
      NamedKey(responseId, cs, a.byId.Keys, Size(a), c);
      KnownIsThought(cs, c.id);
    }
  }

  // ----- Counting the items -----

  lemma {:induction false} Grouping(responseId: string, cs: seq<CT.Content>)
    requires Genuine(responseId, cs)
    ensures var a := Assembled(responseId, cs);
            && Tracked(responseId, cs, a) && Indexed(responseId, cs, a)
            && ItemCount(responseId, cs) == Size(a) + Traps(cs)
            && (Agree(responseId, cs) <==> Traps(cs) == 0)
  {
    if cs != [] {
      hide *;
      var front, c := cs[..|cs| - 1], Last(cs);
      var a := Assembled(responseId, front);
      assert front + [c] == cs;
      GenuineClear(responseId, front, c);
      Grouping(responseId, front);
      OneMoreItem(responseId, front, c);
      ContinuedIfJoins(responseId, front, c);
      TrackedNext(responseId, front, a, c);
      JoinedNext(responseId, front, a, c);
      LastStep(responseId, cs);
      LastTrap(cs);
      if Agree(responseId, front) {
        AgreedInStep(responseId, front);
        ServedCount(responseId, front);
        HeldCount(responseId, front, Serve(responseId, front));
        RegroupedIfJoins(responseId, front, a, Serve(responseId, front), c);
      }
    }
  }

  lemma LastTrap(cs: seq<CT.Content>)
    requires cs != []
    ensures var front, c := cs[..|cs| - 1], Last(cs);
            && Traps(cs) == Traps(front) + (if ConverterJoins(front, c) && !ServerJoins(front, c) then 1 else 0)
            && (ServerJoins(front, c) ==> ConverterJoins(front, c))
            && (ConverterJoins(front, c) ==> IsSpoken(c))
  {
    var front, c := cs[..|cs| - 1], Last(cs);
    if ServerJoins(front, c) {
      ServerJoinsLess(front, c);
    }
    hide RunId, LastSpoken;
  }

  /**
   The stream server's items are those of the converter if and only if no content is a trap; every trap is one more item.
   */
  lemma {:induction false} ServedEqualsConverted(responseId: string, cs: seq<CT.Content>)
    requires Genuine(responseId, cs)
    ensures |Serve(responseId, cs).items| == |Converted(responseId, cs)| + Traps(cs)
    ensures Serve(responseId, cs).items == Converted(responseId, cs) <==> Traps(cs) == 0
  {
    hide Traps, Agree, Serve, Assembled, Genuine, Tracked, Indexed;
    Grouping(responseId, cs);
    ServedCount(responseId, cs);
    SameItemsIfAgree(responseId, cs);
  }

  // ----- Which contents are traps -----

  /** Given ids throughout, nothing passed over, and equal reasoning ids only directly after an unsealed summary of that id. */
  ghost predicate Tidy(cs: seq<CT.Content>) {
    && (forall k | 0 <= k < |cs| :: IsSpoken(cs[k]) && (IsText(cs[k]) || IsThought(cs[k]) ==> cs[k].id != ""))
    && (forall i, k | 0 <= i < k < |cs| && IsThought(cs[i]) && IsThought(cs[k]) && cs[i].id == cs[k].id ::
          IsSummary(cs[k - 1]) && cs[k - 1].id == cs[k].id)
  }

  lemma TidyIsGenuine(responseId: string, cs: seq<CT.Content>)
    requires Tidy(cs)
    ensures Genuine(responseId, cs)
  {
  }

  lemma {:induction false} TidyHasNoTraps(cs: seq<CT.Content>)
    requires Tidy(cs)
    ensures Traps(cs) == 0
  {
    if cs != [] {
      var front, c := cs[..|cs| - 1], Last(cs);
      TidyHasNoTraps(front);
      if ConverterJoins(front, c) && IsThought(c) {
        var k :| 0 <= k < |front| && IsThought(front[k]) && front[k].id == c.id;
        assert cs[k] == front[k] && cs[|cs| - 2] == Last(front);
      }
    }
  }

  /** Adjacent texts of one phase without ids: one message for the converter, two for the stream server. */
  lemma IdlessTextsAreTraps(a: CT.Content, b: CT.Content)
    requires IsText(a) && IsText(b) && a.id == "" && SameMessage(a, b)
    ensures Traps([a, b]) == 1
  {
    assert [a, b][..1] == [a] && [a][..0] == [];
    assert LastSpoken([a]) == Some(a);
    assert Traps([a]) == Traps([]) == 0;
  }

  /** A summary after the seal of its item: still that item for the converter, a new one for the stream server. */
  lemma SummaryAfterSealIsTrap(a: CT.Content, seal: CT.Content, b: CT.Content)
    requires IsSummary(a) && IsSeal(seal) && IsSummary(b) && a.id == seal.id == b.id != ""
    ensures Traps([a, seal, b]) == 1
  {
    assert [a, seal, b][..2] == [a, seal] && [a, seal][..1] == [a] && [a][..0] == [];
    assert Traps([a]) == Traps([]) == 0;
    assert ServerJoins([a], seal) && Last([a]) == a;
    assert Traps([a, seal]) == 0;
    assert [a, seal][0] == a;
    assert ConverterJoins([a, seal], b) && !ServerJoins([a, seal], b);
  }

  lemma NoTrapOfTwo(a: CT.Content, b: CT.Content, responseId: string)
    requires IsText(a) && IsText(b) && a.id == "" && b.id == SyntheticId("msg", responseId, 0)
    ensures Traps([a, b]) == 0
  {
    assert [a, b][..1] == [a] && [a][..0] == [];
    assert Traps([a]) == Traps([]) == 0;
    assert LastSpoken([a]) == Some(a) && b.id[0] == 'm';
  }

  /** Why ids must be genuine: given the id that the server has made up, a text joins an item it is no part of. */
  lemma MadeUpIdsCollide(responseId: string, a: CT.Content, b: CT.Content)
    requires IsText(a) && IsText(b) && IsFinalAnswer(a.phase) == IsFinalAnswer(b.phase)
    requires a.id == "" && b.id == SyntheticId("msg", responseId, 0)
    ensures |Serve(responseId, [a, b]).items| == 1 && |Converted(responseId, [a, b])| == 2 && Traps([a, b]) == 0
  {
    NoTrapOfTwo(a, b, responseId);
    assert [a, b][..1] == [a] && [a][..0] == [];
    assert Last([a]) == a && Last([a, b]) == b;
    assert Serve(responseId, [a][..0]) == Served([], false) && Assembled(responseId, [a][..0]) == NOTHING;
    var s := Serve(responseId, [a]);
    assert [] + [MessageItem(b.id, true, IsFinalAnswer(a.phase), [a.body.text])]
        == [MessageItem(b.id, true, IsFinalAnswer(a.phase), [a.body.text])];
    assert s == Served([MessageItem(b.id, true, IsFinalAnswer(a.phase), [a.body.text])], true);
    var t := Assembled(responseId, [a]);
    assert t.output == [] && t.message.Some? && t.message.value.id == "" && b.id[0] == 'm';
  }
}
