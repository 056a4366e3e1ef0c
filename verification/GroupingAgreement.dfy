/**
 Exactly when the two groupings agree: once one of them has joined a content that the other has not, nothing that follows
 makes their items equal again.
 */
module GroupingAgreement {
  import opened Basics
  import opened ResponsesTypes
  import opened ResponsesConverters
  import opened ItemGrouping
  import CT = ChatTypes

  // ----- How items grow -----

  function Parts(x: OutputItem): nat {
    match x
    case MessageItem(_, _, _, parts) => |parts|
    case ReasoningItem(_, _, summary, _) => |summary|
    case CallItem(_, _, _, _, _) => 0
  }

  /** The same item, with the same or more in it. */
  predicate Grown(x: OutputItem, y: OutputItem) {
    x.id == y.id && x.MessageItem? == y.MessageItem? && x.ReasoningItem? == y.ReasoningItem? && Parts(x) <= Parts(y)
  }

  /** The server adds an item or touches the last. */
  ghost predicate ServerGoesOn(s: Served, r: Served) {
    && |s.items| <= |r.items|
    && forall k | 0 <= k < |s.items| :: Grown(s.items[k], r.items[k]) && (k + 1 < |r.items| ==> r.items[k] == s.items[k])
  }

  /** The converter adds items, fills reasoning items wherever they are, and touches no message that it has listed. */
  ghost predicate ConverterGoesOn(responseId: string, a: Assembly, r: Assembly)
    requires a.Valid() && r.Valid()
  {
    && |a.output| <= |r.output| && |Shown(responseId, a)| <= |Shown(responseId, r)|
    && (forall k | 0 <= k < |a.output| :: Grown(a.output[k], r.output[k]) && (a.output[k].MessageItem? ==> r.output[k] == a.output[k]))
    && (a.message.Some? ==> Shown(responseId, r)[|a.output|].MessageItem? && Parts(a.message.value) <= Parts(Shown(responseId, r)[|a.output|]))
    && (forall id <- a.byId.Keys :: id in r.byId && r.byId[id] == a.byId[id])
  }

  lemma {:induction false} ServerNext(responseId: string, s: Served, c: CT.Content)
    ensures ServerGoesOn(s, ServeNext(responseId, s, c))
  {
    hide SyntheticId;
  }

  lemma {:induction false} ConverterNext(responseId: string, a: Assembly, c: CT.Content)
    requires Findable(a)
    ensures ConverterGoesOn(responseId, a, Add(responseId, a, c))
  {
    assert a.Valid();
    hide ConverterGoesOn, Add, Findable;
    if IsThought(c) {
      ThoughtGoesOn(responseId, a, c);
    } else if IsText(c) {
      TextGoesOn(responseId, a, c);
    } else {
      OtherGoesOn(responseId, a, c);
    }
  }

  lemma {:induction false} TextGoesOn(responseId: string, a: Assembly, c: CT.Content)
    requires IsText(c) && a.Valid()
    ensures ConverterGoesOn(responseId, a, Add(responseId, a, c))
  {
    hide SyntheticId;
  }

  lemma {:induction false} OtherGoesOn(responseId: string, a: Assembly, c: CT.Content)
    requires !IsText(c) && !IsThought(c) && a.Valid()
    ensures ConverterGoesOn(responseId, a, Add(responseId, a, c))
  {
    hide SyntheticId;
  }

  lemma {:induction false} ThoughtGoesOn(responseId: string, a: Assembly, c: CT.Content)
    requires IsThought(c) && Findable(a)
    ensures ConverterGoesOn(responseId, a, Add(responseId, a, c))
  {
    var f := FlushMessage(responseId, a);
    var t := ReasoningFor(responseId, f, c.id);
    hide SyntheticId, FlushMessage, ReasoningFor, Add, Findable, Grown;
    FlushGoesOn(responseId, a);
    FlushedFindable(responseId, a);
    FoundGoesOn(responseId, f, c.id);
    ThoughtAdded(responseId, a, c);
    FilledGoesOn(t, c);
  }

  lemma {:induction false} FoundGoesOn(responseId: string, a: Assembly, id: string)
    requires Findable(a)
    ensures var r := ReasoningFor(responseId, a, id);
            && r.message == a.message && |a.output| <= |r.output| && (forall k | 0 <= k < |a.output| :: r.output[k] == a.output[k])
            && (forall id <- a.byId.Keys :: id in r.byId && r.byId[id] == a.byId[id])
  {
    ReasoningFound(responseId, a, id);
    hide SyntheticId, ReasoningFor, Findable;
  }

  lemma {:induction false} FlushGoesOn(responseId: string, a: Assembly)
    requires a.Valid()
    ensures var f := FlushMessage(responseId, a);
            && Shown(responseId, a) == f.output && f.byId == a.byId
            && |a.output| <= |f.output| && (forall k | 0 <= k < |a.output| :: f.output[k] == a.output[k])
            && (a.message.Some? ==> |f.output| == |a.output| + 1 && f.output[|a.output|].MessageItem? && Parts(f.output[|a.output|]) == Parts(a.message.value))
  {
  }

  lemma {:induction false} FilledGoesOn(a: Assembly, c: CT.Content)
    requires IsThought(c) && a.Valid() && a.reasoning.Some?
    ensures var r := if IsSummary(c) then AddSummary(a, c.body.text) else SetEncrypted(a, c.body.data);
            && |r.output| == |a.output| && r.byId == a.byId && r.message == a.message
            && forall k | 0 <= k < |a.output| :: Grown(a.output[k], r.output[k]) && (a.output[k].MessageItem? ==> r.output[k] == a.output[k])
  {
  }

  // ----- How items stay different -----

  /** The server has put more into message n than the converter, which has closed it. */
  ghost predicate ServerAhead(a: Assembly, s: Served, n: nat) {
    && n < |s.items| && n < |a.output| && s.items[n].MessageItem? && a.output[n].MessageItem?
    && Parts(a.output[n]) < Parts(s.items[n])
  }

  /** The converter has put more into item n than the server, which no longer holds it. */
  ghost predicate ConverterAhead(responseId: string, a: Assembly, s: Served, n: nat)
    requires a.Valid()
  {
    n + 1 < |s.items| && n < |Shown(responseId, a)| && Parts(s.items[n]) < Parts(Shown(responseId, a)[n])
  }

  /** The converter has the reasoning of item n in another place, or something else in its place. */
  ghost predicate Elsewhere(responseId: string, a: Assembly, s: Served, n: nat)
    requires a.Valid()
  {
    && n < |s.items| && s.items[n].ReasoningItem?
    && var id, z := s.items[n].id, Shown(responseId, a);
       (id in a.byId && a.byId[id] != n) || (n < |z| && !(z[n].ReasoningItem? && z[n].id == id))
  }

  /** The server has two reasoning items of one id. */
  ghost predicate Twice(s: Served, n: nat) {
    && n < |s.items| && s.items[n].ReasoningItem?
    && exists m :: n < m < |s.items| && s.items[m].ReasoningItem? && s.items[m].id == s.items[n].id
  }

  /** The converter's reasoning is still open where the server has made up an id for more of it, sealed at once. */
  ghost predicate Lacking(responseId: string, a: Assembly, s: Served, n: nat) {
    var e := SyntheticId("rs", responseId, n);
    && |a.output| == n < |s.items| && a.message.None? && a.reasoning.Some?
    && s.items[n].ReasoningItem? && s.items[n].id == e && e !in a.byId && e != ""
    && (forall m | n < m < |s.items| && s.items[m].ReasoningItem? :: s.items[m].id != e)
    && (|s.items| == n + 1 ==> !s.open)
  }

  ghost predicate Apart(responseId: string, a: Assembly, s: Served, n: nat)
    requires a.Valid()
  {
    ServerAhead(a, s, n) || ConverterAhead(responseId, a, s, n) || Elsewhere(responseId, a, s, n) || Twice(s, n) || Lacking(responseId, a, s, n)
  }

  lemma {:induction false} ApartDiffers(responseId: string, a: Assembly, s: Served, n: nat)
    requires Findable(a) && Apart(responseId, a, s, n)
    ensures s.items != Shown(responseId, a)
  {
    hide SyntheticId;
    FlushedFindable(responseId, a);
  }

  lemma {:induction false} StaysApart(responseId: string, a: Assembly, s: Served, c: CT.Content, n: nat)
    requires Findable(a) && Apart(responseId, a, s, n)
    ensures Apart(responseId, Add(responseId, a, c), ServeNext(responseId, s, c), n)
  {
    ServerNext(responseId, s, c);
    ConverterNext(responseId, a, c);
    if Lacking(responseId, a, s, n) {
      LackingNext(responseId, a, s, c, n);
    } else {
      GoesOnApart(responseId, a, s, n, Add(responseId, a, c), ServeNext(responseId, s, c));
    }
  }

  lemma {:induction false} GoesOnApart(responseId: string, a: Assembly, s: Served, n: nat, a': Assembly, s': Served)
    requires a.Valid() && a'.Valid() && ServerGoesOn(s, s') && ConverterGoesOn(responseId, a, a')
    requires Apart(responseId, a, s, n) && !Lacking(responseId, a, s, n)
    ensures Apart(responseId, a', s', n)
  {
    hide SyntheticId, Lacking;
  }

  lemma {:induction false} LackingNext(responseId: string, a: Assembly, s: Served, c: CT.Content, n: nat)
    requires Findable(a) && Lacking(responseId, a, s, n)
    ensures Apart(responseId, Add(responseId, a, c), ServeNext(responseId, s, c), n)
  {
    hide SyntheticId;
    if IsThought(c) {
      LackingThought(responseId, a, s, c, n);
    }
  }

  lemma {:induction false} LackingThought(responseId: string, a: Assembly, s: Served, c: CT.Content, n: nat)
    requires IsThought(c) && Findable(a) && Lacking(responseId, a, s, n)
    ensures Apart(responseId, Add(responseId, a, c), ServeNext(responseId, s, c), n)
  {
    var m, e := |s.items|, SyntheticId("rs", responseId, n);
    if SyntheticId("rs", responseId, m) == e {
      SyntheticInjective("rs", responseId, m, n);
    }
    assert a.Valid();
    hide SyntheticId, Add, Findable, Assembly.Valid;
    if c.id == e {
      ServedTwice(responseId, s, c, n);
    } else {
      LackingAssembled(responseId, a, c);
      LackingServed(responseId, s, c, n);
      hide ServeNext;
      if c.id == "" || c.id in a.byId {
        assert Lacking(responseId, Add(responseId, a, c), ServeNext(responseId, s, c), n);
      } else {
        assert Elsewhere(responseId, Add(responseId, a, c), ServeNext(responseId, s, c), n);
      }
    }
  }

  /** A thought of no id or a known one stays among the items; any other is listed next. */
  lemma {:induction false} LackingAssembled(responseId: string, a: Assembly, c: CT.Content)
    requires IsThought(c) && Findable(a) && a.message.None? && a.reasoning.Some?
    ensures var r, n := Add(responseId, a, c), |a.output|;
            && r.message.None? && r.reasoning.Some?
            && if c.id == "" || c.id in a.byId then |r.output| == n && r.byId == a.byId
               else |r.output| == n + 1 && r.output[n].ReasoningItem? && r.output[n].id == c.id
  {
    ReasoningFound(responseId, a, c.id);
    ThoughtAdded(responseId, a, c);
    FilledGoesOn(ReasoningFor(responseId, a, c.id), c);
    FilledFindable(ReasoningFor(responseId, a, c.id), c);
    hide SyntheticId, Add, ReasoningFor, Findable;
  }

  lemma {:induction false} ServedTwice(responseId: string, s: Served, c: CT.Content, n: nat)
    requires IsThought(c) && n < |s.items| && s.items[n].ReasoningItem? && s.items[n].id == c.id != ""
    requires (forall m | n < m < |s.items| && s.items[m].ReasoningItem? :: s.items[m].id != c.id) && (|s.items| == n + 1 ==> !s.open)
    ensures Twice(ServeNext(responseId, s, c), n)
  {
    hide SyntheticId;
    var r, m := ServeNext(responseId, s, c), |s.items|;
    assert r.items[m].ReasoningItem? && r.items[m].id == c.id && r.items[n] == s.items[n];
  }

  lemma {:induction false} LackingServed(responseId: string, s: Served, c: CT.Content, n: nat)
    requires IsThought(c) && n < |s.items| && s.items[n].ReasoningItem? && (|s.items| == n + 1 ==> !s.open)
    ensures var r := ServeNext(responseId, s, c);
            && |s.items| <= |r.items| && r.items[n].ReasoningItem? && r.items[n].id == s.items[n].id && |r.items| > n + 1
            && (forall m | 0 <= m < |s.items| && r.items[m].ReasoningItem? :: s.items[m].ReasoningItem? && r.items[m].id == s.items[m].id)
            && (|s.items| < |r.items| ==> |r.items| == |s.items| + 1 && r.items[|s.items|].id == GivenOr(c.id, "rs", responseId, |s.items|))
  {
    hide SyntheticId;
  }

  // ----- How they come apart -----

  lemma {:induction false} TextApart(responseId: string, cs: seq<CT.Content>, a: Assembly, s: Served, c: CT.Content)
    requires IsText(c) && Held(responseId, cs, s) && Following(responseId, cs, a, s)
    requires Continued(responseId, cs, c) != Regrouped(responseId, cs, c)
    ensures s.items != [] && Apart(responseId, Add(responseId, a, c), ServeNext(responseId, s, c), |s.items| - 1)
  {
    hide SyntheticId;
  }

  lemma {:induction false} ThoughtApart(responseId: string, cs: seq<CT.Content>, a: Assembly, s: Served, c: CT.Content)
    requires IsThought(c) && Held(responseId, cs, s) && Following(responseId, cs, a, s)
    requires Continued(responseId, cs, c) != Regrouped(responseId, cs, c)
    ensures exists n :: Apart(responseId, Add(responseId, a, c), ServeNext(responseId, s, c), n)
  {
    hide *;
    FollowingValid(responseId, cs, a, s);
    ContinuedThought(responseId, cs, c);
    ServedNext(responseId, cs, s, c);
    HeldCount(responseId, cs, s);
    ThoughtRejoined(responseId, cs, a, s, c);
  }

  /** The server never joins a thought that the converter does not. */
  lemma {:induction false} ContinuedThought(responseId: string, cs: seq<CT.Content>, c: CT.Content)
    requires IsThought(c)
    ensures Continued(responseId, cs, c) ==> Regrouped(responseId, cs, c)
  {
    if Continued(responseId, cs, c) {
      var n := |cs| - 1;
      assert cs[..n + 1] == cs && IsThought(cs[n]);
      assert Filed(responseId, cs, ItemId(responseId, cs));
    }
  }

  /** The converter joins a thought, and the server adds an item. */
  lemma {:induction false} ThoughtRejoined(responseId: string, cs: seq<CT.Content>, a: Assembly, s: Served, c: CT.Content)
    requires IsThought(c) && Following(responseId, cs, a, s) && |s.items| == ItemCount(responseId, cs)
    requires !HoldsThought(s, c.id) && Regrouped(responseId, cs, c)
    ensures exists n :: Apart(responseId, Add(responseId, a, c), ServeNext(responseId, s, c), n)
  {
    hide SyntheticId, Filed, Apart, Add, ServeNext;
    var n := |s.items|;
    if GivenOr(c.id, "rs", responseId, n) in a.byId {
      RejoinedById(responseId, a, s, c);
    } else if IsSummary(c) {
      SummaryRejoined(responseId, a, s, c);
    } else {
      SealRejoined(responseId, a, s, c);
    }
  }

  lemma {:induction false} RejoinedById(responseId: string, a: Assembly, s: Served, c: CT.Content)
    requires IsThought(c) && Findable(a) && InStep(responseId, a, s)
    requires !HoldsThought(s, c.id) && GivenOr(c.id, "rs", responseId, |s.items|) in a.byId
    ensures Apart(responseId, Add(responseId, a, c), ServeNext(responseId, s, c), |s.items|)
  {
    ConverterNext(responseId, a, c);
    FlushGoesOn(responseId, a);
    hide SyntheticId, Add;
  }

  lemma {:induction false} SummaryRejoined(responseId: string, a: Assembly, s: Served, c: CT.Content)
    requires IsSummary(c) && c.id == "" && InStep(responseId, a, s) && a.reasoning.Some? && !HoldsThought(s, c.id)
    ensures |s.items| > 0 && Apart(responseId, Add(responseId, a, c), ServeNext(responseId, s, c), |s.items| - 1)
  {
    ThoughtAdded(responseId, a, c);
    hide SyntheticId;
  }

  lemma {:induction false} SealRejoined(responseId: string, a: Assembly, s: Served, c: CT.Content)
    requires IsSeal(c) && c.id == "" && Findable(a) && InStep(responseId, a, s) && a.reasoning.Some? && !HoldsThought(s, c.id)
    requires SyntheticId("rs", responseId, |s.items|) !in a.byId
    ensures Apart(responseId, Add(responseId, a, c), ServeNext(responseId, s, c), |s.items|)
  {
    ThoughtAdded(responseId, a, c);
    FilledFindable(a, c);
    assert SyntheticId("rs", responseId, |s.items|)[0] == 'r';
    hide SyntheticId, Add, Findable;
    assert Lacking(responseId, Add(responseId, a, c), ServeNext(responseId, s, c), |s.items|);
  }

  // ----- Exactly when they agree -----

  lemma {:induction false} ComeApart(responseId: string, cs: seq<CT.Content>, a: Assembly, s: Served, c: CT.Content)
    requires Held(responseId, cs, s) && Following(responseId, cs, a, s)
    requires Continued(responseId, cs, c) != Regrouped(responseId, cs, c)
    ensures exists n :: Apart(responseId, Add(responseId, a, c), ServeNext(responseId, s, c), n)
  {
    assert IsText(c) || IsThought(c);
    hide Held, Following, Continued, Regrouped, Apart, Add, ServeNext;
    FollowingValid(responseId, cs, a, s);
    if IsText(c) {
      TextApart(responseId, cs, a, s, c);
    } else {
      ThoughtApart(responseId, cs, a, s, c);
    }
  }

  lemma {:induction false} AssembledFindable(responseId: string, cs: seq<CT.Content>)
    ensures Findable(Assembled(responseId, cs))
  {
    if cs != [] {
      AssembledFindable(responseId, cs[..|cs| - 1]);
      hide Findable, Add;
      FindableNext(responseId, Assembled(responseId, cs[..|cs| - 1]), Last(cs));
    }
  }

  lemma {:induction false} ApartForGood(responseId: string, cs: seq<CT.Content>)
    requires !Agree(responseId, cs)
    ensures exists n :: Apart(responseId, Assembled(responseId, cs), Serve(responseId, cs), n)
  {
    hide *;
    NothingToAgree(responseId);
    var front, c := cs[..|cs| - 1], Last(cs);
    LastStep(responseId, cs);
    if Agree(responseId, front) {
      AgreedInStep(responseId, front);
      ServedCount(responseId, front);
      ComeApart(responseId, front, Assembled(responseId, front), Serve(responseId, front), c);
    } else {
      ApartForGood(responseId, front);
      var n :| Apart(responseId, Assembled(responseId, front), Serve(responseId, front), n);
      AssembledFindable(responseId, front);
      StaysApart(responseId, Assembled(responseId, front), Serve(responseId, front), c, n);
    }
  }

  lemma NothingToAgree(responseId: string)
    ensures Agree(responseId, [])
  {
  }

  lemma LastStep(responseId: string, cs: seq<CT.Content>)
    requires cs != []
    ensures var front, c := cs[..|cs| - 1], Last(cs);
            && Serve(responseId, cs) == ServeNext(responseId, Serve(responseId, front), c)
            && Assembled(responseId, cs) == Add(responseId, Assembled(responseId, front), c)
            && (Agree(responseId, cs) <==> Agree(responseId, front) && (Continued(responseId, front, c) <==> Regrouped(responseId, front, c)))
  {
    hide Continued, Regrouped, Add, ServeNext;
  }

  /** Whatever ids are given: the same items if and only if at every content the one joins it where the other does. */
  lemma {:induction false} SameItemsIfAgree(responseId: string, cs: seq<CT.Content>)
    ensures Serve(responseId, cs).items == Converted(responseId, cs) <==> Agree(responseId, cs)
  {
    hide Apart, Findable, Agree, Serve, Assembled, Tracked, FlushMessage;
    if Agree(responseId, cs) {
      AgreedInStep(responseId, cs);
    } else {
      ApartForGood(responseId, cs);
      var n :| Apart(responseId, Assembled(responseId, cs), Serve(responseId, cs), n);
      AssembledFindable(responseId, cs);
      ApartDiffers(responseId, Assembled(responseId, cs), Serve(responseId, cs), n);
    }
  }
}
