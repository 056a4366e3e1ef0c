/**
 What a client of the Responses stream relies on: every output item lives through added, parts in order, done, and is
 not heard of again; nothing is left unfinished. Proved for every stream of chat events, however blocks interleave.
 */
module ResponsesProtocol {
  import opened Basics
  import opened ResponsesTypes
  import opened ResponsesServers
  import CT = ChatTypes

  // ----- The life of one item, as a reader of the stream follows it -----

  datatype Life =
    | Absent
    | Idle(kind: BlockKind, id: string, parts: seq<string>)                  // between parts
    | InPart(kind: BlockKind, id: string, parts: seq<string>, text: string)  // a part is open
    | Said(kind: BlockKind, id: string, parts: seq<string>, text: string)    // its text is done, the part is not
    | Calling(id: string, text: string)
    | Called(id: string, text: string)
    | Done(item: OutputItem)
    | Broken

  function Named(w: Wire): Option<nat> {
    match w
    case ResponseCreated(_) => None
    case ResponseInProgress(_) => None
    case ResponseEnded(_, _) => None
    case _ => Some(w.out)
  }

  function Born(item: OutputItem): Life {
    if item.completed then Broken else
    match item
    case MessageItem(id, _, _, parts) => if parts == [] then Idle(TextBlock, id, []) else Broken
    case ReasoningItem(id, _, summary, _) => if summary == [] then Idle(ReasoningBlock, id, []) else Broken
    case CallItem(id, _, _, _, arguments) => if arguments == "" then Calling(id, "") else Broken
  }

  /** An item as announced done agrees with what has been said about it. */
  predicate Agrees(l: Life, item: OutputItem) {
    item.completed &&
    match item
    case MessageItem(id, _, _, parts) => l == Idle(TextBlock, id, parts)
    case ReasoningItem(id, _, summary, _) => l == Idle(ReasoningBlock, id, summary)
    case CallItem(id, _, _, _, arguments) => l == Called(id, arguments)
  }

  predicate OpenPart(l: Life, id: string, part: nat, summary: bool) {
    l.InPart? && l.id == id && part == |l.parts| && summary == l.kind.ReasoningBlock?
  }

  function Longer(l: Life, text: string): Life {
    match l
    case InPart(kind, id, parts, t) => InPart(kind, id, parts, t + text)
    case Calling(id, t) => Calling(id, t + text)
    case _ => Broken
  }

  function Next(l: Life, w: Wire): Life {
    match w
    case ItemAdded(_, item) => if l.Absent? then Born(item) else Broken
    case PartAdded(_, id, part, summary) =>
      if l.Idle? && l.id == id && part == |l.parts| && summary == l.kind.ReasoningBlock?
      then InPart(l.kind, id, l.parts, "") else Broken
    case PartDelta(_, id, part, summary, text) =>
      if OpenPart(l, id, part, summary) || (l.Calling? && l.id == id) then Longer(l, text) else Broken
    case PartTextDone(_, id, part, summary, text) =>
      if OpenPart(l, id, part, summary) && l.text == text then Said(l.kind, id, l.parts, text) else Broken
    case PartDone(_, id, part, summary, text) =>
      if l.Said? && l.id == id && part == |l.parts| && summary == l.kind.ReasoningBlock? && l.text == text
      then Idle(l.kind, id, l.parts + [text]) else Broken
    case ArgumentsDelta(_, id, text) =>
      if (l.Calling? || l.InPart?) && l.id == id then Longer(l, text) else Broken
    case ArgumentsDone(_, id, text) => if l == Calling(id, text) then Called(id, text) else Broken
    case ItemDone(_, item) => if Agrees(l, item) then Done(item) else Broken
    case _ => l
  }

  /** What the stream so far says of the item at an output index. Broken is for good. */
  function LifeOf(sent: seq<Sent>, out: nat): Life {
    if sent == [] then Absent else
    var n := |sent| - 1;
    var l := LifeOf(sent[..n], out);
    if Named(sent[n].event) == Some(out) then Next(l, sent[n].event) else l
  }

  /** The output indices in the order in which items were added. */
  function AddedOuts(sent: seq<Sent>): seq<nat> {
    if sent == [] then [] else
    var n := |sent| - 1;
    AddedOuts(sent[..n]) + if sent[n].event.ItemAdded? then [sent[n].event.out] else []
  }

  lemma {:induction false} BrokenForGood(sent: seq<Sent>, more: seq<Sent>, out: nat)
    requires LifeOf(sent, out).Broken?
    ensures LifeOf(sent + more, out).Broken?
  {
    if more == [] {
      assert sent + more == sent;
    } else {
      var n := |more| - 1;
      BrokenForGood(sent, more[..n], out);
      assert (sent + more)[..|sent| + n] == sent + more[..n];
    }
  }

  // ----- The invariant -----

  function BlockLife(s: Server, b: Block): Life
    requires s.Fits(b)
  {
    match b.kind
    case TextBlock => InPart(TextBlock, s.items[b.out].id, s.items[b.out].parts, b.text)
    case ReasoningBlock => InPart(ReasoningBlock, s.items[b.out].id, s.items[b.out].summary, b.text)
    case ToolBlock => Calling(s.items[b.out].id, b.text)
  }

  /** The part an open block writes to is the next of its item. */
  ghost predicate PartIndexOk(s: Server, b: Block)
    requires s.Fits(b)
  {
    && (b.kind.TextBlock? ==> b.contentIndex == |s.items[b.out].parts|)
    && (b.kind.ReasoningBlock? ==> b.summaryIndex == |s.items[b.out].summary|)
  }

  function PendingLife(s: Server, b: Block): Life
    requires s.Fits(b) && !b.kind.ToolBlock?
  {
    if b.kind.TextBlock? then Idle(TextBlock, s.items[b.out].id, s.items[b.out].parts)
    else Idle(ReasoningBlock, s.items[b.out].id, s.items[b.out].summary)
  }

  ghost predicate Pending(s: Server, out: nat) {
    (s.pendingText.Some? && s.pendingText.value.out == out) || (s.pendingReasoning.Some? && s.pendingReasoning.value.out == out)
  }

  /** At most one item is pending, an item is open in at most one block, and never both. */
  ghost predicate Exclusive(s: Server) {
    && !(s.pendingText.Some? && s.pendingReasoning.Some?)
    && (forall i, j | i in s.blocks && j in s.blocks && i != j :: s.blocks[i].out != s.blocks[j].out)
    && (forall i <- s.blocks.Keys :: !Pending(s, s.blocks[i].out))
  }

  ghost predicate Followed(s: Server)
    requires s.Valid()
  {
    && (forall i <- s.blocks.Keys :: LifeOf(s.sent, s.blocks[i].out) == BlockLife(s, s.blocks[i]) && PartIndexOk(s, s.blocks[i]))
    && (s.pendingText.Some? ==> LifeOf(s.sent, s.pendingText.value.out) == PendingLife(s, s.pendingText.value))
    && (s.pendingReasoning.Some? ==> LifeOf(s.sent, s.pendingReasoning.value.out) == PendingLife(s, s.pendingReasoning.value))
  }

  ghost predicate Numbered(s: Server) {
    && s.sequence == |s.sent|
    && (forall k | 0 <= k < |s.sent| :: s.sent[k].sequence == k)
    && AddedOuts(s.sent) == seq(|s.items|, k => k)
  }

  /** What has been said of an item is well formed, and it has been announced done, as it is, exactly if it is completed. */
  ghost predicate Settled(l: Life, item: OutputItem) {
    !l.Absent? && !l.Broken? && (if item.completed then l == Done(item) else !l.Done?)
  }

  /** Exactly the items of the server have been heard of. */
  ghost predicate Lively(s: Server) {
    && (forall out: nat | out >= |s.items| :: LifeOf(s.sent, out).Absent?)
    && (forall out: nat | out < |s.items| :: Settled(LifeOf(s.sent, out), s.items[out]))
  }

  ghost predicate Inv(s: Server) {
    s.Valid() && Numbered(s) && Exclusive(s) && Followed(s) && Lively(s)
  }

  lemma InvValid(s: Server)
    requires Inv(s)
    ensures s.Valid()
  {
  }

  lemma InvLive(s: Server, out: nat)
    requires Inv(s) && out < |s.items|
    ensures Settled(LifeOf(s.sent, out), s.items[out])
  {
  }

  lemma InvPending(s: Server)
    requires Inv(s)
    ensures s.Valid() && !(s.pendingText.Some? && s.pendingReasoning.Some?)
    ensures s.pendingText.Some? ==> LifeOf(s.sent, s.pendingText.value.out) == PendingLife(s, s.pendingText.value)
    ensures s.pendingReasoning.Some? ==> LifeOf(s.sent, s.pendingReasoning.value.out) == PendingLife(s, s.pendingReasoning.value)
  {
  }

  lemma InvBlock(s: Server, index: nat)
    requires Inv(s) && index in s.blocks
    ensures var b := s.blocks[index];
            s.Valid() && s.Fits(b) && LifeOf(s.sent, b.out) == BlockLife(s, b) && PartIndexOk(s, b)
  {
  }

  // ----- Elementary steps keep it -----

  /** What one more written event changes in what the stream says. */
  lemma Wrote(s: Server, w: Wire)
    ensures forall out: nat :: LifeOf(Write(s, w).sent, out) ==
              if Named(w) == Some(out) then Next(LifeOf(s.sent, out), w) else LifeOf(s.sent, out)
    ensures AddedOuts(Write(s, w).sent) == AddedOuts(s.sent) + if w.ItemAdded? then [w.out] else []
  {
    assert Write(s, w).sent[..|s.sent|] == s.sent;
  }

  /** An item that no open block and no pending one is about. */
  ghost predicate Free(s: Server, out: nat) {
    (forall i <- s.blocks.Keys :: s.blocks[i].out != out) && !Pending(s, out)
  }

  ghost predicate SameKind(item: OutputItem, item': OutputItem) {
    (item.MessageItem? ==> item'.MessageItem?) && (item.ReasoningItem? ==> item'.ReasoningItem?) && (item.CallItem? ==> item'.CallItem?)
  }

  /** What is written about one item, or added as one, is nothing to the lives of those in use. */
  lemma StillFollowed(s: Server, r: Server, out: nat)
    requires s.Valid() && r.Valid() && Followed(s) && Free(s, out)
    requires r.blocks == s.blocks && r.pendingText == s.pendingText && r.pendingReasoning == s.pendingReasoning
    requires |s.items| <= |r.items| && forall o: nat | o < |s.items| && o != out :: r.items[o] == s.items[o]
    requires forall o: nat | o != out :: LifeOf(r.sent, o) == LifeOf(s.sent, o)
    ensures Followed(r)
  {
    hide LifeOf, BlockLife, PartIndexOk, PendingLife;
    forall b: Block | s.Fits(b) && b.out != out
      ensures && r.Fits(b) && BlockLife(r, b) == BlockLife(s, b) && PartIndexOk(r, b) == PartIndexOk(s, b)
              && (!b.kind.ToolBlock? ==> PendingLife(r, b) == PendingLife(s, b))
    {
      SameLife(s, r, b);
    }
  }

  lemma SameLife(s: Server, r: Server, b: Block)
    requires s.Fits(b) && b.out < |r.items| && r.items[b.out] == s.items[b.out]
    ensures r.Fits(b) && BlockLife(r, b) == BlockLife(s, b) && PartIndexOk(r, b) == PartIndexOk(s, b)
    ensures !b.kind.ToolBlock? ==> PendingLife(r, b) == PendingLife(s, b)
  {
  }

  /** Changing a free item and writing an event about it that its life accepts. */
  lemma Touched(s: Server, out: nat, item: OutputItem, w: Wire)
    requires Inv(s) && out < |s.items| && Free(s, out) && SameKind(s.items[out], item)
    requires Named(w) == Some(out) && !w.ItemAdded?
    requires Settled(Next(LifeOf(s.sent, out), w), item)
    ensures var r := Write(SetItem(s, out, item), w);
            Inv(r) && Free(r, out) && LifeOf(r.sent, out) == Next(LifeOf(s.sent, out), w)
  {
    hide Next, LifeOf, AddedOuts, Followed, Exclusive, Numbered, Lively, Server.Valid;
    var r := Write(SetItem(s, out, item), w);
    StillLives(s, out, item, w);
    SameUse(s, r);
    SameNumber(s, SetItem(s, out, item), w);
    StillValid(s, out, item);
    StillFollowed(s, r, out);
  }

  lemma StillLives(s: Server, out: nat, item: OutputItem, w: Wire)
    requires Lively(s) && out < |s.items| && Named(w) == Some(out) && Settled(Next(LifeOf(s.sent, out), w), item)
    ensures var r := Write(SetItem(s, out, item), w);
            && Lively(r) && LifeOf(r.sent, out) == Next(LifeOf(s.sent, out), w)
            && forall o: nat | o != out :: LifeOf(r.sent, o) == LifeOf(s.sent, o)
  {
    hide Next, LifeOf, AddedOuts, Settled, Named;
    var r := Write(SetItem(s, out, item), w);
    Wrote(SetItem(s, out, item), w);
    forall o: nat | o < |r.items| ensures Settled(LifeOf(r.sent, o), r.items[o]) {
      assert o != out ==> r.items[o] == s.items[o];
    }
  }

  lemma SameNumber(s: Server, s': Server, w: Wire)
    requires Numbered(s) && s'.sequence == s.sequence && s'.sent == s.sent && |s'.items| == |s.items| && !w.ItemAdded?
    ensures Numbered(Write(s', w))
  {
    hide LifeOf, AddedOuts;
    Wrote(s', w);
  }

  lemma SameUse(s: Server, r: Server)
    requires Exclusive(s) && r.blocks == s.blocks && r.pendingText == s.pendingText && r.pendingReasoning == s.pendingReasoning
    ensures Exclusive(r)
  {
  }

  lemma StillValid(s: Server, out: nat, item: OutputItem)
    requires s.Valid() && out < |s.items| && SameKind(s.items[out], item)
    ensures SetItem(s, out, item).Valid() && forall w :: Write(SetItem(s, out, item), w).Valid()
  {
  }

  lemma Added(s: Server, item: OutputItem)
    requires Inv(s) && !Born(item).Broken?
    ensures var r := AddItem(s, item);
            Inv(r) && Free(r, |s.items|) && LifeOf(r.sent, |s.items|) == Born(item)
  {
    hide Next, Born, LifeOf, AddedOuts, Followed, Exclusive, Numbered, Lively, Server.Valid;
    var out := |s.items|;
    var r := AddItem(s, item);
    OneMoreLives(s, item);
    NextNumber(s, item);
    SameUse(s, r);
    RoomForMore(s, item);
    StillFollowed(s, r, out);
  }

  lemma OneMoreLives(s: Server, item: OutputItem)
    requires Lively(s) && !Born(item).Broken?
    ensures var r := AddItem(s, item);
            && Lively(r) && LifeOf(r.sent, |s.items|) == Born(item)
            && forall o: nat | o != |s.items| :: LifeOf(r.sent, o) == LifeOf(s.sent, o)
  {
    hide Next, Born, LifeOf, AddedOuts, Settled, Named;
    var out, r := |s.items|, AddItem(s, item);
    Birth(out, item);
    Wrote(s.(items := s.items + [item]), ItemAdded(out, item));
    forall o: nat | o < |r.items| ensures Settled(LifeOf(r.sent, o), r.items[o]) {
      assert o < out ==> r.items[o] == s.items[o];
    }
  }

  lemma Birth(out: nat, item: OutputItem)
    requires !Born(item).Broken?
    ensures Named(ItemAdded(out, item)) == Some(out) && Next(Absent, ItemAdded(out, item)) == Born(item) && Settled(Born(item), item)
  {
  }

  lemma NextNumber(s: Server, item: OutputItem)
    requires Numbered(s)
    ensures Numbered(AddItem(s, item))
  {
    var r, n := AddItem(s, item), |s.items|;
    assert r.sent[..|s.sent|] == s.sent;
    assert seq(n + 1, k => k) == seq(n, k => k) + [n];
  }

  lemma RoomForMore(s: Server, item: OutputItem)
    requires s.Valid()
    ensures AddItem(s, item).Valid() && Free(s, |s.items|)
  {
  }

  lemma Dropped(s: Server, index: nat)
    requires Inv(s)
    ensures var r := s.(blocks := s.blocks - {index});
            Inv(r) && (index in s.blocks ==> Free(r, s.blocks[index].out)) && forall out :: Free(s, out) ==> Free(r, out)
  {
    hide LifeOf, AddedOuts, BlockLife, PartIndexOk, PendingLife, Settled;
    SameLives(s, s.(blocks := s.blocks - {index}));
  }

  lemma Placed(s: Server, index: nat, b: Block)
    requires Inv(s) && index !in s.blocks && s.Fits(b) && Free(s, b.out)
    requires LifeOf(s.sent, b.out) == BlockLife(s, b) && PartIndexOk(s, b)
    ensures Inv(SetBlock(s, index, b))
  {
    hide LifeOf, AddedOuts;
    StillExclusive(s, index, b);
    hide Exclusive;
    FollowedToo(s, index, b);
    hide Server.Valid, Followed;
  }

  lemma FollowedToo(s: Server, index: nat, b: Block)
    requires s.Valid() && Followed(s) && s.Fits(b) && LifeOf(s.sent, b.out) == BlockLife(s, b) && PartIndexOk(s, b)
    ensures var r := SetBlock(s, index, b); r.Valid() && Followed(r)
  {
    hide LifeOf, BlockLife, PartIndexOk, PendingLife;
    SameLives(s, SetBlock(s, index, b));
  }

  /** What the life of a block or of a pending item must be is a matter of the items alone. */
  lemma SameLives(s: Server, r: Server)
    requires r.items == s.items
    ensures forall b: Block | s.Fits(b) :: r.Fits(b) && BlockLife(r, b) == BlockLife(s, b) && PartIndexOk(r, b) == PartIndexOk(s, b)
    ensures forall b: Block | s.Fits(b) && !b.kind.ToolBlock? :: r.Fits(b) && PendingLife(r, b) == PendingLife(s, b)
  {
  }

  lemma StillExclusive(s: Server, index: nat, b: Block)
    requires Exclusive(s) && index !in s.blocks && Free(s, b.out)
    ensures Exclusive(SetBlock(s, index, b))
  {
  }

  lemma Unpended(s: Server)
    requires Inv(s)
    ensures var r := s.(pendingText := None, pendingReasoning := None);
            Inv(r) && forall out :: Pending(s, out) || Free(s, out) ==> Free(r, out)
  {
    hide LifeOf, AddedOuts, BlockLife, PartIndexOk, PendingLife, Settled;
    SameLives(s, s.(pendingText := None, pendingReasoning := None));
  }

  lemma Pended(s: Server, b: Block)
    requires Inv(s) && s.pendingText.None? && s.pendingReasoning.None? && s.Fits(b) && Free(s, b.out) && !b.kind.ToolBlock?
    requires LifeOf(s.sent, b.out) == PendingLife(s, b)
    ensures Inv(if b.kind.TextBlock? then s.(pendingText := Some(b)) else s.(pendingReasoning := Some(b)))
  {
    hide LifeOf, AddedOuts, BlockLife, PartIndexOk, PendingLife, Settled;
    SameLives(s, s.(pendingText := Some(b)));
    SameLives(s, s.(pendingReasoning := Some(b)));
  }

  /** Writing an event about a free unfinished item that its life accepts, without finishing it. */
  lemma Spoken(s: Server, out: nat, w: Wire)
    requires Inv(s) && out < |s.items| && Free(s, out) && Named(w) == Some(out) && !w.ItemAdded? && !w.ItemDone?
    requires var l, l' := LifeOf(s.sent, out), Next(LifeOf(s.sent, out), w); !l.Done? && !l'.Absent? && !l'.Broken? && !l'.Done?
    ensures var r := Write(s, w);
            Inv(r) && Free(r, out) && LifeOf(r.sent, out) == Next(LifeOf(s.sent, out), w)
  {
    hide Inv, Next;
    InvLive(s, out);
    Touched(s, out, s.items[out], w);
    assert s.items[out := s.items[out]] == s.items;
  }

  /** Finishing a free item whose life agrees with it. */
  lemma Finished(s: Server, out: nat)
    requires Inv(s) && out < |s.items| && Free(s, out) && Agrees(LifeOf(s.sent, out), s.items[out].(completed := true))
    ensures Inv(Finish(s, out))
  {
    hide Inv, Agrees;
    var item := s.items[out].(completed := true);
    Touched(s, out, item, ItemDone(out, item));
  }

  // ----- Each handler keeps it -----

  lemma FlushTextInv(s: Server)
    requires Inv(s)
    ensures Inv(FlushText(s)) && FlushText(s).pendingText.None?
  {
    hide Inv;
    InvPending(s);
    if s.pendingText.Some? {
      Unpended(s);
      Finished(s.(pendingText := None, pendingReasoning := None), s.pendingText.value.out);
    }
  }

  lemma FlushReasoningInv(s: Server)
    requires Inv(s)
    ensures Inv(FlushReasoning(s)) && FlushReasoning(s).pendingReasoning.None?
  {
    hide Inv;
    InvPending(s);
    if s.pendingReasoning.Some? {
      Unpended(s);
      Finished(s.(pendingText := None, pendingReasoning := None), s.pendingReasoning.value.out);
    }
  }

  lemma FlushItemsInv(s: Server)
    requires Inv(s)
    ensures var r := FlushItems(s);
            Inv(r) && r.pendingText.None? && r.pendingReasoning.None? && r.blocks == s.blocks && |r.items| == |s.items|
  {
    hide Inv;
    InvValid(s);
    FlushReasoningInv(s);
    FlushTextInv(FlushReasoning(s));
  }

  /** Announcing the next part of a free item and opening a block for it. */
  lemma PartOpened(s: Server, index: nat, b: Block)
    requires Inv(s) && s.Fits(b) && !b.kind.ToolBlock? && Free(s, b.out) && b.text == "" && PartIndexOk(s, b)
    requires LifeOf(s.sent, b.out) == PendingLife(s, b)
    ensures Inv(AnnouncePart(SetBlock(s, index, b), b))
  {
    hide Inv, LifeOf, Free;
    Dropped(s, index);
    var d := s.(blocks := s.blocks - {index});
    var w := PartAdded(b.out, s.items[b.out].id, PartIndex(b), b.kind.ReasoningBlock?);
    Spoken(d, b.out, w);
    Placed(Write(d, w), index, b);
    assert SetBlock(Write(d, w), index, b) == AnnouncePart(SetBlock(s, index, b), b);
  }

  lemma StartTextInv(s: Server, index: nat, id: string, finalAnswer: bool)
    requires Inv(s) && s.pendingReasoning.None?
    ensures Inv(StartText(s, index, id, finalAnswer))
  {
    hide Inv, LifeOf;
    InvPending(s);
    if TextContinues(s, id, finalAnswer) {
      var b := s.pendingText.value.(contentIndex := |s.items[s.pendingText.value.out].parts|, text := "");
      Unpended(s);
      PartOpened(s.(pendingText := None), index, b);
    } else {
      FlushTextInv(s);
      var f := FlushText(s);
      hide FlushText;
      var item := MessageItem(IdOr(id, "msg", f), false, finalAnswer, []);
      Added(f, item);
      PartOpened(AddItem(f, item), index, Block(TextBlock, |f.items|, 0, 0, ""));
    }
  }

  lemma StartReasoningInv(s: Server, index: nat, id: string)
    requires Inv(s) && s.pendingText.None?
    ensures Inv(StartReasoning(s, index, id))
  {
    hide Inv, LifeOf;
    InvPending(s);
    if ReasoningContinues(s, id) {
      var b := s.pendingReasoning.value.(summaryIndex := |s.items[s.pendingReasoning.value.out].summary|, text := "");
      Unpended(s);
      PartOpened(s.(pendingReasoning := None), index, b);
    } else {
      FlushReasoningInv(s);
      var f := FlushReasoning(s);
      hide FlushReasoning;
      var item := ReasoningItem(IdOr(id, "rs", f), false, [], "");
      Added(f, item);
      PartOpened(AddItem(f, item), index, Block(ReasoningBlock, |f.items|, 0, 0, ""));
    }
  }

  lemma StartToolInv(s: Server, index: nat, id: string, callId: string, name: string)
    requires Inv(s)
    ensures Inv(StartTool(s, index, id, callId, name))
  {
    hide Inv, LifeOf, Free;
    InvValid(s);
    var b := Block(ToolBlock, |s.items|, 0, 0, "");
    var item := CallItem(IdOr(id, "fc", s), false, callId, name, "");
    Dropped(s, index);
    var d := s.(blocks := s.blocks - {index});
    Added(d, item);
    Placed(AddItem(d, item), index, b);
    assert SetBlock(AddItem(d, item), index, b) == AddItem(SetBlock(s, index, b), item);
  }

  lemma DeltaInv(s: Server, index: nat, d: CT.Delta)
    requires Inv(s)
    ensures Inv(OnDelta(s, index, d))
  {
    hide Inv, LifeOf, Free;
    InvValid(s);
    if index in s.blocks && !d.SignatureDelta? {
      var b := s.blocks[index];
      InvBlock(s, index);
      Dropped(s, index);
      var r := s.(blocks := s.blocks - {index});
      var b' := b.(text := b.text + d.text);
      Spoken(r, b.out, DeltaWire(b, s.items[b.out].id, d));
      Placed(Write(r, DeltaWire(b, s.items[b.out].id, d)), index, b');
      assert (s.blocks - {index})[index := b'] == s.blocks[index := b'];
    }
  }

  lemma FinishPartInv(s: Server, b: Block)
    requires Inv(s) && s.pendingText.None? && s.pendingReasoning.None? && s.Fits(b) && !b.kind.ToolBlock? && Free(s, b.out)
    requires LifeOf(s.sent, b.out) == BlockLife(s, b) && PartIndexOk(s, b)
    ensures Inv(if b.kind.TextBlock? then FinishText(s, b) else FinishReasoning(s, b))
  {
    hide Inv, LifeOf, Free;
    InvValid(s);
    InvLive(s, b.out);
    var item, summary := s.items[b.out], b.kind.ReasoningBlock?;
    var item' := if summary then item.(summary := item.summary + [b.text]) else item.(parts := item.parts + [b.text]);
    var w, w' := PartTextDone(b.out, item.id, PartIndex(b), summary, b.text), PartDone(b.out, item.id, PartIndex(b), summary, b.text);
    Touched(s, b.out, item', w);
    Spoken(Write(SetItem(s, b.out, item'), w), b.out, w');
    Pended(Write(Write(SetItem(s, b.out, item'), w), w'), b);
  }

  lemma FinishToolInv(s: Server, b: Block)
    requires Inv(s) && s.Fits(b) && b.kind.ToolBlock? && Free(s, b.out) && LifeOf(s.sent, b.out) == BlockLife(s, b)
    ensures Inv(FinishTool(s, b))
  {
    hide Inv, LifeOf, Free;
    InvValid(s);
    InvLive(s, b.out);
    var item := s.items[b.out].(arguments := b.text);
    Touched(s, b.out, item, ArgumentsDone(b.out, item.id, b.text));
    Finished(Write(SetItem(s, b.out, item), ArgumentsDone(b.out, item.id, b.text)), b.out);
  }

  lemma StopInv(s: Server, index: nat)
    requires Inv(s) && s.pendingText.None? && s.pendingReasoning.None?
    ensures Inv(OnStop(s, index))
  {
    hide Inv, LifeOf, Free, FinishText, FinishReasoning, FinishTool;
    InvValid(s);
    if index in s.blocks {
      InvBlock(s, index);
      Dropped(s, index);
      var d, b := s.(blocks := s.blocks - {index}), s.blocks[index];
      if b.kind.ToolBlock? {
        FinishToolInv(d, b);
      } else {
        FinishPartInv(d, b);
      }
    }
  }

  lemma SnapshotInv(s: Server, c: CT.Content)
    requires Inv(s)
    ensures Inv(OnSnapshot(s, c))
  {
    hide Inv;
    InvValid(s);
    FlushTextInv(s);
    var f := FlushText(s);
    FlushReasoningInv(f);
    if c.phase.Reasoning? && c.body.Opaque? && c.body.data != "" {
      if ReasoningContinues(f, c.id) {
        SealInv(f, c.body.data);
      } else {
        NewSealedInv(FlushReasoning(f), c.id, c.body.data);
      }
    }
  }

  /** The encrypted form completes the pending reasoning item. */
  lemma SealInv(s: Server, data: string)
    requires Inv(s) && s.pendingReasoning.Some?
    ensures var out := s.pendingReasoning.value.out;
            Inv(FlushReasoning(SetItem(s, out, s.items[out].(encrypted := data))))
  {
    var out := s.pendingReasoning.value.out;
    var item := s.items[out].(encrypted := data, completed := true);
    Unpended(s);
    Touched(s.(pendingReasoning := None), out, item, ItemDone(out, item));
    assert s.items[out := s.items[out].(encrypted := data)][out := item] == s.items[out := item];
  }

  lemma NewSealedInv(s: Server, id: string, data: string)
    requires Inv(s)
    ensures Inv(Finish(AddItem(s, ReasoningItem(IdOr(id, "rs", s), false, [], data)), |s.items|))
  {
    var item := ReasoningItem(IdOr(id, "rs", s), false, [], data);
    Added(s, item);
    hide Inv;
    Finished(AddItem(s, item), |s.items|);
  }

  lemma ResponseEventInv(s: Server, w: Wire)
    requires Inv(s) && Named(w).None?
    ensures Inv(Write(s, w))
  {
    hide LifeOf, AddedOuts, BlockLife, PartIndexOk, PendingLife, Settled;
    Wrote(s, w);
    SameLives(s, Write(s, w));
    SameUse(s, Write(s, w));
    hide Exclusive;
  }

  /** What the response says of itself is nothing to its items. */
  lemma SameItems(s: Server, r: Server)
    requires Inv(s) && r.sequence == s.sequence && r.sent == s.sent && r.items == s.items && r.blocks == s.blocks
    requires r.pendingText == s.pendingText && r.pendingReasoning == s.pendingReasoning && r.base <= |r.items|
    ensures Inv(r)
  {
  }

  lemma MessageStartInv(s: Server, requestId: string, messageId: string, model: string)
    requires Inv(s)
    ensures Inv(OnMessageStart(s, requestId, messageId, model))
  {
    hide Inv;
    InvValid(s);
    var s' := s.(responseId := if messageId == "" then requestId else messageId, model := model, status := InProgress,
                 base := |s.items|, finalUsage := None);
    SameItems(s, s');
    ResponseEventInv(s', ResponseCreated(s'.Response()));
    var s'' := Write(s', ResponseCreated(s'.Response()));
    ResponseEventInv(s'', ResponseInProgress(s''.Response()));
  }

  lemma MessageStopInv(s: Server, status: CT.Status)
    requires Inv(s)
    ensures Inv(OnMessageStop(s, status))
  {
    hide Inv;
    InvValid(s);
    var t := s.(status := StatusOf(status), finalUsage := s.usage);
    SameItems(s, t);
    ResponseEventInv(t, ResponseEnded(TerminalOf(t.status), t.Response()));
  }

  lemma UsageInv(s: Server, usage: Option<CT.Usage>)
    requires Inv(s)
    ensures Inv(s.(usage := usage))
  {
    hide Inv;
    InvValid(s);
    SameItems(s, s.(usage := usage));
  }

  /** Every event keeps the invariant. */
  lemma StepInv(s: Server, e: CT.Event)
    requires Inv(s)
    ensures Inv(Step(s, e))
  {
    hide Inv, OnMessageStart, OnStart, OnDelta, OnStop, OnSnapshot, OnMessageStop, FlushItems, Server.Valid;
    UsageInv(s, CT.MergeUsage(s.usage, e.usage));
    var u := s.(usage := CT.MergeUsage(s.usage, e.usage));
    InvValid(s);
    InvValid(u);
    FlushItemsInv(u);
    match e.payload
    case MessageStart(messageId, model) => MessageStartInv(FlushItems(u), e.requestId, messageId, model);
    case ContentStart(id, index, phase, kind) => StartInv(u, index, id, phase, kind);
    case ContentDelta(index, d) => DeltaInv(FlushItems(u), index, d);
    case ContentStop(index) => StopInv(FlushItems(u), index);
    case ContentSnapshot(c) => SnapshotInv(u, c);
    case MessageStop(status) => MessageStopInv(FlushItems(u), status);
    case NoPayload =>
  }

  lemma StartInv(s: Server, index: nat, id: string, phase: CT.Phase, kind: CT.StartKind)
    requires Inv(s)
    ensures Inv(OnStart(s, index, id, phase, kind))
  {
    hide Inv;
    InvValid(s);
    match kind
    case TextStart =>
      if phase.Reasoning? {
        FlushTextInv(s);
        StartReasoningInv(FlushText(s), index, id);
      } else {
        FlushReasoningInv(s);
        StartTextInv(FlushReasoning(s), index, id, IsFinalAnswer(phase));
      }
    case ToolStart(callId, name) =>
      FlushItemsInv(s);
      StartToolInv(FlushItems(s), index, id, callId, name);
    case NoStart =>
      FlushItemsInv(s);
  }

  /**
   Protocol safety, for every stream of events however its blocks interleave: the written events are numbered 0, 1, …;
   items are added in the order of their output indices; and every item's events so far are those of a well-formed
   life, so in particular nothing is said of an item before it is added or after it is done, its parts come in order
   and one at a time, each is closed with the text of its deltas, and it is done with exactly those parts.
   */
  lemma {:induction false} ProtocolSafety(es: seq<CT.Event>)
    ensures Inv(Run(START, es))
  {
    if es != [] {
      ProtocolSafety(es[..|es| - 1]);
      StepInv(Run(START, es[..|es| - 1]), es[|es| - 1]);
    }
  }

  // ----- The same, said of the events directly -----

  ghost predicate About(sent: seq<Sent>, out: nat, k: int) {
    0 <= k < |sent| && Named(sent[k].event) == Some(out)
  }

  /** An item is heard of once it has been added. */
  ghost predicate Begun(l: Life, sent: seq<Sent>, out: nat) {
    && (forall k | About(sent, out, k) :: !l.Absent?)
    && (!l.Absent? ==> exists j :: About(sent, out, j) && sent[j].event.ItemAdded?)
  }

  /** Its end is announced in the form it then has. */
  ghost predicate Ended(l: Life, sent: seq<Sent>, out: nat) {
    && (forall k | About(sent, out, k) && sent[k].event.ItemDone? :: l == Done(sent[k].event.item))
    && (l.Done? ==> exists k :: About(sent, out, k) && sent[k].event.ItemDone?)
  }

  /** Nothing comes before the addition or after the end. */
  ghost predicate Bounded(sent: seq<Sent>, out: nat) {
    forall j, k | j < k && About(sent, out, j) && About(sent, out, k) :: !sent[j].event.ItemDone? && !sent[k].event.ItemAdded?
  }

  /** What an item's life allows next: it is added first and only then, and nothing follows the end. */
  lemma OneMoreEvent(front: seq<Sent>, x: Sent, out: nat)
    requires !LifeOf(front + [x], out).Broken?
    ensures var l, l' := LifeOf(front, out), LifeOf(front + [x], out);
            if Named(x.event) == Some(out)
            then (x.event.ItemAdded? <==> l.Absent?) && !l.Done? && !l'.Absent?
                 && (l'.Done? <==> x.event.ItemDone?) && (x.event.ItemDone? ==> l' == Done(x.event.item))
            else l' == l
  {
    assert (front + [x])[..|front|] == front;
  }

  lemma AboutMore(front: seq<Sent>, x: Sent, out: nat)
    ensures var sent, n := front + [x], |front|;
            && sent[n] == x && (About(sent, out, n) <==> Named(x.event) == Some(out))
            && (forall k :: About(front, out, k) ==> 0 <= k < n && sent[k] == front[k] && About(sent, out, k))
            && (forall k :: About(sent, out, k) ==> k == n || About(front, out, k))
  {
  }

  lemma BegunOn(front: seq<Sent>, x: Sent, out: nat)
    requires Begun(LifeOf(front, out), front, out) && !LifeOf(front + [x], out).Broken?
    ensures Begun(LifeOf(front + [x], out), front + [x], out)
  {
    hide LifeOf, Named, About;
    OneMoreEvent(front, x, out);
    AboutMore(front, x, out);
    var sent := front + [x];
    if !LifeOf(front, out).Absent? {
      var j :| About(front, out, j) && front[j].event.ItemAdded?;
      assert About(sent, out, j) && sent[j].event.ItemAdded?;
    } else if Named(x.event) == Some(out) {
      assert About(sent, out, |front|) && sent[|front|].event.ItemAdded?;
    }
  }

  lemma EndedOn(front: seq<Sent>, x: Sent, out: nat)
    requires Ended(LifeOf(front, out), front, out) && !LifeOf(front + [x], out).Broken?
    ensures Ended(LifeOf(front + [x], out), front + [x], out)
  {
    hide LifeOf, Named, About;
    OneMoreEvent(front, x, out);
    AboutMore(front, x, out);
    var sent := front + [x];
    if LifeOf(front, out).Done? {
      var j :| About(front, out, j) && front[j].event.ItemDone?;
      assert About(sent, out, j) && sent[j].event.ItemDone?;
    }
  }

  lemma BoundedOn(front: seq<Sent>, x: Sent, out: nat)
    requires Begun(LifeOf(front, out), front, out) && Ended(LifeOf(front, out), front, out) && Bounded(front, out)
    requires !LifeOf(front + [x], out).Broken?
    ensures Bounded(front + [x], out)
  {
    hide LifeOf, Named, About;
    OneMoreEvent(front, x, out);
    AboutMore(front, x, out);
  }

  lemma {:induction false} UnbrokenLived(sent: seq<Sent>, out: nat)
    requires !LifeOf(sent, out).Broken?
    ensures Begun(LifeOf(sent, out), sent, out) && Ended(LifeOf(sent, out), sent, out) && Bounded(sent, out)
  {
    if sent != [] {
      var n := |sent| - 1;
      hide Begun, Ended, Bounded, LifeOf;
      assert sent == sent[..n] + [sent[n]];
      if LifeOf(sent[..n], out).Broken? {
        BrokenForGood(sent[..n], [sent[n]], out);
      }
      UnbrokenLived(sent[..n], out);
      BegunOn(sent[..n], sent[n], out);
      EndedOn(sent[..n], sent[n], out);
      BoundedOn(sent[..n], sent[n], out);
    }
  }

  /**
   Protocol safety without the invariant: after any stream, the sequence numbers are 0, 1, …; the events about an item
   begin with the only one that adds it and end with the only one, if any, that announces it done, in the form in which
   the server has it; and there are events about exactly the items of the server.
   */
  lemma ItemLifetimes(es: seq<CT.Event>, out: nat)
    ensures var s := Run(START, es);
            && (forall k | 0 <= k < |s.sent| :: s.sent[k].sequence == k)
            && (out < |s.items| <==> exists k :: About(s.sent, out, k) && s.sent[k].event.ItemAdded?)
            && (forall k | About(s.sent, out, k) :: out < |s.items|)
            && (forall j, k | j < k && About(s.sent, out, j) && About(s.sent, out, k) ::
                  !s.sent[j].event.ItemDone? && !s.sent[k].event.ItemAdded?)
            && (forall k | About(s.sent, out, k) && s.sent[k].event.ItemDone? :: out < |s.items| && s.sent[k].event.item == s.items[out])
            && (out < |s.items| && s.items[out].completed ==> exists k :: About(s.sent, out, k) && s.sent[k].event.ItemDone?)
  {
    ProtocolSafety(es);
    AllLive(Run(START, es), out);
    hide LifeOf, Inv, Run, About;
    UnbrokenLived(Run(START, es).sent, out);
  }

  lemma AllLive(s: Server, out: nat)
    requires Inv(s)
    ensures forall k | 0 <= k < |s.sent| :: s.sent[k].sequence == k
    ensures if out < |s.items| then Settled(LifeOf(s.sent, out), s.items[out]) else LifeOf(s.sent, out).Absent?
  {
  }

  // ----- Where the items are in the response -----

  /** How many items there were when the message last started; none if none has. */
  function ItemsAtLastStart(es: seq<CT.Event>): nat {
    if es == [] then 0 else
    var n := |es| - 1;
    if es[n].payload.MessageStart? then |Run(START, es[..n]).items| else ItemsAtLastStart(es[..n])
  }

  lemma FlushBase(s: Server)
    requires s.Valid()
    ensures FlushText(s).base == FlushReasoning(s).base == FlushItems(s).base == s.base
    ensures |FlushText(s).items| == |FlushReasoning(s).items| == |FlushItems(s).items| == |s.items|
  {
  }

  lemma StartBase(s: Server, index: nat, id: string, phase: CT.Phase, kind: CT.StartKind)
    requires s.Valid()
    ensures OnStart(s, index, id, phase, kind).base == s.base
  {
    FlushBase(s);
    FlushBase(FlushText(s));
    FlushBase(FlushReasoning(s));
    hide FlushText, FlushReasoning, FlushItems;
  }

  lemma SnapshotBase(s: Server, c: CT.Content)
    requires s.Valid()
    ensures OnSnapshot(s, c).base == s.base
  {
  }

  lemma StopBase(s: Server, index: nat)
    requires s.Valid()
    ensures OnStop(s, index).base == s.base
  {
  }

  lemma StepBase(s: Server, e: CT.Event)
    requires s.Valid()
    ensures Step(s, e).base == if e.payload.MessageStart? then |s.items| else s.base
  {
    var u := s.(usage := CT.MergeUsage(s.usage, e.usage));
    FlushBase(u);
    hide FlushText, FlushReasoning, FlushItems;
    match e.payload {
      case ContentStart(index, id, phase, kind) => StartBase(u, e.payload.index, e.payload.id, e.payload.phase, e.payload.kind);
      case ContentSnapshot(c) => SnapshotBase(u, c);
      case ContentStop(index) => StopBase(FlushItems(u), index);
      case _ =>
    }
  }

  /**
   The response that is being streamed holds the items added since its message started: an item's position in its
   output is its output index, less the items of earlier messages; its output index, if there was none.
   */
  lemma {:induction false} PositionInOutput(es: seq<CT.Event>)
    ensures var s := Run(START, es);
            && s.base == ItemsAtLastStart(es) <= |s.items| && s.Response().output == s.items[ItemsAtLastStart(es)..]
            && ((forall k | 0 < k < |es| :: !es[k].payload.MessageStart?) ==> s.base == 0 && s.Response().output == s.items)
  {
    if es != [] {
      var n := |es| - 1;
      PositionInOutput(es[..n]);
      StepBase(Run(START, es[..n]), es[n]);
    }
  }
}
