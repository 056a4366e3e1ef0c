/** What a consumer of chat events may rely on: fresh indices in order, one block open at a time, one final end. */
module StreamShape {
  import opened Basics
  import opened ChatTypes

  datatype Watch = Watch(next: nat, open: Option<nat>, over: bool) | Broken

  function Watched(w: Watch, p: Payload): Watch {
    if w.Broken? || (w.over && !p.NoPayload?) then Broken else
    match p
    case MessageStart(_, _) => w
    case ContentStart(_, i, _, _) => if w.open.None? && i == w.next then Watch(w.next + 1, Some(i), false) else Broken
    case ContentDelta(i, _) => if w.open == Some(i) then w else Broken
    case ContentStop(i) => if w.open == Some(i) then w.(open := None) else Broken
    case ContentSnapshot(c) => if c.index == Some(w.next) then w.(next := w.next + 1) else Broken
    case MessageStop(_) => if w.open.None? then w.(over := true) else Broken
    case NoPayload => w
  }

  function Watching(es: seq<Event>): Watch {
    if es == [] then Watch(0, None, false) else Watched(Watching(es[..|es| - 1]), es[|es| - 1].payload)
  }

  /**
   Content indices are 0, 1, … in order; a block is started only while none is open; deltas and stops are for the open
   block; nothing is open at the end of the message, and nothing follows it.
   */
  predicate WellFormed(es: seq<Event>) {
    !Watching(es).Broken?
  }

  lemma WatchingMore(es: seq<Event>, e: Event)
    ensures Watching(es + [e]) == Watched(Watching(es), e.payload)
  {
    assert (es + [e])[..|es|] == es;
  }

  lemma {:induction false} BrokenForGood(es: seq<Event>, more: seq<Event>)
    requires es <= more && Watching(es).Broken?
    ensures Watching(more).Broken?
  {
    if es == more {
    } else {
      BrokenForGood(es, more[..|more| - 1]);
    }
  }
}
