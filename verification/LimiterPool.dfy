/**
 The limiters of all scopes as one shared, mutable pool, used by any number of concurrent requests. Each method is one
 call on one limiter, which the program performs under that limiter's lock; `Interfere` is whatever other requests and
 the clock do in between.
 */
module LimiterPools {
  import opened Basics
  import opened Limiters
  import opened LimiterHistories
  import TB = TokenBuckets

  /** What a ticket contributes to the charges of one limiter. */
  function ChargeAt(limiter: nat): Ticket -> int {
    (t: Ticket) => if t.limiter == limiter then t.charge else 0
  }

  function Outstanding(ts: seq<Ticket>, limiter: nat): int {
    SumOver(ChargeAt(limiter), ts)
  }

  /** What only charges, returns and spills move: permits free of time, and the bucket's level net of refill. */
  ghost function Level(l: Limiter): real {
    match l
    case Concurrency(_, inUse, _) => -(inUse as real)
    case Rate(b) => TB.Base(b)
    case Daily(_) => 0.0
  }

  ghost predicate SameScope(l: Limiter, l': Limiter) {
    match l
    case Concurrency(limit, _, _) => l'.Concurrency? && l'.limit == limit
    case Rate(b) => l'.Rate? && l'.bucket.rate == b.rate && l'.bucket.burst == b.burst
    case Daily(q) => l'.Daily? && l'.quota.limit == q.limit
  }

  /** The books of one limiter: what its tickets are charged accounts for its state. */
  ghost predicate Backed(l: Limiter, charges: int, opening: real, spilled: real) {
    match l
    case Concurrency(_, inUse, _) => inUse == charges
    case Rate(_) => Level(l) + charges as real + spilled == opening
    case Daily(_) => true
  }

  ghost predicate TicketOk(l: Limiter, t: Ticket) {
    && (t.acquired && !t.released ==> t.charge == Cost(l, t.units))
    && (!t.acquired ==> t.charge == 0)
    && (l.Concurrency? && t.released ==> t.charge == 0)
    && (l.Rate? ==> t.acquired)
    && t.charge >= 0
  }

  /** Tickets of one owner are as they were, and no new ones are theirs. */
  ghost predicate Kept(before: seq<Ticket>, after: seq<Ticket>, owner: nat) {
    && |before| <= |after|
    && (forall i | 0 <= i < |before| :: after[i].SameTerms(before[i]))
    && (forall i | 0 <= i < |before| && before[i].owner == owner :: after[i] == before[i])
    && (forall i | |before| <= i < |after| :: after[i].owner != owner)
  }

  /** The same, except for the one ticket its owner works on. */
  ghost predicate KeptBut(id: nat, before: seq<Ticket>, after: seq<Ticket>, owner: nat) {
    id < |before| <= |after| && Kept(before[id := after[id]], after, owner)
  }

  /** A ticket that is as it was, or has been acquired since. */
  ghost predicate Progress(t: Ticket, t': Ticket) {
    t' == t || (!t.acquired && !t.released && t'.acquired && t'.units == t.units && t' == t.(acquired := true, charge := t'.charge))
  }

  lemma KeptTransitive(a: seq<Ticket>, b: seq<Ticket>, c: seq<Ticket>, owner: nat)
    requires Kept(a, b, owner) && Kept(b, c, owner)
    ensures Kept(a, c, owner)
  {
  }

  lemma KeptUpdate(a: seq<Ticket>, b: seq<Ticket>, id: nat, t: Ticket, owner: nat)
    requires Kept(a, b, owner) && id < |a|
    ensures Kept(a[id := t], b[id := t], owner)
  {
  }

  lemma KeptButTransitive(id: nat, a: seq<Ticket>, b: seq<Ticket>, c: seq<Ticket>, owner: nat)
    requires KeptBut(id, a, b, owner) && KeptBut(id, b, c, owner)
    ensures KeptBut(id, a, c, owner)
  {
    KeptUpdate(a[id := b[id]], b, id, c[id], owner);
    assert a[id := b[id]][id := c[id]] == a[id := c[id]];
    KeptTransitive(a[id := c[id]], b[id := c[id]], c, owner);
  }

  ghost predicate InScope(scopes: seq<Limiter>, ls: seq<Limiter>) {
    |scopes| == |ls| && forall l | 0 <= l < |ls| :: SameScope(scopes[l], ls[l])
  }

  ghost predicate TicketsOk(ls: seq<Limiter>, ts: seq<Ticket>) {
    forall i | 0 <= i < |ts| :: ts[i].limiter < |ls| && TicketOk(ls[ts[i].limiter], ts[i])
  }

  ghost predicate AllBacked(ls: seq<Limiter>, ts: seq<Ticket>, opening: seq<real>, spilled: seq<real>) {
    && |opening| == |spilled| == |ls|
    && forall l | 0 <= l < |ls| :: Backed(ls[l], Outstanding(ts, l), opening[l], spilled[l])
  }

  lemma ScopesChain(a: Limiter, b: Limiter, c: Limiter)
    requires SameScope(a, b) && SameScope(b, c)
    ensures SameScope(a, c)
  {
  }

  lemma TicketsStillOk(ls: seq<Limiter>, ts: seq<Ticket>, l: nat, x: Limiter)
    requires TicketsOk(ls, ts) && l < |ls| && SameScope(ls[l], x)
    ensures TicketsOk(ls[l := x], ts)
  {
  }

  /** A ticket and its limiter have changed by what balances. */
  lemma BackedAfter(ls: seq<Limiter>, ts: seq<Ticket>, opening: seq<real>, spilled: seq<real>, id: nat, x: Limiter, t: Ticket, spill: real)
    requires AllBacked(ls, ts, opening, spilled) && id < |ts| && ts[id].limiter < |ls| && t.limiter == ts[id].limiter
    requires SameScope(ls[t.limiter], x) && (ls[t.limiter].Concurrency? ==> spill == 0.0)
    requires !ls[t.limiter].Daily? ==> Level(x) + (t.charge - ts[id].charge) as real + spill == Level(ls[t.limiter])
    ensures AllBacked(ls[t.limiter := x], ts[id := t], opening, spilled[t.limiter := spilled[t.limiter] + spill])
  {
    hide Level, Outstanding;
    forall l | 0 <= l < |ls| ensures Outstanding(ts[id := t], l) == Outstanding(ts, l) + if l == t.limiter then t.charge - ts[id].charge else 0 {
      OutstandingAfter(ts, id, t, l);
    }
    BackedOne(ls[t.limiter], Outstanding(ts, t.limiter), opening[t.limiter], spilled[t.limiter], x, t.charge - ts[id].charge, spill);
  }

  lemma BackedWith(ls: seq<Limiter>, ts: seq<Ticket>, opening: seq<real>, spilled: seq<real>, x: Limiter, t: Ticket, spill: real)
    requires AllBacked(ls, ts, opening, spilled) && t.limiter < |ls|
    requires SameScope(ls[t.limiter], x) && (ls[t.limiter].Concurrency? ==> spill == 0.0)
    requires !ls[t.limiter].Daily? ==> Level(x) + t.charge as real + spill == Level(ls[t.limiter])
    ensures AllBacked(ls[t.limiter := x], ts + [t], opening, spilled[t.limiter := spilled[t.limiter] + spill])
  {
    hide Level, Outstanding;
    forall l | 0 <= l < |ls| ensures Outstanding(ts + [t], l) == Outstanding(ts, l) + if l == t.limiter then t.charge else 0 {
      OutstandingWith(ts, t, l);
    }
    BackedOne(ls[t.limiter], Outstanding(ts, t.limiter), opening[t.limiter], spilled[t.limiter], x, t.charge, spill);
  }

  lemma OutstandingWith(ts: seq<Ticket>, t: Ticket, l: nat)
    ensures Outstanding(ts + [t], l) == Outstanding(ts, l) + if l == t.limiter then t.charge else 0
  {
    SumAppend(ChargeAt(l), ts, t);
  }

  lemma OutstandingAfter(ts: seq<Ticket>, id: nat, t: Ticket, l: nat)
    requires id < |ts| && t.limiter == ts[id].limiter
    ensures Outstanding(ts[id := t], l) == Outstanding(ts, l) + if l == t.limiter then t.charge - ts[id].charge else 0
  {
    SumUpdate(ChargeAt(l), ts, id, t);
  }

  lemma BackedOne(l: Limiter, charges: int, opening: real, spilled: real, x: Limiter, more: int, spill: real)
    requires Backed(l, charges, opening, spilled) && SameScope(l, x) && (l.Concurrency? ==> spill == 0.0)
    requires !l.Daily? ==> Level(x) + more as real + spill == Level(l)
    ensures Backed(x, charges + more, opening, spilled + spill)
  {
  }

  ghost predicate Unused(l: Limiter) {
    (l.Concurrency? ==> l.inUse == 0) && (l.Daily? ==> l.quota.used == 0)
  }

  /** Limiters and tickets are what the calls made so far, by whomever, have made of fresh limiters. */
  ghost predicate History(start: seq<Limiter>, log: seq<Call>, ls: seq<Limiter>, ts: seq<Ticket>, clock: real) {
    && (forall l <- start :: Unused(l))
    && Replay(start, log) == Some(Ledger(ls, ts)) && InOrder(log, clock)
  }

  lemma Logged(start: seq<Limiter>, log: seq<Call>, ls: seq<Limiter>, ts: seq<Ticket>, clock: real, c: Call, ls': seq<Limiter>, ts': seq<Ticket>)
    requires History(start, log, ls, ts, clock) && c.at == clock && Do(Ledger(ls, ts), c) == Some(Ledger(ls', ts'))
    ensures History(start, log + [c], ls', ts', clock)
  {
    ReplayMore(start, log, c);
    InOrderMore(log, clock, c);
  }

  lemma Later(start: seq<Limiter>, log: seq<Call>, ls: seq<Limiter>, ts: seq<Ticket>, clock: real, clock': real)
    requires History(start, log, ls, ts, clock) && clock <= clock'
    ensures History(start, log, ls, ts, clock')
  {
  }

  class LimiterPool {
    var limiters: seq<Limiter>
    var tickets: seq<Ticket>
    var clock: real
    const scopes: seq<Limiter>                             // the limiters as created: their kinds and limits
    ghost const opening: seq<real>
    ghost var spilled: seq<real>
    ghost var log: seq<Call>                               // every call made on the pool

    /** The books of all limiters balance. */
    ghost predicate Balanced()
      reads `limiters, `tickets, `clock, `spilled
    {
      && InScope(scopes, limiters) && PoolWellFormed(limiters, clock) && TicketsOk(limiters, tickets)
      && AllBacked(limiters, tickets, opening, spilled)
    }

    ghost predicate Valid()
      reads this
    {
      Balanced() && History(scopes, log, limiters, tickets, clock)
    }

    /** Fresh limiters: no permit held, nothing used, buckets full, no reservations. */
    constructor (limiters: seq<Limiter>, now: real)
      requires PoolWellFormed(limiters, now) && forall l <- limiters :: Unused(l)
      ensures Valid() && this.limiters == scopes == limiters && tickets == [] && log == [] && clock == now
    {
      this.limiters, tickets, clock, scopes, log := limiters, [], now, limiters, [];
      opening := seq(|limiters|, i requires 0 <= i < |limiters| => Level(limiters[i]));
      spilled := seq(|limiters|, _ => 0.0);
      assert forall k | 0 <= k < |limiters| :: Unused(limiters[k]) && SameScope(limiters[k], limiters[k]);
    }

    /** Makes a call part of the history, once its effect has been made. */
    ghost method Log(c: Call, ls: seq<Limiter>, ts: seq<Ticket>)
      requires Balanced() && History(scopes, log, ls, ts, clock)
      requires c.at == clock && Do(Ledger(ls, ts), c) == Some(Ledger(limiters, tickets))
      modifies `log
      ensures Valid() && log == old(log) + [c]
    {
      hide Do, Balanced, History;
      Logged(scopes, log, ls, ts, clock, c, limiters, tickets);
      log := log + [c];
    }

    /** Replaces a limiter by what looking at it, or hearing of a wait, made of it. */
    method SetLimiterTo(l: nat, x: Limiter)
      requires Balanced() && l < |limiters| && WellFormed(x) && SameScope(limiters[l], x) && Level(x) == Level(limiters[l])
      requires (x.Rate? ==> x == limiters[l]) && (x.Concurrency? ==> x.inUse == limiters[l].inUse)
      modifies `limiters
      ensures Balanced() && limiters == old(limiters)[l := x]
    {
      hide Outstanding;
      limiters := limiters[l := x];
    }

    method Probe(l: nat, units: nat, ghost who: nat) returns (delay: Delay)
      requires Valid() && l < |limiters|
      modifies this
      ensures Valid() && tickets == old(tickets) && clock == old(clock)
      ensures delay == Limiters.Probe(old(limiters)[l], clock, units)
      ensures NormalAll(limiters, clock) == NormalAll(old(limiters), clock)
      ensures log == old(log) + [ProbeCall(who, clock, l, units, delay)]
    {
      hide History, Limiters.Probe, TicketDelay;
      ghost var t: Ticket, ls := *, limiters;
      delay := Limiters.Probe(limiters[l], clock, units);
      LookingShowsNormal(limiters[l], clock, units, t);
      SetLimiterTo(l, Probed(limiters[l], clock, units));
      Log(ProbeCall(who, clock, l, units, delay), ls, tickets);
    }

    method Reserve(l: nat, units: nat, owner: nat) returns (id: Option<nat>)
      requires Valid() && l < |limiters|
      modifies this
      ensures Valid() && clock == old(clock)
      ensures match Limiters.Reserve(old(limiters)[l], clock, units)
              case None => id.None? && limiters == old(limiters) && tickets == old(tickets)
              case Some((l', ok)) =>
                && id == Some(|old(tickets)|)
                && limiters == old(limiters)[l := l']
                && tickets == old(tickets) + [NewTicket(l', l, owner, clock, units, ok)]
      ensures log == old(log) + [ReserveCall(owner, clock, l, units, id)]
    {
      hide Limiters.Reserve, History, Do;
      ghost var ls, ts := limiters, tickets;
      ReserveDone(ls, ts, owner, clock, l, units);
      ProbePredictsReserve(limiters[l], l, owner, clock, units);
      match Limiters.Reserve(limiters[l], clock, units) {
        case None =>
          id := None;
        case Some((l', ok)) =>
          id := Some(|tickets|);
          AddTicket(l, l', NewTicket(l', l, owner, clock, units, ok), units, ok);
      }
      Log(ReserveCall(owner, clock, l, units, id), ls, ts);
    }

    lemma ReserveDone(ls: seq<Limiter>, ts: seq<Ticket>, owner: nat, now: real, l: nat, units: nat)
      requires l < |ls| && WellFormed(ls[l])
      ensures match Limiters.Reserve(ls[l], now, units)
              case None => Do(Ledger(ls, ts), ReserveCall(owner, now, l, units, None)) == Some(Ledger(ls, ts))
              case Some((l', ok)) =>
                WellFormed(l') ==>
                  Do(Ledger(ls, ts), ReserveCall(owner, now, l, units, Some(|ts|))) ==
                  Some(Ledger(ls[l := l'], ts + [NewTicket(l', l, owner, now, units, ok)]))
    {
      hide Limiters.Reserve, NewTicket;
    }

    /** Lists a new ticket and charges its limiter. */
    method AddTicket(l: nat, l': Limiter, t: Ticket, ghost units: nat, ghost ok: bool)
      requires Balanced() && l < |limiters| && WellFormed(l')
      requires Limiters.Reserve(limiters[l], clock, units) == Some((l', ok)) && t == NewTicket(l', l, t.owner, clock, units, ok)
      modifies `limiters, `tickets, `spilled
      ensures Balanced() && limiters == old(limiters)[l := l'] && tickets == old(tickets) + [t]
    {
      hide Limiters.Reserve, Spill, Backed, Outstanding, SameScope, TicketOk;
      ReserveKeepsBooks(limiters[l], l, clock, units, t);
      ghost var spill := Spill(limiters[l], clock, 0.0);
      BackedWith(limiters, tickets, opening, spilled, l', t, spill);
      TicketsStillOk(limiters, tickets, l, l');
      ScopesChain(scopes[l], limiters[l], l');
      spilled := spilled[l := spilled[l] + spill];
      limiters, tickets := limiters[l := l'], tickets + [t];
    }

    /** Replaces a ticket and the state of its limiter by what a settlement or an acquisition made of them. */
    method Replace(id: nat, l': Limiter, t': Ticket, ghost spill: real)
      requires Balanced() && id < |tickets|
      requires var t := tickets[id];
               var l := limiters[t.limiter];
               && t'.limiter == t.limiter && t'.owner == t.owner && t'.units == t.units && TicketOk(l', t')
               && WellFormed(l') && SameScope(l, l') && (l'.Rate? ==> l'.bucket.lastUpdate <= clock)
               && (!l.Daily? ==> Level(l') + (t'.charge - t.charge) as real + spill == Level(l))
               && (l.Concurrency? ==> spill == 0.0)
      modifies `limiters, `tickets, `spilled
      ensures Balanced()
      ensures limiters == old(limiters)[old(tickets)[id].limiter := l'] && tickets == old(tickets)[id := t']
    {
      hide Backed, Outstanding, SameScope, TicketOk;
      var l := tickets[id].limiter;
      BackedAfter(limiters, tickets, opening, spilled, id, l', t', spill);
      TicketsStillOk(limiters, tickets, l, l');
      ScopesChain(scopes[l], limiters[l], l');
      spilled := spilled[l := spilled[l] + spill];
      limiters, tickets := limiters[l := l'], tickets[id := t'];
    }

    method Settle(id: nat, actual: nat)
      requires Valid() && id < |tickets|
      modifies this
      ensures Valid() && clock == old(clock)
      ensures var t := old(tickets)[id];
              var (l', t') := Limiters.Settle(old(limiters)[t.limiter], t, clock, actual);
              limiters == old(limiters)[t.limiter := l'] && tickets == old(tickets)[id := t']
      ensures log == old(log) + [SettleCall(old(tickets)[id].owner, clock, id, actual)]
    {
      hide History;
      ghost var ls, ts, c := limiters, tickets, SettleCall(tickets[id].owner, clock, id, actual);
      SettleTicket(id, actual);
      Log(c, ls, ts);
    }

    method SettleTicket(id: nat, actual: nat)
      requires Balanced() && id < |tickets|
      modifies `limiters, `tickets, `spilled
      ensures Balanced()
      ensures var t := old(tickets)[id];
              var (l', t') := Limiters.Settle(old(limiters)[t.limiter], t, clock, actual);
              limiters == old(limiters)[t.limiter := l'] && tickets == old(tickets)[id := t']
    {
      var t := tickets[id];
      var l := limiters[t.limiter];
      var (l', t') := Limiters.Settle(l, t, clock, actual);
      SettleKeepsBooks(l, t, clock, actual);
      if l.Concurrency? && t.acquired && !t.released {
        ChargesAtLeast(tickets, id);
      }
      Replace(id, l', t', if t' == t || t.units == actual then 0.0 else Spill(l, clock, (t.units - actual) as real));
    }

    method Complete(id: nat)
      requires Valid() && id < |tickets|
      modifies this
      ensures Valid() && clock == old(clock)
      ensures var t := old(tickets)[id];
              var (l', t') := CompleteRequest(old(limiters)[t.limiter], t, clock);
              limiters == old(limiters)[t.limiter := l'] && tickets == old(tickets)[id := t']
      ensures log == old(log) + [CompleteCall(old(tickets)[id].owner, clock, id)]
    {
      hide History;
      ghost var ls, ts, c := limiters, tickets, CompleteCall(tickets[id].owner, clock, id);
      var t := tickets[id];
      var l := limiters[t.limiter];
      if l.Concurrency? {
        SettleTicket(id, 0);
      } else {
        Replace(id, l, t.(released := true), 0.0);
      }
      Log(c, ls, ts);
    }

    /** One attempt of a waiting reservation to acquire. */
    method Acquire(id: nat)
      requires Valid() && id < |tickets|
      modifies this
      ensures Valid() && clock == old(clock)
      ensures var t := old(tickets)[id];
              var (l', t') := Limiters.Acquire(old(limiters)[t.limiter], t, clock);
              limiters == old(limiters)[t.limiter := l'] && tickets == old(tickets)[id := t']
      ensures log == old(log) + [AttemptCall(old(tickets)[id].owner, clock, id)]
    {
      hide History;
      ghost var ls, ts, c := limiters, tickets, AttemptCall(tickets[id].owner, clock, id);
      var t := tickets[id];
      var (l', t') := Limiters.Acquire(limiters[t.limiter], t, clock);
      Replace(id, l', t', 0.0);
      Log(c, ls, ts);
    }

    /** The observed waits move the concurrency estimate, which stays positive. */
    method RecordWaitTime(l: nat, waited: real, ghost who: nat)
      requires Valid() && l < |limiters| && waited >= 0.0
      modifies this
      ensures Valid() && clock == old(clock) && tickets == old(tickets)
      ensures limiters == if !old(limiters)[l].Concurrency? then old(limiters) else
                          old(limiters)[l := old(limiters)[l].(estimate := Smoothed(old(limiters)[l].estimate, waited))]
      ensures log == old(log) + [ObserveCall(who, clock, l, waited)]
    {
      hide History;
      ghost var ls := limiters;
      if limiters[l].Concurrency? {
        var estimate := Smoothed(limiters[l].estimate, waited);
        assert estimate > 0.0;
        SetLimiterTo(l, limiters[l].(estimate := estimate));
      }
      Log(ObserveCall(who, clock, l, waited), ls, tickets);
    }

    method Tick()
      requires Valid()
      modifies `clock
      ensures Valid() && clock >= old(clock)
    {
      var d: real := *;
      if d > 0.0 {
        Later(scopes, log, limiters, tickets, clock, clock + d);
        clock := clock + d;
      }
    }

    /** Lets time pass until `to`. */
    method Sleep(to: real)
      requires Valid()
      modifies `clock
      ensures Valid() && clock == MaxReal(old(clock), to)
    {
      if clock < to {
        Later(scopes, log, limiters, tickets, clock, to);
        clock := to;
      }
    }

    /** One call of a request other than `me`, or none. */
    method OneByOthers(me: nat)
      requires Valid()
      modifies this
      ensures Valid() && clock == old(clock) && Kept(old(tickets), tickets, me) && Moves(log, me) == Moves(old(log), me)
    {
      hide History, Balanced, Moves;
      var id: nat, n: nat, owner: nat := *, *, *;
      ghost var before := log;
      if {
        case id < |limiters| && owner != me => var _ := Probe(id, n, owner);
        case id < |limiters| && owner != me => RecordWaitTime(id, n as real, owner);
        case id < |limiters| && owner != me => var _ := Reserve(id, n, owner);
        case id < |tickets| && tickets[id].owner != me => TicketInPool(id); Settle(id, n);
        case id < |tickets| && tickets[id].owner != me => TicketInPool(id); Complete(id);
        case id < |tickets| && tickets[id].owner != me => TicketInPool(id); Acquire(id);
        case id < |tickets| && tickets[id].owner != me => var _ := DelayOf(id);
        case true => return;
      }
      MovesMore(before, log[|before|], me);
    }

    lemma TicketInPool(id: nat)
      requires Valid() && id < |tickets|
      ensures tickets[id].limiter < |limiters| == |scopes| && WellFormed(limiters[tickets[id].limiter])
      ensures SameScope(scopes[tickets[id].limiter], limiters[tickets[id].limiter]) && TicketOk(limiters[tickets[id].limiter], tickets[id])
    {
    }

    /** Any finite activity of requests other than `me`, with time passing. */
    method Interfere(me: nat)
      requires Valid()
      modifies this
      ensures Valid() && clock >= old(clock) && Kept(old(tickets), tickets, me) && Moves(log, me) == Moves(old(log), me)
    {
      var steps: nat := *;
      while steps > 0
        invariant Valid() && clock >= old(clock) && Kept(old(tickets), tickets, me) && Moves(log, me) == Moves(old(log), me)
        decreases steps
      {
        hide Valid, Kept;
        Tick();
        ghost var before := tickets;
        OneByOthers(me);
        KeptTransitive(old(tickets), before, tickets, me);
        steps := steps - 1;
      }
    }

    /** The delay of a reservation now. */
    method DelayOf(id: nat) returns (delay: Delay)
      requires Valid() && id < |tickets|
      modifies this
      ensures Valid() && tickets == old(tickets) && clock == old(clock)
      ensures tickets[id].limiter < |old(limiters)| && WellFormed(old(limiters)[tickets[id].limiter])
      ensures delay == TicketDelay(old(limiters)[tickets[id].limiter], tickets[id], clock)
      ensures NormalAll(limiters, clock) == NormalAll(old(limiters), clock)
      ensures log == old(log) + [DelayCall(old(tickets)[id].owner, clock, id, delay)]
    {
      hide History, TicketDelay, Limiters.Probe;
      ghost var ls := limiters;
      TicketInPool(id);
      var t := tickets[id];
      delay := TicketDelay(limiters[t.limiter], t, clock);
      if !t.acquired {
        LookingShowsNormal(limiters[t.limiter], clock, t.units, t);
        SetLimiterTo(t.limiter, Probed(limiters[t.limiter], clock, t.units));
      }
      assert ls[t.limiter := ls[t.limiter]] == ls && tickets[id := t] == tickets;
      Log(DelayCall(t.owner, clock, id, delay), ls, tickets);
    }

    /** One turn of a waiting request: others act, then it tries to acquire. */
    method Attempt(id: nat, me: nat, start: real)
      requires Valid() && id < |tickets| && tickets[id].owner == me && start <= clock
      modifies this
      ensures Valid() && clock >= old(clock)
      ensures KeptBut(id, old(tickets), tickets, me) && Progress(old(tickets)[id], tickets[id])
      ensures Moves(log, me) == Moves(old(log), me)
    {
      hide History, Balanced, Moves;
      Interfere(me);
      ghost var before, calls := tickets, log;
      TicketInPool(id);
      var l := tickets[id].limiter;
      Acquire(id);
      MovesMore(calls, log[|calls|], me);
      KeptUpdate(old(tickets), before, id, tickets[id], me);
      calls := log;
      TicketInPool(id);
      if limiters[l].Concurrency? && tickets[id].acquired {
        RecordWaitTime(l, clock - start, me);
        MovesMore(calls, log[|calls|], me);
      }
    }

    /**
     Waits for one reservation of `me` while others act: on success it is acquired and, in a bucket, ready; on failure
     (the request's context was cancelled) it is as before.
     */
    method Wait(id: nat, me: nat) returns (ok: bool)
      requires Valid() && id < |tickets| && tickets[id].owner == me && !tickets[id].released
      modifies this
      ensures Valid() && clock >= old(clock)
      ensures KeptBut(id, old(tickets), tickets, me) && Progress(old(tickets)[id], tickets[id])
      ensures ok ==> tickets[id].acquired && (tickets[id].limiter < |scopes| && scopes[tickets[id].limiter].Rate? ==> tickets[id].readyAt <= clock)
      ensures !ok ==> tickets[id] == old(tickets)[id]
      ensures exists c: Call :: c.WaitCall? && c.ticket == id && c.ok == ok && Moves(log, me) == Moves(old(log), me) + [c]
    {
      hide History, Balanced, Moves;
      TicketInPool(id);
      if scopes[tickets[id].limiter].Rate? {
        ok := WaitUntilReady(id, me);
      } else {
        ok := WaitToAcquire(id, me);
      }
      TicketInPool(id);
      ghost var c, calls := WaitCall(me, clock, id, ok), log;
      WaitEnded(limiters, tickets, c);
      Log(c, limiters, tickets);
      MovesMore(calls, c, me);
    }

    method WaitUntilReady(id: nat, me: nat) returns (ok: bool)
      requires Valid() && id < |tickets| && tickets[id].owner == me && tickets[id].limiter < |scopes| && scopes[tickets[id].limiter].Rate?
      modifies this
      ensures Valid() && clock >= old(clock) && Moves(log, me) == Moves(old(log), me)
      ensures KeptBut(id, old(tickets), tickets, me) && tickets[id] == old(tickets)[id]
      ensures ok ==> tickets[id].acquired && tickets[id].readyAt <= clock
    {
      hide History, Balanced, Moves;
      Interfere(me);
      KeptUpdate(old(tickets), tickets, id, tickets[id], me);
      TicketInPool(id);
      ok := *;
      if ok {
        Sleep(tickets[id].readyAt);
      }
    }

    method WaitToAcquire(id: nat, me: nat) returns (ok: bool)
      requires Valid() && id < |tickets| && tickets[id].owner == me && tickets[id].limiter < |scopes| && !scopes[tickets[id].limiter].Rate?
      modifies this
      ensures Valid() && clock >= old(clock) && Moves(log, me) == Moves(old(log), me)
      ensures KeptBut(id, old(tickets), tickets, me) && Progress(old(tickets)[id], tickets[id])
      ensures ok == tickets[id].acquired
    {
      hide History, Balanced, Moves;
      var start := clock;
      var attempts: nat := *;
      while attempts > 0 && !tickets[id].acquired
        invariant Valid() && clock >= old(clock) && Moves(log, me) == Moves(old(log), me)
        invariant KeptBut(id, old(tickets), tickets, me) && Progress(old(tickets)[id], tickets[id])
        decreases attempts
      {
        ghost var before := tickets;
        Attempt(id, me, start);
        KeptButTransitive(id, old(tickets), before, tickets, me);
        attempts := attempts - 1;
      }
      ok := tickets[id].acquired;
    }
  }

  lemma WaitEnded(ls: seq<Limiter>, ts: seq<Ticket>, c: Call)
    requires c.WaitCall? && c.ticket < |ts| && ts[c.ticket].owner == c.who && ts[c.ticket].limiter < |ls|
    requires WellFormed(ls[ts[c.ticket].limiter])
    requires c.ok ==> ts[c.ticket].acquired && (ls[ts[c.ticket].limiter].Rate? ==> ts[c.ticket].readyAt <= c.at)
    ensures Do(Ledger(ls, ts), c) == Some(Ledger(ls, ts))
  {
    var t := ts[c.ticket];
    assert ls[t.limiter := ls[t.limiter]] == ls && ts[c.ticket := t] == ts;
  }

  // ----- Why the books balance -----

  ghost function Spill(l: Limiter, now: real, diff: real): real
  {
    if l.Rate? then TB.Overflow(l.bucket, now, diff) else 0.0
  }

  lemma ReserveKeepsBooks(l: Limiter, id: nat, now: real, units: nat, t: Ticket)
    requires WellFormed(l) && (l.Rate? ==> l.bucket.lastUpdate <= now)
    requires match Reserve(l, now, units)
             case None => false
             case Some((l', ok)) => WellFormed(l') && t == NewTicket(l', id, t.owner, now, units, ok)
    ensures var (l', ok) := Reserve(l, now, units).value;
            && SameScope(l, l') && TicketOk(l', t) && (l'.Rate? ==> l'.bucket.lastUpdate == now)
            && (!l.Daily? ==> Level(l') + t.charge as real + Spill(l, now, 0.0) == Level(l))
            && (l.Concurrency? ==> Spill(l, now, 0.0) == 0.0)
  {
    if l.Rate? {
      TB.ChargeMovesBase(l.bucket, now, units as real);
    }
  }

  lemma SettleKeepsBooks(l: Limiter, t: Ticket, now: real, actual: nat)
    requires WellFormed(l) && TicketOk(l, t) && (l.Rate? ==> l.bucket.lastUpdate <= now)
    ensures var (l', t') := Settle(l, t, now, actual);
            && SameScope(l, l') && TicketOk(l', t')
            && (l'.Rate? ==> WellFormed(l') && l'.bucket.lastUpdate <= now)
            && (l'.Daily? ==> WellFormed(l'))
            && var spill := if t' == t || t.units == actual then 0.0 else Spill(l, now, (t.units - actual) as real);
               (!l.Daily? ==> Level(l') + (t'.charge - t.charge) as real + spill == Level(l))
  {
    if l.Rate? && t.units != actual {
      TB.AdjustMovesBase(l.bucket, now, (t.units - actual) as real);
    }
  }

  lemma {:induction false} SumNonNegative(ts: seq<Ticket>, limiter: nat)
    requires forall t <- ts :: t.charge >= 0
    ensures Outstanding(ts, limiter) >= 0
  {
    if ts != [] {
      SumNonNegative(ts[..|ts| - 1], limiter);
    }
  }

  /** A held ticket is part of what is outstanding. */
  lemma ChargesAtLeast(ts: seq<Ticket>, id: nat)
    requires id < |ts| && forall t <- ts :: t.charge >= 0
    ensures Outstanding(ts, ts[id].limiter) >= ts[id].charge
  {
    var t := ts[id].(charge := 0);
    SumUpdate(ChargeAt(t.limiter), ts, id, t);
    SumNonNegative(ts[id := t], t.limiter);
  }

  // ----- Permits -----

  function HoldsPermit(limiter: nat): Ticket -> int {
    (t: Ticket) => if t.limiter == limiter && t.acquired && !t.released then 1 else 0
  }

  lemma {:induction false} ChargesArePermits(ts: seq<Ticket>, limiter: nat, l: Limiter)
    requires l.Concurrency? && forall i | 0 <= i < |ts| && ts[i].limiter == limiter :: TicketOk(l, ts[i])
    ensures Outstanding(ts, limiter) == SumOver(HoldsPermit(limiter), ts)
  {
    if ts != [] {
      ChargesArePermits(ts[..|ts| - 1], limiter, l);
    }
  }

  /**
   In every state any interleaving of requests can reach, the permits a concurrency limiter has out are those of the
   reservations acquired and not yet released, and they never exceed the limit.
   */
  lemma PermitsHeld(pool: LimiterPool, limiter: nat)
    requires pool.Valid() && limiter < |pool.limiters| && pool.limiters[limiter].Concurrency?
    ensures pool.limiters[limiter].inUse == SumOver(HoldsPermit(limiter), pool.tickets) <= pool.limiters[limiter].limit
  {
    ChargesArePermits(pool.tickets, limiter, pool.limiters[limiter]);
  }

  /** A settled reservation stays as it is: settling again, at any time, changes neither it nor its limiter. */
  lemma SettledOnce(l: Limiter, t: Ticket, now: real, actual: nat, later: real, again: nat)
    ensures var (l', t') := Settle(l, t, now, actual);
            (t.acquired ==> t'.released) && Settle(l', t', later, again) == (l', t') && Settle(l', t', later, 0) == (l', t')
  {
  }
}
