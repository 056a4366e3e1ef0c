/**
 All reservations held for one elected model: reserved together or not at all, waited for together, and settled
 together by cancelling or completing.
 */
module ReservationSets {
  import opened Basics
  import opened Limiters
  import opened LimiterHistories
  import opened LimiterPools
  import opened Refunds

  /**
   A request's side of the books. Since `before`, its earlier tickets have not moved, it holds the unsettled tickets
   `ids`, and every other ticket it has made is charged nothing, and settled if it was ever acquired.
   */
  ghost predicate Books(before: seq<Ticket>, now: seq<Ticket>, me: nat, ids: set<nat>) {
    && |before| <= |now|
    && (forall i | 0 <= i < |before| :: now[i].SameTerms(before[i]) && (now[i].owner == me ==> now[i] == before[i]))
    && (forall id <- ids :: |before| <= id < |now| && now[id].owner == me && !now[id].released)
    && (forall i | |before| <= i < |now| && now[i].owner == me && i !in ids ::
          now[i].charge == 0 && (now[i].acquired ==> now[i].released))
  }

  lemma BooksKept(before: seq<Ticket>, now: seq<Ticket>, now': seq<Ticket>, me: nat, ids: set<nat>)
    requires Books(before, now, me, ids) && Kept(now, now', me)
    ensures Books(before, now', me, ids)
  {
  }

  lemma BooksUpdate(before: seq<Ticket>, now: seq<Ticket>, id: nat, t: Ticket, me: nat, ids: set<nat>)
    requires Books(before, now, me, ids) && id in ids && t.owner == me && !t.released
    ensures Books(before, now[id := t], me, ids)
  {
  }

  lemma BooksDrop(before: seq<Ticket>, now: seq<Ticket>, id: nat, t: Ticket, me: nat, ids: set<nat>)
    requires Books(before, now, me, ids) && id in ids && t.owner == me && t.charge == 0 && (t.acquired ==> t.released)
    ensures Books(before, now[id := t], me, ids - {id})
  {
  }

  lemma BooksAppend(before: seq<Ticket>, now: seq<Ticket>, t: Ticket, me: nat, ids: set<nat>)
    requires Books(before, now, me, ids) && t.owner == me && !t.released
    ensures Books(before, now + [t], me, ids + {|now|})
  {
  }

  ghost function SetOf(ids: seq<nat>): set<nat> {
    set id | id in ids
  }

  ghost predicate Distinct(ids: seq<nat>) {
    forall i, j | 0 <= i < j < |ids| :: ids[i] != ids[j]
  }

  /** The tickets an id list names belong to these limiters, in this order, each for these units. */
  ghost predicate Names(ts: seq<Ticket>, ids: seq<nat>, limiters: seq<nat>, units: nat) {
    && |ids| == |limiters|
    && forall k | 0 <= k < |ids| :: ids[k] < |ts| && ts[ids[k]].limiter == limiters[k] && ts[ids[k]].units == units
  }

  ghost predicate Held(ids: seq<nat>, held: set<nat>) {
    forall k | 0 <= k < |ids| :: ids[k] in held
  }

  /** What waiting does to the tickets of a set: those not acquired may be, and nothing else. */
  ghost predicate Waited(ts: seq<Ticket>, ts': seq<Ticket>, held: set<nat>) {
    && |ts| <= |ts'|
    && (forall i | 0 <= i < |ts| :: ts'[i].SameTerms(ts[i]))
    && (forall id <- held :: id < |ts| && (ts[id].acquired ==> ts'[id] == ts[id]))
  }

  lemma WaitedTransitive(a: seq<Ticket>, b: seq<Ticket>, c: seq<Ticket>, held: set<nat>)
    requires Waited(a, b, held) && Waited(b, c, held)
    ensures Waited(a, c, held)
  {
  }

  lemma BooksKeptBut(before: seq<Ticket>, now: seq<Ticket>, now': seq<Ticket>, id: nat, me: nat, ids: set<nat>)
    requires Books(before, now, me, ids) && id in ids && KeptBut(id, now, now', me) && Progress(now[id], now'[id])
    ensures Books(before, now', me, ids) && Waited(now, now', ids)
  {
    BooksUpdate(before, now, id, now'[id], me, ids);
    BooksKept(before, now[id := now'[id]], now', me, ids);
  }

  /** A reservation that is charged to its limiter and whose time has come. */
  ghost predicate Ready(scopes: seq<Limiter>, clock: real, t: Ticket) {
    t.acquired && (t.limiter < |scopes| && scopes[t.limiter].Rate? ==> t.readyAt <= clock)
  }

  /** The same, but for daily limiters, whose reservations may lack what they were reserved for. */
  ghost predicate ReadyButDaily(scopes: seq<Limiter>, clock: real, t: Ticket) {
    Ready(scopes, clock, t) || (t.limiter < |scopes| && scopes[t.limiter].Daily?)
  }

  ghost predicate AllButDaily(scopes: seq<Limiter>, clock: real, ts: seq<Ticket>, ids: seq<nat>) {
    forall k | 0 <= k < |ids| :: ids[k] < |ts| && ReadyButDaily(scopes, clock, ts[ids[k]])
  }

  /** A ticket without delay is ready, unless it is for a daily quota. */
  lemma NoDelayIsReady(scope: Limiter, l: Limiter, t: Ticket, now: real)
    requires WellFormed(l) && SameScope(scope, l) && TicketOk(l, t) && TicketDelay(l, t, now) == ZERO
    ensures l.Daily? || (t.acquired && (l.Rate? ==> t.readyAt <= now))
  {
  }

  ghost predicate AllReady(scopes: seq<Limiter>, clock: real, ts: seq<Ticket>, ids: seq<nat>) {
    forall k | 0 <= k < |ids| :: ids[k] < |ts| && Ready(scopes, clock, ts[ids[k]])
  }

  lemma StillReady(scopes: seq<Limiter>, clock: real, clock': real, ts: seq<Ticket>, ts': seq<Ticket>, ids: seq<nat>, held: set<nat>)
    requires AllReady(scopes, clock, ts, ids) && clock <= clock' && Waited(ts, ts', held) && Held(ids, held)
    ensures AllReady(scopes, clock', ts', ids)
  {
  }

  lemma StillButDaily(scopes: seq<Limiter>, clock: real, clock': real, ts: seq<Ticket>, ts': seq<Ticket>, ids: seq<nat>, me: nat)
    requires AllButDaily(scopes, clock, ts, ids) && clock <= clock' && Kept(ts, ts', me)
    requires forall k | 0 <= k < |ids| :: ids[k] < |ts| && ts[ids[k]].owner == me
    ensures AllButDaily(scopes, clock', ts', ids)
  {
  }

  lemma KeptIsWaited(before: seq<Ticket>, ts: seq<Ticket>, ts': seq<Ticket>, me: nat, held: set<nat>)
    requires Books(before, ts, me, held) && Kept(ts, ts', me)
    ensures Waited(ts, ts', held)
  {
  }

  lemma NamesKept(ts: seq<Ticket>, ts': seq<Ticket>, ids: seq<nat>, limiters: seq<nat>, units: nat)
    requires Names(ts, ids, limiters, units) && |ts| <= |ts'|
    requires forall i | 0 <= i < |ts| :: ts'[i].SameTerms(ts[i])
    ensures Names(ts', ids, limiters, units)
  {
  }

  // ----- Delays -----

  predicate InRange(ls: seq<Limiter>, ts: seq<Ticket>, ids: seq<nat>) {
    forall k | 0 <= k < |ids| :: ids[k] < |ts| && ts[ids[k]].limiter < |ls|
  }

  ghost predicate AllInRange(ls: seq<Limiter>, ts: seq<Ticket>, ids: set<nat>) {
    forall id <- ids :: id < |ts| && ts[id].limiter < |ls|
  }

  function DelayOver(ls: seq<Limiter>, ts: seq<Ticket>, ids: seq<nat>, now: real, from: Delay): Delay
    requires PoolWellFormed(ls, now) && InRange(ls, ts, ids)
  {
    if ids == [] then from else
    var last := ids[|ids| - 1];
    DelayOver(ls, ts, ids[..|ids| - 1], now, from).Max(TicketDelay(ls[ts[last].limiter], ts[last], now))
  }

  /** The delay is the largest of those of the tickets, or zero if none is positive. */
  ghost predicate Largest(d: Delay, ls: seq<Limiter>, ts: seq<Ticket>, ids: set<nat>, now: real)
    requires PoolWellFormed(ls, now) && AllInRange(ls, ts, ids)
  {
    && !d.Less(ZERO)
    && (forall id <- ids :: !d.Less(TicketDelay(ls[ts[id].limiter], ts[id], now)))
    && (d == ZERO || exists id <- ids :: d == TicketDelay(ls[ts[id].limiter], ts[id], now))
  }

  lemma LargestIsUnique(d: Delay, d': Delay, ls: seq<Limiter>, ts: seq<Ticket>, ids: set<nat>, now: real)
    requires PoolWellFormed(ls, now) && AllInRange(ls, ts, ids)
    requires Largest(d, ls, ts, ids, now) && Largest(d', ls, ts, ids, now)
    ensures d == d'
  {
  }

  lemma {:induction false} DelayOverIsLargest(ls: seq<Limiter>, ts: seq<Ticket>, ids: seq<nat>, now: real, from: Delay, seen: set<nat>)
    requires PoolWellFormed(ls, now) && InRange(ls, ts, ids) && AllInRange(ls, ts, seen)
    requires Largest(from, ls, ts, seen, now)
    ensures AllInRange(ls, ts, SetOf(ids) + seen)
    ensures Largest(DelayOver(ls, ts, ids, now, from), ls, ts, SetOf(ids) + seen, now)
  {
    if ids == [] {
      assert SetOf(ids) + seen == seen;
    } else {
      var n := |ids| - 1;
      assert SetOf(ids) == SetOf(ids[..n]) + {ids[n]};
      DelayOverIsLargest(ls, ts, ids[..n], now, from, seen);
    }
  }

  lemma LargestWhenNormal(d: Delay, ls: seq<Limiter>, ls': seq<Limiter>, ts: seq<Ticket>, ids: set<nat>, now: real)
    requires PoolWellFormed(ls, now) && PoolWellFormed(ls', now) && NormalAll(ls, now) == NormalAll(ls', now)
    requires AllInRange(ls, ts, ids) && Largest(d, ls, ts, ids, now)
    ensures AllInRange(ls', ts, ids) && Largest(d, ls', ts, ids, now)
  {
    assert |NormalAll(ls, now)| == |ls| && |NormalAll(ls', now)| == |ls'|;
    hide TicketDelay, NormalAll;
    forall id | id in ids ensures TicketDelay(ls'[ts[id].limiter], ts[id], now) == TicketDelay(ls[ts[id].limiter], ts[id], now) {
      SameWhenNormal(ls, ls', ts[id].limiter, now, ts[id]);
    }
  }

  lemma DelayOfBoth(ls: seq<Limiter>, ts: seq<Ticket>, requests: seq<nat>, tokens: seq<nat>, now: real)
    requires PoolWellFormed(ls, now) && InRange(ls, ts, requests) && InRange(ls, ts, tokens)
    ensures AllInRange(ls, ts, SetOf(requests) + SetOf(tokens))
    ensures Largest(DelayOver(ls, ts, tokens, now, DelayOver(ls, ts, requests, now, ZERO)), ls, ts, SetOf(requests) + SetOf(tokens), now)
  {
    DelayOverIsLargest(ls, ts, requests, now, ZERO, {});
    assert SetOf(requests) + {} == SetOf(requests);
    DelayOverIsLargest(ls, ts, tokens, now, DelayOver(ls, ts, requests, now, ZERO), SetOf(requests));
    assert SetOf(tokens) + SetOf(requests) == SetOf(requests) + SetOf(tokens);
  }

  lemma {:induction false} DelayOverWhenNormal(ls: seq<Limiter>, ls': seq<Limiter>, ts: seq<Ticket>, ids: seq<nat>, now: real, from: Delay)
    requires PoolWellFormed(ls, now) && PoolWellFormed(ls', now) && NormalAll(ls, now) == NormalAll(ls', now)
    requires InRange(ls, ts, ids)
    ensures InRange(ls', ts, ids) && DelayOver(ls', ts, ids, now, from) == DelayOver(ls, ts, ids, now, from)
  {
    assert |NormalAll(ls, now)| == |ls| && |NormalAll(ls', now)| == |ls'|;
    if ids != [] {
      var n := |ids| - 1;
      DelayOverWhenNormal(ls, ls', ts, ids[..n], now, from);
      SameWhenNormal(ls, ls', ts[ids[n]].limiter, now, ts[ids[n]]);
    }
  }

  /** The ids of the tickets issued since there were `from` of them. */
  ghost function IssuedSince(from: nat, ts: seq<Ticket>): seq<nat>
    requires from <= |ts|
  {
    seq(|ts| - from, i => from + i)
  }

  lemma {:induction false} DelayOfIssued(ls: seq<Limiter>, ts: seq<Ticket>, from: nat, now: real)
    requires PoolWellFormed(ls, now) && from <= |ts| && forall i | from <= i < |ts| :: ts[i].limiter < |ls|
    ensures DelayOver(ls, ts, IssuedSince(from, ts), now, ZERO) == TicketsDelay(ls, ts[from..], now)
  {
    DelayOfFirst(ls, ts, from, |ts| - from, now);
    assert ts[from..from + (|ts| - from)] == ts[from..];
    assert IssuedSince(from, ts)[..|ts| - from] == IssuedSince(from, ts);
  }

  lemma {:induction false} DelayOfFirst(ls: seq<Limiter>, ts: seq<Ticket>, from: nat, n: nat, now: real)
    requires PoolWellFormed(ls, now) && from + n <= |ts| && forall i | from <= i < |ts| :: ts[i].limiter < |ls|
    ensures DelayOver(ls, ts, IssuedSince(from, ts)[..n], now, ZERO) == TicketsDelay(ls, ts[from..from + n], now)
  {
    if n > 0 {
      DelayOfFirst(ls, ts, from, n - 1, now);
      assert IssuedSince(from, ts)[..n][..n - 1] == IssuedSince(from, ts)[..n - 1];
      assert ts[from..from + n][..n - 1] == ts[from..from + (n - 1)];
    }
  }

  /** With nobody else acting, limiters and tickets are what reserving these demands in order makes of them. */
  ghost predicate ExactlyReserved(start: seq<Limiter>, before: seq<Ticket>, at: real, ds: seq<(nat, nat)>,
                                  ls: seq<Limiter>, ts: seq<Ticket>, me: nat)
  {
    && PoolWellFormed(start, at) && InPool(ds, start)
    && |before| <= |ts| && ts[..|before|] == before
    && ReserveAll(start, ds, me, at) == Some((ls, ts[|before|..]))
  }

  /** One more reservation on top of those. */
  lemma ReservedMore(start: seq<Limiter>, before: seq<Ticket>, at: real, ds: seq<(nat, nat)>,
                     ls: seq<Limiter>, ts: seq<Ticket>, me: nat, l: nat, units: nat)
    requires ExactlyReserved(start, before, at, ds, ls, ts, me) && l < |ls|
    requires PoolWellFormed(ls, at)
    ensures InPool(ds + [(l, units)], start)
    ensures match Reserve(ls[l], at, units)
            case None => ReserveAll(start, ds + [(l, units)], me, at).None?
            case Some((l', ok)) =>
              ExactlyReserved(start, before, at, ds + [(l, units)], ls[l := l'], ts + [NewTicket(l', l, me, at, units, ok)], me)
  {
    assert (ds + [(l, units)])[..|ds|] == ds;
    match Reserve(ls[l], at, units) {
      case None =>
      case Some((l', ok)) =>
        var t := NewTicket(l', l, me, at, units, ok);
        ProbePredictsReserve(ls[l], l, me, at, units);
        assert (ts + [t])[..|before|] == ts[..|before|];
        assert (ts + [t])[|before|..] == ts[|before|..] + [t];
    }
  }

  /** The tickets `got` have been added to the set `held`, one for each of these limiters. */
  ghost predicate Gathered(before: seq<Ticket>, ts: seq<Ticket>, me: nat, held: set<nat>, got: seq<nat>, limiters: seq<nat>, units: nat) {
    && Books(before, ts, me, held + SetOf(got)) && Distinct(got) && held !! SetOf(got)
    && Names(ts, got, limiters, units)
  }

  lemma GatheredKept(before: seq<Ticket>, ts: seq<Ticket>, ts': seq<Ticket>, me: nat, held: set<nat>, got: seq<nat>, limiters: seq<nat>, units: nat)
    requires Gathered(before, ts, me, held, got, limiters, units) && Kept(ts, ts', me)
    ensures Gathered(before, ts', me, held, got, limiters, units) && Waited(ts, ts', held)
  {
    BooksKept(before, ts, ts', me, held + SetOf(got));
    NamesKept(ts, ts', got, limiters, units);
  }

  lemma GatheredMore(before: seq<Ticket>, ts: seq<Ticket>, t: Ticket, me: nat, held: set<nat>, got: seq<nat>, limiters: seq<nat>, units: nat)
    requires Gathered(before, ts, me, held, got, limiters, units) && t.owner == me && !t.released && t.units == units
    ensures Gathered(before, ts + [t], me, held, got + [|ts|], limiters + [t.limiter], units) && Waited(ts, ts + [t], held)
  {
    BooksAppend(before, ts, t, me, held + SetOf(got));
    assert held + SetOf(got + [|ts|]) == held + SetOf(got) + {|ts|};
    NamesKept(ts, ts + [t], got, limiters, units);
    forall k | 0 <= k < |got| ensures got[k] < |ts| {
      assert got[k] in held + SetOf(got);
    }
  }

  lemma {:induction false} RefusedForGood(ls: seq<Limiter>, ds: seq<(nat, nat)>, more: seq<(nat, nat)>, owner: nat, now: real)
    requires InPool(ds, ls) && InPool(more, ls) && PoolWellFormed(ls, now) && ReserveAll(ls, ds, owner, now).None?
    ensures InPool(ds + more, ls) && ReserveAll(ls, ds + more, owner, now).None?
  {
    if more == [] {
      assert ds + more == ds;
    } else {
      var n := |more| - 1;
      RefusedForGood(ls, ds, more[..n], owner, now);
      assert (ds + more)[..|ds| + n] == ds + more[..n];
    }
  }

  /** Others act on the pool, unless this request is alone. */
  method Pause(pool: LimiterPool, me: nat, alone: bool, ghost before: seq<Ticket>, ghost ids: set<nat>)
    requires pool.Valid() && Books(before, pool.tickets, me, ids)
    modifies pool
    ensures pool.Valid() && Books(before, pool.tickets, me, ids) && pool.clock >= old(pool.clock)
    ensures Kept(old(pool.tickets), pool.tickets, me) && Moves(pool.log, me) == Moves(old(pool.log), me)
    ensures alone ==> pool.tickets == old(pool.tickets) && pool.limiters == old(pool.limiters) && pool.clock == old(pool.clock)
  {
    hide Moves;
    if !alone {
      pool.Interfere(me);
      BooksKept(before, old(pool.tickets), pool.tickets, me, ids);
    }
  }

  /**
   Cancels one reservation after another; each gives back what it charges. The tickets `rest` stay held. With nobody
   else acting, limiters carry on charging what is left.
   */
  method CancelEach(pool: LimiterPool, me: nat, ids: seq<nat>, alone: bool, ghost before: seq<Ticket>, ghost rest: set<nat>, ghost start: seq<Limiter>)
    requires Distinct(ids) && SetOf(ids) !! rest
    requires pool.Valid() && Books(before, pool.tickets, me, SetOf(ids) + rest)
    requires alone ==> AllCarry(start, |before|, pool.clock, pool.limiters, pool.tickets, me)
    modifies pool
    ensures pool.Valid() && Books(before, pool.tickets, me, rest) && pool.clock >= old(pool.clock)
    ensures Moves(pool.log, me) == Moves(old(pool.log), me)
    ensures ids == [] ==> pool.tickets == old(pool.tickets) && pool.limiters == old(pool.limiters) && pool.clock == old(pool.clock)
    ensures alone ==>
              && pool.clock == old(pool.clock) && AllCarry(start, |before|, pool.clock, pool.limiters, pool.tickets, me)
              && |pool.tickets| == |old(pool.tickets)|
  {
    hide *;
    assert ids[0..] == ids;
    for k := 0 to |ids|
      invariant pool.Valid() && pool.clock >= old(pool.clock)
      invariant Books(before, pool.tickets, me, SetOf(ids[k..]) + rest)
      invariant Moves(pool.log, me) == Moves(old(pool.log), me)
      invariant k == 0 ==> pool.tickets == old(pool.tickets) && pool.limiters == old(pool.limiters) && pool.clock == old(pool.clock)
      invariant alone ==>
                  && pool.clock == old(pool.clock) && AllCarry(start, |before|, pool.clock, pool.limiters, pool.tickets, me)
                  && |pool.tickets| == |old(pool.tickets)|
    {
      FirstRemoved(ids, k, rest);
      CancelOne(pool, me, ids[k], alone, before, SetOf(ids[k..]) + rest, start);
    }
    NothingMore(ids, rest);
  }

  lemma FirstRemoved(ids: seq<nat>, k: nat, rest: set<nat>)
    requires Distinct(ids) && SetOf(ids) !! rest && k < |ids|
    ensures ids[k] in SetOf(ids[k..]) + rest && SetOf(ids[k..]) + rest - {ids[k]} == SetOf(ids[k + 1..]) + rest
  {
    assert ids[k..] == [ids[k]] + ids[k + 1..] && ids[k] in SetOf(ids);
  }

  lemma NothingMore(ids: seq<nat>, rest: set<nat>)
    ensures SetOf(ids[|ids|..]) + rest == rest
  {
  }

  method CancelOne(pool: LimiterPool, me: nat, id: nat, alone: bool, ghost before: seq<Ticket>, ghost held: set<nat>, ghost start: seq<Limiter>)
    requires pool.Valid() && Books(before, pool.tickets, me, held) && id in held
    requires alone ==> AllCarry(start, |before|, pool.clock, pool.limiters, pool.tickets, me)
    modifies pool
    ensures pool.Valid() && Books(before, pool.tickets, me, held - {id}) && pool.clock >= old(pool.clock)
    ensures Moves(pool.log, me) == Moves(old(pool.log), me)
    ensures alone ==>
              && pool.clock == old(pool.clock) && AllCarry(start, |before|, pool.clock, pool.limiters, pool.tickets, me)
              && |pool.tickets| == |old(pool.tickets)|
  {
    hide Moves, AllCarry;
    Pause(pool, me, alone, before, held);
    ghost var ls, ts, calls := pool.limiters, pool.tickets, pool.log;
    pool.TicketInPool(id);
    if alone {
      PoolTicketsOk(pool);
      CancelledCarries(start, |before|, pool.clock, ls, ts, me, id);
    }
    pool.Settle(id, 0);
    CancelledTicket(ls[ts[id].limiter], ts[id], pool.clock);
    BooksDrop(before, ts, id, pool.tickets[id], me, held);
    MovesMore(calls, pool.log[|calls|], me);
  }

  lemma CancelledTicket(l: Limiter, t: Ticket, now: real)
    requires TicketOk(l, t) && !t.released
    ensures var (_, t') := Settle(l, t, now, 0); t'.owner == t.owner && t'.charge == 0 && (t'.acquired ==> t'.released)
  {
  }

  lemma PoolTicketsOk(pool: LimiterPool)
    requires pool.Valid()
    ensures TicketsOk(pool.limiters, pool.tickets) && PoolWellFormed(pool.limiters, pool.clock) && InScope(pool.scopes, pool.limiters)
  {
  }

  /** One of the two loops of maxDelay, continuing from the maximum so far; `asks` are its questions. */
  method MaxEach(pool: LimiterPool, me: nat, ids: seq<nat>, from: Delay, alone: bool, ghost before: seq<Ticket>, ghost held: set<nat>)
    returns (delay: Delay, ghost asks: seq<Call>)
    requires pool.Valid() && Books(before, pool.tickets, me, held) && Held(ids, held) && !from.Less(ZERO)
    modifies pool
    ensures pool.Valid() && Books(before, pool.tickets, me, held) && pool.clock >= old(pool.clock)
    ensures Kept(old(pool.tickets), pool.tickets, me)
    ensures Moves(pool.log, me) == Moves(old(pool.log), me) + asks && AsksOf(asks, ids) && delay == Peak(from, asks) && !delay.Less(ZERO)
    ensures delay == ZERO ==> from == ZERO && AllButDaily(pool.scopes, pool.clock, pool.tickets, ids)
    ensures alone ==>
              && pool.tickets == old(pool.tickets) && pool.clock == old(pool.clock)
              && NormalAll(pool.limiters, pool.clock) == NormalAll(old(pool.limiters), pool.clock)
              && PoolWellFormed(old(pool.limiters), pool.clock) && InRange(old(pool.limiters), pool.tickets, ids)
              && delay == DelayOver(old(pool.limiters), pool.tickets, ids, pool.clock, from)
  {
    hide *;
    delay, asks := from, [];
    PoolTicketsOk(pool);
    NothingAsked(old(pool.limiters), old(pool.tickets), pool.scopes, ids, from, pool.clock, me);
    for k := 0 to |ids|
      invariant pool.Valid() && Books(before, pool.tickets, me, held) && pool.clock >= old(pool.clock)
      invariant Kept(old(pool.tickets), pool.tickets, me)
      invariant Moves(pool.log, me) == Moves(old(pool.log), me) + asks && AsksOf(asks, ids[..k])
      invariant delay == Peak(from, asks) && !delay.Less(ZERO)
      invariant delay == ZERO ==> from == ZERO && AllButDaily(pool.scopes, pool.clock, pool.tickets, ids[..k])
      invariant alone ==>
                  && pool.tickets == old(pool.tickets) && pool.clock == old(pool.clock)
                  && NormalAll(pool.limiters, pool.clock) == NormalAll(old(pool.limiters), pool.clock)
                  && InRange(old(pool.limiters), pool.tickets, ids[..k])
                  && delay == DelayOver(old(pool.limiters), pool.tickets, ids[..k], pool.clock, from)
    {
      ghost var earlier, ls, clock, calls := pool.tickets, pool.limiters, pool.clock, pool.log;
      PoolTicketsOk(pool);
      HeldOpen(before, earlier, me, ids, k, held);
      HeldMine(before, earlier, me, ids[..k], Prefix(ids, k, held));
      var d;
      ghost var c;
      d, c := AskOne(pool, me, ids[k], alone, before, held);
      KeptTransitive(old(pool.tickets), earlier, pool.tickets, me);
      StillButDailyIf(delay == ZERO, pool.scopes, clock, pool.clock, earlier, pool.tickets, ids[..k], me);
      if alone {
        PoolTicketsOk(pool);
        SameWhenNormal(old(pool.limiters), ls, earlier[ids[k]].limiter, pool.clock, earlier[ids[k]]);
        DelayOverMore(old(pool.limiters), pool.tickets, ids, k, pool.clock, from);
      }
      AskedMore(asks, c, ids, k, from, delay, d);
      if delay.Max(d) == ZERO {
        ButDailyMore(pool.scopes, pool.clock, pool.tickets, ids, k);
      }
      MovesChain(old(pool.log), calls, pool.log, me, asks, [c]);
      delay, asks := delay.Max(d), asks + [c];
    }
    assert ids[..|ids|] == ids;
  }

  ghost function Prefix(ids: seq<nat>, k: nat, held: set<nat>): (r: set<nat>)
    requires k <= |ids| && Held(ids, held)
    ensures r == held && Held(ids[..k], held)
  {
    held
  }

  lemma MovesChain(a: seq<Call>, b: seq<Call>, c: seq<Call>, me: nat, xs: seq<Call>, ys: seq<Call>)
    requires Moves(b, me) == Moves(a, me) + xs && Moves(c, me) == Moves(b, me) + ys
    ensures Moves(c, me) == Moves(a, me) + (xs + ys)
  {
  }

  lemma NothingAsked(ls: seq<Limiter>, ts: seq<Ticket>, scopes: seq<Limiter>, ids: seq<nat>, from: Delay, now: real, me: nat)
    requires PoolWellFormed(ls, now)
    ensures Kept(ts, ts, me) && AsksOf([], ids[..0]) && Peak(from, []) == from && AllButDaily(scopes, now, ts, ids[..0])
    ensures InRange(ls, ts, ids[..0]) && DelayOver(ls, ts, ids[..0], now, from) == from
  {
  }

  lemma AskedMore(asks: seq<Call>, c: Call, ids: seq<nat>, k: nat, from: Delay, delay: Delay, d: Delay)
    requires k < |ids| && AsksOf(asks, ids[..k]) && delay == Peak(from, asks) && !delay.Less(ZERO) && !d.Less(ZERO)
    requires c.DelayCall? && c.ticket == ids[k] && c.delay == d
    ensures AsksOf(asks + [c], ids[..k + 1]) && delay.Max(d) == Peak(from, asks + [c]) && !delay.Max(d).Less(ZERO)
    ensures delay.Max(d) == ZERO ==> delay == ZERO && d == ZERO
  {
    PeakMore(from, asks, c);
  }

  lemma ButDailyMore(scopes: seq<Limiter>, clock: real, ts: seq<Ticket>, ids: seq<nat>, k: nat)
    requires k < |ids| && AllButDaily(scopes, clock, ts, ids[..k]) && ids[k] < |ts| && ReadyButDaily(scopes, clock, ts[ids[k]])
    ensures AllButDaily(scopes, clock, ts, ids[..k + 1])
  {
  }

  lemma DelayOverMore(ls: seq<Limiter>, ts: seq<Ticket>, ids: seq<nat>, k: nat, now: real, from: Delay)
    requires PoolWellFormed(ls, now) && k < |ids| && InRange(ls, ts, ids[..k]) && ids[k] < |ts| && ts[ids[k]].limiter < |ls|
    ensures InRange(ls, ts, ids[..k + 1])
    ensures DelayOver(ls, ts, ids[..k + 1], now, from)
         == DelayOver(ls, ts, ids[..k], now, from).Max(TicketDelay(ls[ts[ids[k]].limiter], ts[ids[k]], now))
  {
    assert ids[..k + 1][..k] == ids[..k];
  }

  lemma HeldMine(before: seq<Ticket>, ts: seq<Ticket>, me: nat, ids: seq<nat>, held: set<nat>)
    requires Books(before, ts, me, held) && Held(ids, held)
    ensures forall k | 0 <= k < |ids| :: ids[k] < |ts| && ts[ids[k]].owner == me
  {
  }

  lemma StillButDailyIf(cond: bool, scopes: seq<Limiter>, clock: real, clock': real, ts: seq<Ticket>, ts': seq<Ticket>, ids: seq<nat>, me: nat)
    requires (cond ==> AllButDaily(scopes, clock, ts, ids)) && clock <= clock' && Kept(ts, ts', me)
    requires forall k | 0 <= k < |ids| :: ids[k] < |ts| && ts[ids[k]].owner == me
    ensures cond ==> AllButDaily(scopes, clock', ts', ids)
  {
    if cond {
      StillButDaily(scopes, clock, clock', ts, ts', ids, me);
    }
  }

  method AskOne(pool: LimiterPool, me: nat, id: nat, alone: bool, ghost before: seq<Ticket>, ghost held: set<nat>)
    returns (d: Delay, ghost c: Call)
    requires pool.Valid() && Books(before, pool.tickets, me, held) && id in held
    modifies pool
    ensures pool.Valid() && Books(before, pool.tickets, me, held) && pool.clock >= old(pool.clock)
    ensures Kept(old(pool.tickets), pool.tickets, me) && id < |pool.tickets|
    ensures Moves(pool.log, me) == Moves(old(pool.log), me) + [c] && c.DelayCall? && c.ticket == id && c.delay == d && !d.Less(ZERO)
    ensures d == ZERO ==> ReadyButDaily(pool.scopes, pool.clock, pool.tickets[id])
    ensures alone ==>
              && pool.tickets == old(pool.tickets) && pool.clock == old(pool.clock)
              && NormalAll(pool.limiters, pool.clock) == NormalAll(old(pool.limiters), pool.clock)
              && id < |old(pool.tickets)| && pool.tickets[id].limiter < |old(pool.limiters)|
              && WellFormed(old(pool.limiters)[pool.tickets[id].limiter])
              && d == TicketDelay(old(pool.limiters)[pool.tickets[id].limiter], pool.tickets[id], pool.clock)
  {
    hide Moves, TicketDelay, NormalAll, LimiterPool.Valid, WellFormed, SameScope, TicketOk;
    Pause(pool, me, alone, before, held);
    ghost var ls, calls := pool.limiters, pool.log;
    pool.TicketInPool(id);
    d := pool.DelayOf(id);
    c := pool.log[|calls|];
    MovesMore(calls, c, me);
    DelayFromZero(ls[pool.tickets[id].limiter], pool.tickets[id], pool.clock);
    if d == ZERO {
      NoDelayIsReady(pool.scopes[pool.tickets[id].limiter], ls[pool.tickets[id].limiter], pool.tickets[id], pool.clock);
      ScopeKind(pool.scopes[pool.tickets[id].limiter], ls[pool.tickets[id].limiter]);
    }
  }

  lemma DelayFromZero(l: Limiter, t: Ticket, now: real)
    requires WellFormed(l)
    ensures !TicketDelay(l, t, now).Less(ZERO)
  {
  }

  lemma ScopeKind(scope: Limiter, l: Limiter)
    requires SameScope(scope, l)
    ensures scope.Rate? == l.Rate? && scope.Daily? == l.Daily?
  {
  }

  lemma SameWhenNormal(ls: seq<Limiter>, ls': seq<Limiter>, l: nat, now: real, t: Ticket)
    requires PoolWellFormed(ls, now) && PoolWellFormed(ls', now) && l < |ls|
    requires NormalAll(ls, now) == NormalAll(ls', now)
    ensures l < |ls'| && TicketDelay(ls'[l], t, now) == TicketDelay(ls[l], t, now)
    ensures Probe(ls'[l], now, t.units) == Probe(ls[l], now, t.units)
  {
    assert |NormalAll(ls', now)| == |ls'|;
    assert NormalAll(ls, now)[l] == NormalAll(ls', now)[l];
    LookingShowsNormal(ls[l], now, t.units, t);
    LookingShowsNormal(ls'[l], now, t.units, t);
  }

  /**
   One of the loops of tryReserveAll: reserves `units` in each of the limiters in turn, up to the first refusal.
   `start` and `done` say what has been reserved so far when this request is alone.
   */
  method ReserveEach(pool: LimiterPool, me: nat, ids: seq<nat>, units: nat, alone: bool,
                     ghost before: seq<Ticket>, ghost held: set<nat>, ghost start: seq<Limiter>, ghost done: seq<(nat, nat)>)
    returns (ok: bool, got: seq<nat>, ghost calls: seq<Call>)
    requires pool.Valid() && Books(before, pool.tickets, me, held) && forall k | 0 <= k < |ids| :: ids[k] < |pool.limiters|
    requires alone ==> ExactlyReserved(start, before, pool.clock, done, pool.limiters, pool.tickets, me)
    modifies pool
    ensures pool.Valid() && pool.clock >= old(pool.clock) && Waited(old(pool.tickets), pool.tickets, held)
    ensures |got| <= |ids| && Gathered(before, pool.tickets, me, held, got, ids[..|got|], units)
    ensures ok ==> |got| == |ids|
    ensures Moves(pool.log, me) == Moves(old(pool.log), me) + calls
    ensures ReservesOf(calls, Asking(ids, units)) && Ran(calls, |ids|, ok) && Gets(calls, got)
    ensures alone ==>
              && pool.clock == old(pool.clock) && InPool(done + Asking(ids, units), start)
              && ExactlyReserved(start, before, pool.clock, done + Asking(ids[..|got|], units), pool.limiters, pool.tickets, me)
    ensures alone && !ok ==> ReserveAll(start, done + Asking(ids, units), me, pool.clock).None?
  {
    hide *;
    got, calls := [], [];
    NothingAskedFor(pool.tickets, before, me, held, ids, units, done);
    ghost var size := |pool.limiters|;
    if alone {
      ReservedInPool(start, before, pool.clock, done, pool.limiters, pool.tickets, me);
    }
    for k := 0 to |ids|
      invariant pool.Valid() && pool.clock >= old(pool.clock) && Waited(old(pool.tickets), pool.tickets, held) && |pool.limiters| == size
      invariant |got| == k && Gathered(before, pool.tickets, me, held, got, ids[..k], units)
      invariant Moves(pool.log, me) == Moves(old(pool.log), me) + calls
      invariant ReservesOf(calls, Asking(ids, units)) && Ran(calls, k, true) && Gets(calls, got)
      invariant alone ==> pool.clock == old(pool.clock) &&
                          ExactlyReserved(start, before, pool.clock, done + Asking(ids[..k], units), pool.limiters, pool.tickets, me)
    {
      ghost var ts, log := pool.tickets, pool.log;
      var id;
      ghost var c;
      id, c := ReserveOne(pool, me, ids[k], units, alone, before, held, got, ids[..k], start, done + Asking(ids[..k], units));
      WaitedTransitive(old(pool.tickets), ts, pool.tickets, held);
      AskingMore(done, ids, k, units);
      MovesChain(old(pool.log), log, pool.log, me, calls, [c]);
      ReservedCalls(calls, c, ids, k, units, got, id);
      calls := calls + [c];
      if id.None? {
        if alone {
          AllRefused(start, done, ids, k, units, me, pool.clock);
        }
        return false, got, calls;
      }
      assert ids[..k + 1] == ids[..k] + [ids[k]];
      got := got + [id.value];
    }
    assert ids[..|ids|] == ids;
    AskingAll(start, before, done, ids, units, pool.limiters, pool.tickets, pool.clock, me, alone);
    ok := true;
  }

  lemma NothingAskedFor(ts: seq<Ticket>, before: seq<Ticket>, me: nat, held: set<nat>, ids: seq<nat>, units: nat, done: seq<(nat, nat)>)
    requires Books(before, ts, me, held)
    ensures done + Asking(ids[..0], units) == done && Waited(ts, ts, held) && Gathered(before, ts, me, held, [], ids[..0], units)
    ensures ReservesOf([], Asking(ids, units)) && Ran([], 0, true) && Gets([], [])
  {
    assert held + SetOf([]) == held;
  }

  lemma AskingMore(done: seq<(nat, nat)>, ids: seq<nat>, k: nat, units: nat)
    requires k < |ids|
    ensures done + Asking(ids[..k], units) + [(ids[k], units)] == done + Asking(ids[..k + 1], units)
  {
  }

  lemma ReservedCalls(calls: seq<Call>, c: Call, ids: seq<nat>, k: nat, units: nat, got: seq<nat>, id: Option<nat>)
    requires k < |ids| && |got| == k && ReservesOf(calls, Asking(ids, units)) && Ran(calls, k, true) && Gets(calls, got)
    requires c.ReserveCall? && c.limiter == ids[k] && c.units == units && c.got == id
    ensures ReservesOf(calls + [c], Asking(ids, units))
    ensures id.None? ==> Ran(calls + [c], |ids|, false) && Gets(calls + [c], got)
    ensures id.Some? ==> Ran(calls + [c], k + 1, true) && Gets(calls + [c], got + [id.value])
  {
  }

  lemma AskingAll(start: seq<Limiter>, before: seq<Ticket>, done: seq<(nat, nat)>, ids: seq<nat>, units: nat,
                  ls: seq<Limiter>, ts: seq<Ticket>, at: real, me: nat, alone: bool)
    requires alone ==> ExactlyReserved(start, before, at, done + Asking(ids, units), ls, ts, me)
    ensures alone ==> InPool(done + Asking(ids, units), start)
  {
  }

  /** What the granted of these reservations are known by. */
  ghost predicate Gets(calls: seq<Call>, got: seq<nat>) {
    && |got| <= |calls| <= |got| + 1
    && (forall k | 0 <= k < |got| :: calls[k].ReserveCall? && calls[k].got == Some(got[k]))
    && (|got| < |calls| ==> calls[|got|].ReserveCall? && calls[|got|].got.None?)
  }

  lemma AllRefused(start: seq<Limiter>, done: seq<(nat, nat)>, ids: seq<nat>, k: nat, units: nat, me: nat, now: real)
    requires k < |ids| && PoolWellFormed(start, now) && InPool(done, start) && forall k | 0 <= k < |ids| :: ids[k] < |start|
    requires InPool(done + Asking(ids[..k + 1], units), start)
    requires ReserveAll(start, done + Asking(ids[..k + 1], units), me, now).None?
    ensures InPool(done + Asking(ids, units), start) && ReserveAll(start, done + Asking(ids, units), me, now).None?
  {
    hide ReserveAll;
    RefusedForGood(start, done + Asking(ids[..k + 1], units), Asking(ids[k + 1..], units), me, now);
    assert done + Asking(ids, units) == done + Asking(ids[..k + 1], units) + Asking(ids[k + 1..], units);
  }

  method ReserveOne(pool: LimiterPool, me: nat, l: nat, units: nat, alone: bool, ghost before: seq<Ticket>,
                    ghost held: set<nat>, ghost got: seq<nat>, ghost limiters: seq<nat>, ghost start: seq<Limiter>, ghost ds: seq<(nat, nat)>)
    returns (id: Option<nat>, ghost c: Call)
    requires pool.Valid() && l < |pool.limiters| && Gathered(before, pool.tickets, me, held, got, limiters, units)
    requires alone ==> ExactlyReserved(start, before, pool.clock, ds, pool.limiters, pool.tickets, me)
    modifies pool
    ensures pool.Valid() && pool.clock >= old(pool.clock) && Waited(old(pool.tickets), pool.tickets, held)
    ensures |pool.limiters| == |old(pool.limiters)|
    ensures Moves(pool.log, me) == Moves(old(pool.log), me) + [c]
    ensures c.ReserveCall? && c.limiter == l && c.units == units && c.got == id
    ensures match id
            case None => Gathered(before, pool.tickets, me, held, got, limiters, units)
            case Some(n) => Gathered(before, pool.tickets, me, held, got + [n], limiters + [l], units)
    ensures alone ==>
              && pool.clock == old(pool.clock) && PoolWellFormed(start, pool.clock) && InPool(ds + [(l, units)], start)
              && match id
                 case None =>
                   && ExactlyReserved(start, before, pool.clock, ds, pool.limiters, pool.tickets, me)
                   && ReserveAll(start, ds + [(l, units)], me, pool.clock).None?
                 case Some(_) => ExactlyReserved(start, before, pool.clock, ds + [(l, units)], pool.limiters, pool.tickets, me)
  {
    hide Moves, Gathered, Books, ReserveAll, History;
    GatheredBooks(before, pool.tickets, me, held, got, limiters, units);
    Pause(pool, me, alone, before, held + SetOf(got));
    GatheredKept(before, old(pool.tickets), pool.tickets, me, held, got, limiters, units);
    ghost var ts, calls := pool.tickets, pool.log;
    if alone {
      ReservedMore(start, before, pool.clock, ds, pool.limiters, pool.tickets, me, l, units);
    }
    id := pool.Reserve(l, units, me);
    c := pool.log[|calls|];
    MovesMore(calls, c, me);
    if id.Some? {
      GatheredMore(before, ts, pool.tickets[|ts|], me, held, got, limiters, units);
      WaitedTransitive(old(pool.tickets), ts, pool.tickets, held);
    }
  }

  lemma GatheredBooks(before: seq<Ticket>, ts: seq<Ticket>, me: nat, held: set<nat>, got: seq<nat>, limiters: seq<nat>, units: nat)
    requires Gathered(before, ts, me, held, got, limiters, units)
    ensures Books(before, ts, me, held + SetOf(got))
  {
  }

  /** Waits for one reservation after another; stops at the first that fails. */
  method WaitEach(pool: LimiterPool, me: nat, ids: seq<nat>, ghost before: seq<Ticket>, ghost held: set<nat>)
    returns (ok: bool, ghost waits: seq<Call>)
    requires pool.Valid() && Books(before, pool.tickets, me, held) && Distinct(ids) && Held(ids, held)
    modifies pool
    ensures pool.Valid() && Books(before, pool.tickets, me, held) && pool.clock >= old(pool.clock)
    ensures Waited(old(pool.tickets), pool.tickets, held)
    ensures Moves(pool.log, me) == Moves(old(pool.log), me) + waits && WaitsOf(waits, ids) && Ran(waits, |ids|, ok)
    ensures ok ==> AllReady(pool.scopes, pool.clock, pool.tickets, ids)
  {
    hide *;
    waits := [];
    NothingAwaited(pool.tickets, pool.scopes, pool.clock, before, me, ids, held);
    for k := 0 to |ids|
      invariant pool.Valid() && Books(before, pool.tickets, me, held) && pool.clock >= old(pool.clock)
      invariant Waited(old(pool.tickets), pool.tickets, held)
      invariant Moves(pool.log, me) == Moves(old(pool.log), me) + waits && WaitsOf(waits, ids) && Ran(waits, k, true)
      invariant AllReady(pool.scopes, pool.clock, pool.tickets, ids[..k])
    {
      ghost var ts, clock, calls := pool.tickets, pool.clock, pool.log;
      HeldOpen(before, ts, me, ids, k, held);
      ok := pool.Wait(ids[k], me);
      ghost var c: Call :| c.WaitCall? && c.ticket == ids[k] && c.ok == ok && Moves(pool.log, me) == Moves(calls, me) + [c];
      MovesChain(old(pool.log), calls, pool.log, me, waits, [c]);
      AwaitedMore(waits, c, ids, k);
      waits := waits + [c];
      BooksKeptBut(before, ts, pool.tickets, ids[k], me, held);
      WaitedTransitive(old(pool.tickets), ts, pool.tickets, held);
      if !ok {
        return;
      }
      ReadyMore(pool.scopes, clock, pool.clock, ts, pool.tickets, ids, k, Prefix(ids, k, held));
    }
    assert ids[..|ids|] == ids;
    ok := true;
  }

  lemma NothingAwaited(ts: seq<Ticket>, scopes: seq<Limiter>, clock: real, before: seq<Ticket>, me: nat, ids: seq<nat>, held: set<nat>)
    requires Books(before, ts, me, held)
    ensures Waited(ts, ts, held) && WaitsOf([], ids) && Ran([], 0, true) && AllReady(scopes, clock, ts, ids[..0])
  {
  }

  lemma HeldOpen(before: seq<Ticket>, ts: seq<Ticket>, me: nat, ids: seq<nat>, k: nat, held: set<nat>)
    requires Books(before, ts, me, held) && Held(ids, held) && k < |ids|
    ensures ids[k] in held && ids[k] < |ts| && ts[ids[k]].owner == me && !ts[ids[k]].released
  {
  }

  lemma AwaitedMore(waits: seq<Call>, c: Call, ids: seq<nat>, k: nat)
    requires k < |ids| && WaitsOf(waits, ids) && Ran(waits, k, true) && c.WaitCall? && c.ticket == ids[k]
    ensures WaitsOf(waits + [c], ids) && (if c.ok then Ran(waits + [c], k + 1, true) else Ran(waits + [c], |ids|, false))
  {
  }

  lemma ReadyBoth(scopes: seq<Limiter>, clock: real, ts: seq<Ticket>, a: seq<nat>, b: seq<nat>)
    requires AllReady(scopes, clock, ts, a) && AllReady(scopes, clock, ts, b)
    ensures AllReady(scopes, clock, ts, a + b)
  {
  }

  lemma AwaitedBoth(first: seq<Call>, second: seq<Call>, a: seq<nat>, b: seq<nat>, ok: bool)
    requires WaitsOf(first, a) && Ran(first, |a|, true) && WaitsOf(second, b) && Ran(second, |b|, ok)
    ensures WaitsOf(first + second, a + b) && Ran(first + second, |a + b|, ok)
  {
  }

  lemma AwaitedFirst(first: seq<Call>, a: seq<nat>, b: seq<nat>)
    requires WaitsOf(first, a) && Ran(first, |a|, false)
    ensures WaitsOf(first, a + b) && Ran(first, |a + b|, false)
  {
  }

  lemma ReadyMore(scopes: seq<Limiter>, clock: real, clock': real, ts: seq<Ticket>, ts': seq<Ticket>, ids: seq<nat>, k: nat, held: set<nat>)
    requires k < |ids| && AllReady(scopes, clock, ts, ids[..k]) && clock <= clock' && Waited(ts, ts', held) && Held(ids[..k], held)
    requires ids[k] < |ts'| && ts'[ids[k]].acquired
    requires ts'[ids[k]].limiter < |scopes| && scopes[ts'[ids[k]].limiter].Rate? ==> ts'[ids[k]].readyAt <= clock'
    ensures AllReady(scopes, clock', ts', ids[..k + 1])
  {
    StillReady(scopes, clock, clock', ts, ts', ids[..k], held);
  }

  ghost predicate Apart(requests: seq<nat>, tokens: seq<nat>) {
    Distinct(requests) && Distinct(tokens) && SetOf(requests) !! SetOf(tokens)
  }

  /** The two lists of a set: one unit from each of the limiters `reqs`, `est` from each of `toks`. */
  ghost predicate Collected(before: seq<Ticket>, ts: seq<Ticket>, me: nat, requests: seq<nat>, tokens: seq<nat>,
                            reqs: seq<nat>, toks: seq<nat>, est: nat)
  {
    && Books(before, ts, me, SetOf(requests) + SetOf(tokens)) && Apart(requests, tokens)
    && Names(ts, requests, reqs, 1) && Names(ts, tokens, toks, est)
  }

  lemma MoreRequests(before: seq<Ticket>, ts: seq<Ticket>, ts': seq<Ticket>, me: nat, requests: seq<nat>, tokens: seq<nat>,
                     reqs: seq<nat>, toks: seq<nat>, est: nat, got: seq<nat>, limiters: seq<nat>)
    requires Collected(before, ts, me, requests, tokens, reqs, toks, est)
    requires Gathered(before, ts', me, SetOf(requests) + SetOf(tokens), got, limiters, 1)
    requires Waited(ts, ts', SetOf(requests) + SetOf(tokens))
    ensures Collected(before, ts', me, requests + got, tokens, reqs + limiters, toks, est)
  {
    assert SetOf(requests + got) + SetOf(tokens) == SetOf(requests) + SetOf(tokens) + SetOf(got);
    NamesKept(ts, ts', requests, reqs, 1);
    NamesKept(ts, ts', tokens, toks, est);
    assert forall k | 0 <= k < |requests| :: requests[k] in SetOf(requests);
    assert forall k | 0 <= k < |got| :: got[k] in SetOf(got);
  }

  lemma MoreTokens(before: seq<Ticket>, ts: seq<Ticket>, ts': seq<Ticket>, me: nat, requests: seq<nat>, tokens: seq<nat>,
                   reqs: seq<nat>, toks: seq<nat>, est: nat, got: seq<nat>, limiters: seq<nat>)
    requires Collected(before, ts, me, requests, tokens, reqs, toks, est)
    requires Gathered(before, ts', me, SetOf(requests) + SetOf(tokens), got, limiters, est)
    requires Waited(ts, ts', SetOf(requests) + SetOf(tokens))
    ensures Collected(before, ts', me, requests, tokens + got, reqs, toks + limiters, est)
  {
    assert SetOf(requests) + SetOf(tokens + got) == SetOf(requests) + SetOf(tokens) + SetOf(got);
    NamesKept(ts, ts', requests, reqs, 1);
    NamesKept(ts, ts', tokens, toks, est);
    assert forall k | 0 <= k < |tokens| :: tokens[k] in SetOf(tokens);
    assert forall k | 0 <= k < |got| :: got[k] in SetOf(got);
  }

  lemma CollectedWaited(before: seq<Ticket>, ts: seq<Ticket>, ts': seq<Ticket>, me: nat, requests: seq<nat>, tokens: seq<nat>,
                        reqs: seq<nat>, toks: seq<nat>, est: nat)
    requires Collected(before, ts, me, requests, tokens, reqs, toks, est)
    requires Waited(ts, ts', SetOf(requests) + SetOf(tokens)) && Books(before, ts', me, SetOf(requests) + SetOf(tokens))
    ensures Collected(before, ts', me, requests, tokens, reqs, toks, est)
  {
    NamesKept(ts, ts', requests, reqs, 1);
    NamesKept(ts, ts', tokens, toks, est);
  }

  // ----- Completing -----

  /** What completing makes of an unsettled ticket: a request keeps its unit, tokens are charged at the actual use. */
  function CompletedTicket(scope: Limiter, t: Ticket, actual: Option<nat>): Ticket {
    if scope.Concurrency? then (if t.acquired then t.(released := true, charge := 0) else t)
    else if actual.None? || !t.acquired then t.(released := true)
    else t.(released := true, charge := actual.value)
  }

  /** The tickets after the listed ones have been completed. */
  function Completed(scopes: seq<Limiter>, ts: seq<Ticket>, ids: seq<nat>, actual: Option<nat>): (r: seq<Ticket>)
    ensures |r| == |ts|
  {
    if ids == [] then ts else
    var n := |ids| - 1;
    var id := ids[n];
    var ts' := Completed(scopes, ts, ids[..n], actual);
    if id < |ts| && ts[id].limiter < |scopes| then ts'[id := CompletedTicket(scopes[ts[id].limiter], ts[id], actual)] else ts'
  }

  lemma {:induction false} CompletedAt(scopes: seq<Limiter>, ts: seq<Ticket>, ids: seq<nat>, actual: Option<nat>, i: nat)
    requires i < |ts| && ts[i].limiter < |scopes|
    ensures Completed(scopes, ts, ids, actual)[i] == if i in ids then CompletedTicket(scopes[ts[i].limiter], ts[i], actual) else ts[i]
  {
    if ids != [] {
      var n := |ids| - 1;
      CompletedAt(scopes, ts, ids[..n], actual, i);
      assert ids == ids[..n] + [ids[n]];
    }
  }

  /** One of the two loops of complete. Only the listed tickets change, each once, while others act. */
  method CompleteEach(pool: LimiterPool, me: nat, ids: seq<nat>, actual: Option<nat>)
    requires pool.Valid() && Distinct(ids)
    requires forall k | 0 <= k < |ids| ::
               ids[k] < |pool.tickets| && pool.tickets[ids[k]].owner == me && !pool.tickets[ids[k]].released
               && (actual.Some? ==> !pool.scopes[pool.tickets[ids[k]].limiter].Concurrency?)
    modifies pool
    ensures pool.Valid() && pool.clock >= old(pool.clock)
    ensures Kept(Completed(pool.scopes, old(pool.tickets), ids, actual), pool.tickets, me) && Moves(pool.log, me) == Moves(old(pool.log), me)
  {
    hide *;
    ghost var ts := pool.tickets;
    NothingCompleted(pool.scopes, ts, ids, actual, me);
    for k := 0 to |ids|
      invariant pool.Valid() && pool.clock >= old(pool.clock)
      invariant Kept(Completed(pool.scopes, ts, ids[..k], actual), pool.tickets, me) && Moves(pool.log, me) == Moves(old(pool.log), me)
    {
      ghost var expected := Completed(pool.scopes, ts, ids[..k], actual);
      StillOpen(pool.scopes, ts, ids, actual, k);
      CompleteOne(pool, me, ids[k], actual, expected);
      CompletedMore(pool.scopes, ts, ids, actual, k);
    }
    assert ids[..|ids|] == ids;
  }

  lemma NothingCompleted(scopes: seq<Limiter>, ts: seq<Ticket>, ids: seq<nat>, actual: Option<nat>, me: nat)
    ensures Kept(Completed(scopes, ts, ids[..0], actual), ts, me)
  {
  }

  /** The next ticket of the list has not been touched by completing those before it. */
  lemma StillOpen(scopes: seq<Limiter>, ts: seq<Ticket>, ids: seq<nat>, actual: Option<nat>, k: nat)
    requires Distinct(ids) && k < |ids| && ids[k] < |ts|
    ensures Completed(scopes, ts, ids[..k], actual)[ids[k]] == ts[ids[k]]
  {
    Untouched(scopes, ts, ids[..k], actual, ids[k]);
  }

  lemma {:induction false} Untouched(scopes: seq<Limiter>, ts: seq<Ticket>, ids: seq<nat>, actual: Option<nat>, i: nat)
    requires i < |ts| && i !in ids
    ensures Completed(scopes, ts, ids, actual)[i] == ts[i]
  {
    if ids != [] {
      Untouched(scopes, ts, ids[..|ids| - 1], actual, i);
    }
  }

  lemma CompletedMore(scopes: seq<Limiter>, ts: seq<Ticket>, ids: seq<nat>, actual: Option<nat>, k: nat)
    requires k < |ids| && ids[k] < |ts| && ts[ids[k]].limiter < |scopes|
    ensures Completed(scopes, ts, ids[..k + 1], actual) ==
            Completed(scopes, ts, ids[..k], actual)[ids[k] := CompletedTicket(scopes[ts[ids[k]].limiter], ts[ids[k]], actual)]
  {
    assert ids[..k + 1][..k] == ids[..k];
  }

  method CompleteOne(pool: LimiterPool, me: nat, id: nat, actual: Option<nat>, ghost expected: seq<Ticket>)
    requires pool.Valid() && Kept(expected, pool.tickets, me) && id < |expected| && expected[id].owner == me && !expected[id].released
    requires actual.Some? ==> expected[id].limiter < |pool.scopes| ==> !pool.scopes[expected[id].limiter].Concurrency?
    modifies pool
    ensures pool.Valid() && pool.clock >= old(pool.clock)
    ensures expected[id].limiter < |pool.scopes| && Moves(pool.log, me) == Moves(old(pool.log), me)
    ensures Kept(expected[id := CompletedTicket(pool.scopes[expected[id].limiter], expected[id], actual)], pool.tickets, me)
  {
    hide Moves, LimiterPool.Valid;
    ghost var ts := pool.tickets;
    pool.Interfere(me);
    KeptTransitive(expected, ts, pool.tickets, me);
    ghost var calls := pool.log;
    ts := pool.tickets;
    pool.TicketInPool(id);
    if actual.None? {
      pool.Complete(id);
    } else {
      pool.Settle(id, actual.value);
    }
    MovesMore(calls, pool.log[|calls|], me);
    KeptUpdate(expected, ts, id, pool.tickets[id], me);
  }

  lemma HeldInRange(before: seq<Ticket>, ts: seq<Ticket>, me: nat, requests: seq<nat>, tokens: seq<nat>)
    requires Books(before, ts, me, SetOf(requests) + SetOf(tokens))
    ensures forall k | 0 <= k < |requests| :: requests[k] < |ts| && ts[requests[k]].owner == me && !ts[requests[k]].released
    ensures forall k | 0 <= k < |tokens| :: tokens[k] < |ts| && ts[tokens[k]].owner == me && !ts[tokens[k]].released
  {
    assert forall k | 0 <= k < |requests| :: requests[k] in SetOf(requests) + SetOf(tokens);
    assert forall k | 0 <= k < |tokens| :: tokens[k] in SetOf(requests) + SetOf(tokens);
  }

  lemma TicketsInRange(ls: seq<Limiter>, ts: seq<Ticket>, ids: seq<nat>, held: set<nat>)
    requires TicketsOk(ls, ts) && Held(ids, held) && forall id <- held :: id < |ts|
    ensures InRange(ls, ts, ids)
  {
  }

  lemma TokensUntouched(scopes: seq<Limiter>, ts: seq<Ticket>, ts': seq<Ticket>, middle: seq<Ticket>, me: nat, requests: seq<nat>, tokens: seq<nat>)
    requires Apart(requests, tokens) && ts' == Completed(scopes, ts, requests, None) && Kept(ts', middle, me)
    requires forall i | 0 <= i < |ts| :: ts[i].limiter < |scopes|
    requires forall k | 0 <= k < |tokens| :: tokens[k] < |ts| && ts[tokens[k]].owner == me
    ensures forall k | 0 <= k < |tokens| :: middle[tokens[k]] == ts'[tokens[k]] == ts[tokens[k]]
  {
    forall k | 0 <= k < |tokens| ensures middle[tokens[k]] == ts'[tokens[k]] == ts[tokens[k]] {
      CompletedAt(scopes, ts, requests, None, tokens[k]);
      assert tokens[k] in SetOf(tokens);
    }
  }

  lemma {:induction false} KeptCompleted(scopes: seq<Limiter>, ts: seq<Ticket>, ts': seq<Ticket>, me: nat, ids: seq<nat>, actual: Option<nat>)
    requires Kept(ts, ts', me)
    requires forall k | 0 <= k < |ids| :: ids[k] < |ts| && ts[ids[k]].owner == me
    ensures Kept(Completed(scopes, ts, ids, actual), Completed(scopes, ts', ids, actual), me)
  {
    if ids != [] {
      var n := |ids| - 1;
      var id := ids[n];
      KeptCompleted(scopes, ts, ts', me, ids[..n], actual);
      if ts[id].limiter < |scopes| {
        var t := CompletedTicket(scopes[ts[id].limiter], ts[id], actual);
        KeptUpdate(Completed(scopes, ts, ids[..n], actual), Completed(scopes, ts', ids[..n], actual), id, t, me);
      }
    }
  }

  class ReservationSet {
    const pool: LimiterPool
    const me: nat
    var requests: seq<nat>
    var tokens: seq<nat>

    /** What holds of a set until it is settled: it is for these limiters, and the rest of the books is clear. */
    ghost predicate Holding(before: seq<Ticket>, reqs: seq<nat>, toks: seq<nat>, est: nat)
      reads this, pool
    {
      pool.Valid() && Collected(before, pool.tickets, me, requests, tokens, reqs, toks, est)
    }

    constructor (pool: LimiterPool, me: nat)
      ensures this.pool == pool && this.me == me && requests == [] && tokens == []
    {
      this.pool, this.me, requests, tokens := pool, me, [], [];
    }

    /**
     Reserves a scope's limiters on top of what the set holds; on a refusal the set holds what it got so far. `done'` are
     the demands reserved by then, `calls` the reservations tried.
     */
    method ReserveGroup(g: Group, est: nat, alone: bool, ghost before: seq<Ticket>, ghost reqs: seq<nat>, ghost toks: seq<nat>,
                        ghost start: seq<Limiter>, ghost done: seq<(nat, nat)>)
      returns (ok: bool, ghost reqs': seq<nat>, ghost toks': seq<nat>, ghost done': seq<(nat, nat)>, ghost calls: seq<Call>)
      requires Holding(before, reqs, toks, est) && GroupInPool(g, |pool.limiters|)
      requires alone ==> ExactlyReserved(start, before, pool.clock, done, pool.limiters, pool.tickets, me)
      modifies this, pool
      ensures Holding(before, reqs', toks', est) && pool.clock >= old(pool.clock) && |pool.limiters| == |old(pool.limiters)|
      ensures ok ==> reqs' == reqs + g.requests && toks' == toks + if est > 0 then g.tokens else []
      ensures Moves(pool.log, me) == Moves(old(pool.log), me) + calls
      ensures ReservesOf(calls, GroupDemands(g, est)) && Ran(calls, |GroupDemands(g, est)|, ok)
      ensures Ids() >= old(Ids()) && GotIn(calls, Ids())
      ensures alone ==>
                && pool.clock == old(pool.clock) && InPool(done + GroupDemands(g, est), start)
                && ExactlyReserved(start, before, pool.clock, done', pool.limiters, pool.tickets, me)
      ensures alone && ok ==> done' == done + GroupDemands(g, est)
      ensures alone && !ok ==> ReserveAll(start, done + GroupDemands(g, est), me, pool.clock).None?
    {
      hide *;
      ghost var log := pool.log;
      GroupInOrder(g, est, done, toks);
      GroupBounds(g, |pool.limiters|);
      ok, reqs', done', calls := ReserveRequests(g.requests, alone, before, reqs, toks, est, start, done);
      toks' := toks;
      if ok && est > 0 {
        ghost var first, middle, ids := calls, pool.log, Ids();
        ok, toks', done', calls := ReserveTokens(g.tokens, alone, before, reqs', toks, est, start, done');
        BothGroups(first, Asking(g.requests, 1), calls, Asking(g.tokens, est), ok, ids, Ids());
        MovesChain(log, middle, pool.log, me, first, calls);
        calls := first + calls;
      } else if !ok {
        FirstGroupFailed(calls, Asking(g.requests, 1), if est > 0 then Asking(g.tokens, est) else []);
        if alone {
          ReservedInPool(start, before, pool.clock, done', pool.limiters, pool.tickets, me);
          RefusedInGroup(start, done, g, est, me, pool.clock);
        }
      }
    }

    method ReserveRequests(ids: seq<nat>, alone: bool, ghost before: seq<Ticket>, ghost reqs: seq<nat>, ghost toks: seq<nat>,
                           ghost est: nat, ghost start: seq<Limiter>, ghost done: seq<(nat, nat)>)
      returns (ok: bool, ghost reqs': seq<nat>, ghost done': seq<(nat, nat)>, ghost calls: seq<Call>)
      requires Holding(before, reqs, toks, est) && forall k | 0 <= k < |ids| :: ids[k] < |pool.limiters|
      requires alone ==> ExactlyReserved(start, before, pool.clock, done, pool.limiters, pool.tickets, me)
      modifies this, pool
      ensures Holding(before, reqs', toks, est) && pool.clock >= old(pool.clock) && |pool.limiters| == |old(pool.limiters)|
      ensures ok ==> reqs' == reqs + ids
      ensures Moves(pool.log, me) == Moves(old(pool.log), me) + calls
      ensures ReservesOf(calls, Asking(ids, 1)) && Ran(calls, |ids|, ok)
      ensures Ids() >= old(Ids()) && GotIn(calls, Ids())
      ensures alone ==>
                && pool.clock == old(pool.clock) && InPool(done + Asking(ids, 1), start)
                && ExactlyReserved(start, before, pool.clock, done', pool.limiters, pool.tickets, me)
      ensures alone && ok ==> done' == done + Asking(ids, 1)
      ensures alone && !ok ==> ReserveAll(start, done + Asking(ids, 1), me, pool.clock).None?
    {
      hide Moves, LimiterPool.Valid, ExactlyReserved, ReserveAll, Books, Gathered, Names;
      HoldingBooks(before, reqs, toks, est);
      PoolSize(pool);
      var got;
      ok, got, calls := ReserveEach(pool, me, ids, 1, alone, before, SetOf(requests) + SetOf(tokens), start, done);
      MoreRequests(before, old(pool.tickets), pool.tickets, me, requests, tokens, reqs, toks, est, got, ids[..|got|]);
      SetOfBoth(requests, got);
      PoolSize(pool);
      GetsIn(calls, got);
      requests := requests + got;
      reqs', done' := reqs + ids[..|got|], done + Asking(ids[..|got|], 1);
      assert ids[..|ids|] == ids;
    }

    method ReserveTokens(ids: seq<nat>, alone: bool, ghost before: seq<Ticket>, ghost reqs: seq<nat>, ghost toks: seq<nat>,
                         est: nat, ghost start: seq<Limiter>, ghost done: seq<(nat, nat)>)
      returns (ok: bool, ghost toks': seq<nat>, ghost done': seq<(nat, nat)>, ghost calls: seq<Call>)
      requires Holding(before, reqs, toks, est) && forall k | 0 <= k < |ids| :: ids[k] < |pool.limiters|
      requires alone ==> ExactlyReserved(start, before, pool.clock, done, pool.limiters, pool.tickets, me)
      modifies this, pool
      ensures Holding(before, reqs, toks', est) && pool.clock >= old(pool.clock) && |pool.limiters| == |old(pool.limiters)|
      ensures ok ==> toks' == toks + ids
      ensures Moves(pool.log, me) == Moves(old(pool.log), me) + calls
      ensures ReservesOf(calls, Asking(ids, est)) && Ran(calls, |ids|, ok)
      ensures Ids() >= old(Ids()) && GotIn(calls, Ids())
      ensures alone ==>
                && pool.clock == old(pool.clock) && InPool(done + Asking(ids, est), start)
                && ExactlyReserved(start, before, pool.clock, done', pool.limiters, pool.tickets, me)
      ensures alone && ok ==> done' == done + Asking(ids, est)
      ensures alone && !ok ==> ReserveAll(start, done + Asking(ids, est), me, pool.clock).None?
    {
      hide Moves, LimiterPool.Valid, ExactlyReserved, ReserveAll, Books, Gathered, Names;
      HoldingBooks(before, reqs, toks, est);
      PoolSize(pool);
      var got;
      ok, got, calls := ReserveEach(pool, me, ids, est, alone, before, SetOf(requests) + SetOf(tokens), start, done);
      MoreTokens(before, old(pool.tickets), pool.tickets, me, requests, tokens, reqs, toks, est, got, ids[..|got|]);
      SetOfBoth(tokens, got);
      PoolSize(pool);
      GetsIn(calls, got);
      tokens := tokens + got;
      toks', done' := toks + ids[..|got|], done + Asking(ids[..|got|], est);
      assert ids[..|ids|] == ids;
    }

    /** The tickets of the set. */
    ghost function Ids(): set<nat>
      reads this
    {
      SetOf(requests) + SetOf(tokens)
    }

    lemma HoldingBooks(before: seq<Ticket>, reqs: seq<nat>, toks: seq<nat>, est: nat)
      requires Holding(before, reqs, toks, est)
      ensures pool.Valid() && Books(before, pool.tickets, me, Ids()) && Apart(requests, tokens)
      ensures Collected(before, pool.tickets, me, requests, tokens, reqs, toks, est) && Ids() == SetOf(requests) + SetOf(tokens)
      ensures Held(requests, Ids()) && Held(tokens, Ids()) && Distinct(requests) && Distinct(tokens)
      ensures forall id <- Ids() :: id < |pool.tickets| && pool.tickets[id].owner == me && !pool.tickets[id].released
    {
    }

    /**
     Waits until the reservations are ready. When no reservation reports a delay it does not wait at all, not even for
     one that has yet to be acquired; then all are ready but perhaps some of daily quotas. `asks` are the questions for
     delays, `waits` the waits made. On failure everything is cancelled.
     */
    method Wait(alone: bool, ghost before: seq<Ticket>, ghost reqs: seq<nat>, ghost toks: seq<nat>, ghost est: nat)
      returns (ok: bool, skipped: bool, ghost asks: seq<Call>, ghost waits: seq<Call>)
      requires Holding(before, reqs, toks, est)
      modifies this, pool
      ensures pool.clock >= old(pool.clock)
      ensures Moves(pool.log, me) == Moves(old(pool.log), me) + asks + waits
      ensures AsksOf(asks, old(requests + tokens)) && (skipped <==> Peak(ZERO, asks) == ZERO)
      ensures if skipped then ok && waits == [] else WaitsOf(waits, old(requests + tokens)) && Ran(waits, |old(requests + tokens)|, ok)
      ensures ok ==> requests == old(requests) && tokens == old(tokens) && Holding(before, reqs, toks, est)
      ensures ok ==> AllButDaily(pool.scopes, pool.clock, pool.tickets, requests + tokens)
      ensures ok && !skipped ==> AllReady(pool.scopes, pool.clock, pool.tickets, requests + tokens)
      ensures !ok ==> requests == [] && tokens == [] && pool.Valid() && Books(before, pool.tickets, me, {})
      ensures alone ==>
                && PoolWellFormed(old(pool.limiters), old(pool.clock)) && AllInRange(old(pool.limiters), old(pool.tickets), old(Ids()))
                && (skipped <==> NoDelays(old(pool.limiters), old(pool.tickets), old(Ids()), old(pool.clock)))
                && (skipped ==> pool.tickets == old(pool.tickets) && pool.clock == old(pool.clock))
    {
      hide Moves, LimiterPool.Valid, Books, Names, Peak, TicketDelay;
      var delay;
      delay, asks := MaxDelay(alone, before, reqs, toks, est);
      skipped, waits := delay == ZERO, [];
      if alone {
        LargestZero(delay, old(pool.limiters), pool.tickets, Ids(), pool.clock);
      }
      if skipped {
        return true, true, asks, waits;
      }
      ok, waits := WaitAll(before, reqs, toks, est);
      if ok {
        ReadyIsButDaily(pool.scopes, pool.clock, pool.tickets, requests + tokens);
      } else {
        Cancel(false, before, reqs, toks, est, []);
      }
    }

    /** Waits for everything the set holds, until one wait fails. */
    method WaitAll(ghost before: seq<Ticket>, ghost reqs: seq<nat>, ghost toks: seq<nat>, ghost est: nat)
      returns (ok: bool, ghost waits: seq<Call>)
      requires Holding(before, reqs, toks, est)
      modifies pool
      ensures Holding(before, reqs, toks, est) && pool.clock >= old(pool.clock)
      ensures Moves(pool.log, me) == Moves(old(pool.log), me) + waits
      ensures WaitsOf(waits, requests + tokens) && Ran(waits, |requests + tokens|, ok)
      ensures ok ==> AllReady(pool.scopes, pool.clock, pool.tickets, requests + tokens)
    {
      hide *;
      ghost var held, ts, calls := Ids(), pool.tickets, pool.log;
      HoldingBooks(before, reqs, toks, est);
      ok, waits := WaitEach(pool, me, requests, before, held);
      CollectedWaited(before, ts, pool.tickets, me, requests, tokens, reqs, toks, est);
      HoldingNow(before, reqs, toks, est);
      if ok {
        ghost var clock, first, middle := pool.clock, waits, pool.log;
        ts := pool.tickets;
        ok, waits := WaitEach(pool, me, tokens, before, held);
        CollectedWaited(before, ts, pool.tickets, me, requests, tokens, reqs, toks, est);
        HoldingNow(before, reqs, toks, est);
        StillReady(pool.scopes, clock, pool.clock, ts, pool.tickets, requests, held);
        MovesChain(calls, middle, pool.log, me, first, waits);
        AwaitedBoth(first, waits, requests, tokens, ok);
        if ok {
          ReadyBoth(pool.scopes, pool.clock, pool.tickets, requests, tokens);
        }
        waits := first + waits;
      } else {
        AwaitedFirst(waits, requests, tokens);
      }
    }

    lemma HoldingNow(before: seq<Ticket>, reqs: seq<nat>, toks: seq<nat>, est: nat)
      requires pool.Valid() && Collected(before, pool.tickets, me, requests, tokens, reqs, toks, est)
      ensures Holding(before, reqs, toks, est)
    {
    }

    /** The largest delay of what the set holds; `asks` are the questions. */
    method MaxDelay(alone: bool, ghost before: seq<Ticket>, ghost reqs: seq<nat>, ghost toks: seq<nat>, ghost est: nat)
      returns (delay: Delay, ghost asks: seq<Call>)
      requires Holding(before, reqs, toks, est)
      modifies pool
      ensures Holding(before, reqs, toks, est) && pool.clock >= old(pool.clock)
      ensures Moves(pool.log, me) == Moves(old(pool.log), me) + asks && AsksOf(asks, requests + tokens) && delay == Peak(ZERO, asks)
      ensures delay == ZERO ==> AllButDaily(pool.scopes, pool.clock, pool.tickets, requests + tokens)
      ensures alone ==>
                && pool.tickets == old(pool.tickets) && pool.clock == old(pool.clock)
                && NormalAll(pool.limiters, pool.clock) == NormalAll(old(pool.limiters), pool.clock)
                && PoolWellFormed(old(pool.limiters), pool.clock) && AllInRange(old(pool.limiters), pool.tickets, Ids())
                && Largest(delay, old(pool.limiters), pool.tickets, Ids(), pool.clock)
    {
      hide *;
      ghost var held, ls, ts, log := Ids(), pool.limiters, pool.tickets, pool.log;
      HoldingBooks(before, reqs, toks, est);
      PoolTicketsOk(pool);
      TicketsInRange(ls, ts, tokens, held);
      TicketsInRange(ls, ts, requests, held);
      ZeroIsZero();
      delay, asks := MaxEach(pool, me, requests, ZERO, alone, before, held);
      ghost var ts', clock, first, firstAsks, ls', log' := pool.tickets, pool.clock, delay, asks, pool.limiters, pool.log;
      HeldMine(before, ts', me, requests, held);
      PoolTicketsOk(pool);
      delay, asks := MaxEach(pool, me, tokens, delay, alone, before, held);
      StillButDailyIf(first == ZERO, pool.scopes, clock, pool.clock, ts', pool.tickets, requests, me);
      KeptTransitive(ts, ts', pool.tickets, me);
      HoldingKept(ts, before, reqs, toks, est);
      PeakBoth(ZERO, firstAsks, asks);
      AsksOfBoth(firstAsks, requests, asks, tokens);
      MovesChain(log, log', pool.log, me, firstAsks, asks);
      if delay == ZERO {
        ButDailyBoth(pool.scopes, pool.clock, pool.tickets, requests, tokens);
      }
      asks := firstAsks + asks;
      if alone {
        DelayOverWhenNormal(ls, ls', ts, tokens, pool.clock, first);
        DelayOfBoth(ls, ts, requests, tokens, pool.clock);
      }
    }

    /** The set holds on while others act. */
    lemma HoldingKept(ts: seq<Ticket>, before: seq<Ticket>, reqs: seq<nat>, toks: seq<nat>, est: nat)
      requires pool.Valid() && Kept(ts, pool.tickets, me) && Collected(before, ts, me, requests, tokens, reqs, toks, est)
      ensures Holding(before, reqs, toks, est)
    {
      hide Books, Names, Kept, LimiterPool.Valid, Waited;
      BooksKept(before, ts, pool.tickets, me, SetOf(requests) + SetOf(tokens));
      KeptIsWaited(before, ts, pool.tickets, me, SetOf(requests) + SetOf(tokens));
      CollectedWaited(before, ts, pool.tickets, me, requests, tokens, reqs, toks, est);
    }

    /**
     Completes everything the set holds, tokens at their actual use, and lets go of it: a later cancellation finds
     nothing to settle.
     */
    method Complete(actualTokens: nat, ghost before: seq<Ticket>, ghost reqs: seq<nat>, ghost toks: seq<nat>, ghost est: nat)
      requires Holding(before, reqs, toks, est)
      requires forall k | 0 <= k < |toks| :: toks[k] < |pool.scopes| && !pool.scopes[toks[k]].Concurrency?
      modifies this, pool
      ensures pool.Valid() && pool.clock >= old(pool.clock)
      ensures requests == [] && tokens == [] && Moves(pool.log, me) == Moves(old(pool.log), me)
      ensures Kept(Completed(pool.scopes, Completed(pool.scopes, old(pool.tickets), old(requests), None), old(tokens), Some(actualTokens)),
                   pool.tickets, me)
    {
      ghost var ts := pool.tickets;
      HeldInRange(before, ts, me, requests, tokens);
      CompleteEach(pool, me, requests, None);
      ghost var ts' := Completed(pool.scopes, ts, requests, None);
      ghost var middle := pool.tickets;
      TokensUntouched(pool.scopes, ts, ts', middle, me, requests, tokens);
      CompleteEach(pool, me, tokens, Some(actualTokens));
      KeptCompleted(pool.scopes, ts', middle, me, tokens, Some(actualTokens));
      KeptTransitive(Completed(pool.scopes, ts', tokens, Some(actualTokens)),
                     Completed(pool.scopes, middle, tokens, Some(actualTokens)), pool.tickets, me);
      requests, tokens := [], [];
    }

    /**
     Cancels everything the set holds, which may be nothing any more: then nothing happens. With nobody else acting,
     limiters carry on charging nothing of the set.
     */
    method Cancel(alone: bool, ghost before: seq<Ticket>, ghost reqs: seq<nat>, ghost toks: seq<nat>, ghost est: nat, ghost start: seq<Limiter>)
      requires pool.Valid() && (Holding(before, reqs, toks, est) || requests + tokens == [])
      requires alone ==> Holding(before, reqs, toks, est) && AllCarry(start, |before|, pool.clock, pool.limiters, pool.tickets, me)
      modifies this, pool
      ensures pool.Valid() && pool.clock >= old(pool.clock) && requests == [] && tokens == []
      ensures Moves(pool.log, me) == Moves(old(pool.log), me)
      ensures old(Holding(before, reqs, toks, est)) ==> Books(before, pool.tickets, me, {})
      ensures old(requests + tokens) == [] ==>
                pool.tickets == old(pool.tickets) && pool.limiters == old(pool.limiters) && pool.clock == old(pool.clock)
      ensures alone ==>
                && pool.clock == old(pool.clock) && AllCarry(start, |before|, pool.clock, pool.limiters, pool.tickets, me)
                && |pool.tickets| == |old(pool.tickets)|
    {
      hide Moves, LimiterPool.Valid, AllCarry;
      ghost var base := if requests + tokens == [] && !Holding(before, reqs, toks, est) then pool.tickets else before;
      assert SetOf([]) + SetOf([]) == {};
      CancelEach(pool, me, requests, alone, base, SetOf(tokens), start);
      assert SetOf(tokens) == SetOf(tokens) + {};
      CancelEach(pool, me, tokens, alone, base, {}, start);
      requests, tokens := [], [];
    }
  }

  lemma ZeroIsZero()
    ensures !ZERO.Less(ZERO)
  {
  }

  lemma AsksOfBoth(a: seq<Call>, xs: seq<nat>, b: seq<Call>, ys: seq<nat>)
    requires AsksOf(a, xs) && AsksOf(b, ys)
    ensures AsksOf(a + b, xs + ys)
  {
  }

  lemma ButDailyBoth(scopes: seq<Limiter>, clock: real, ts: seq<Ticket>, xs: seq<nat>, ys: seq<nat>)
    requires AllButDaily(scopes, clock, ts, xs) && AllButDaily(scopes, clock, ts, ys)
    ensures AllButDaily(scopes, clock, ts, xs + ys)
  {
  }

  lemma PoolSize(pool: LimiterPool)
    requires pool.Valid()
    ensures |pool.limiters| == |pool.scopes|
  {
  }

  /** Every granted reservation among these is one of the ids. */
  ghost predicate GotIn(calls: seq<Call>, ids: set<nat>) {
    forall c <- calls :: c.ReserveCall? && (c.got.Some? ==> c.got.value in ids)
  }

  lemma GetsIn(calls: seq<Call>, got: seq<nat>)
    requires Gets(calls, got)
    ensures GotIn(calls, SetOf(got))
  {
  }

  lemma SetOfBoth(a: seq<nat>, b: seq<nat>)
    ensures SetOf(a + b) == SetOf(a) + SetOf(b)
  {
  }

  lemma ReservesOfBoth(a: seq<Call>, xs: seq<(nat, nat)>, b: seq<Call>, ys: seq<(nat, nat)>)
    requires ReservesOf(a, xs) && |a| == |xs| && ReservesOf(b, ys)
    ensures ReservesOf(a + b, xs + ys)
  {
  }

  lemma ReservesOfMore(a: seq<Call>, xs: seq<(nat, nat)>, ys: seq<(nat, nat)>)
    requires ReservesOf(a, xs)
    ensures ReservesOf(a, xs + ys)
  {
  }

  /** None of the tickets reports a delay. */
  ghost predicate NoDelays(ls: seq<Limiter>, ts: seq<Ticket>, ids: set<nat>, now: real)
    requires PoolWellFormed(ls, now) && AllInRange(ls, ts, ids)
  {
    forall id <- ids :: TicketDelay(ls[ts[id].limiter], ts[id], now) == ZERO
  }

  lemma LargestZero(d: Delay, ls: seq<Limiter>, ts: seq<Ticket>, ids: set<nat>, now: real)
    requires PoolWellFormed(ls, now) && AllInRange(ls, ts, ids) && Largest(d, ls, ts, ids, now)
    ensures d == ZERO <==> NoDelays(ls, ts, ids, now)
  {
    forall id | id in ids ensures !TicketDelay(ls[ts[id].limiter], ts[id], now).Less(ZERO) {
      DelayFromZero(ls[ts[id].limiter], ts[id], now);
    }
  }

  lemma ReadyIsButDaily(scopes: seq<Limiter>, clock: real, ts: seq<Ticket>, ids: seq<nat>)
    requires AllReady(scopes, clock, ts, ids)
    ensures AllButDaily(scopes, clock, ts, ids)
  {
  }

  lemma GroupInOrder(g: Group, est: nat, done: seq<(nat, nat)>, toks: seq<nat>)
    ensures done + GroupDemands(g, est) ==
            if est > 0 then done + Asking(g.requests, 1) + Asking(g.tokens, est) else done + Asking(g.requests, 1)
    ensures GroupDemands(g, est) == Asking(g.requests, 1) + (if est > 0 then Asking(g.tokens, est) else [])
    ensures est == 0 ==> GroupDemands(g, est) == Asking(g.requests, 1)
    ensures |Asking(g.requests, 1)| == |g.requests| && |Asking(g.tokens, est)| == |g.tokens|
    ensures toks + [] == toks
  {
  }

  lemma BothGroups(a: seq<Call>, xs: seq<(nat, nat)>, b: seq<Call>, ys: seq<(nat, nat)>, ok: bool, ids: set<nat>, ids': set<nat>)
    requires ids <= ids' && GotIn(a, ids) && GotIn(b, ids')
    requires ReservesOf(a, xs) && Ran(a, |xs|, true) && ReservesOf(b, ys) && Ran(b, |ys|, ok)
    ensures ReservesOf(a + b, xs + ys) && Ran(a + b, |xs + ys|, ok)
    ensures GotIn(a + b, ids')
  {
    ReservesOfBoth(a, xs, b, ys);
    RanBoth(a, b, |xs|, |ys|, ok);
  }

  lemma FirstGroupFailed(a: seq<Call>, xs: seq<(nat, nat)>, ys: seq<(nat, nat)>)
    requires ReservesOf(a, xs) && Ran(a, |xs|, false)
    ensures ReservesOf(a, xs + ys) && Ran(a, |xs + ys|, false)
  {
    ReservesOfMore(a, xs, ys);
  }

  lemma GroupBounds(g: Group, size: nat)
    requires GroupInPool(g, size)
    ensures (forall k | 0 <= k < |g.requests| :: g.requests[k] < size) && (forall k | 0 <= k < |g.tokens| :: g.tokens[k] < size)
  {
  }

  ghost predicate GroupInPool(g: Group, size: nat) {
    (forall k | 0 <= k < |g.requests| :: g.requests[k] < size) && (forall k | 0 <= k < |g.tokens| :: g.tokens[k] < size)
  }

  lemma ReservedInPool(start: seq<Limiter>, before: seq<Ticket>, at: real, ds: seq<(nat, nat)>, ls: seq<Limiter>, ts: seq<Ticket>, me: nat)
    requires ExactlyReserved(start, before, at, ds, ls, ts, me)
    ensures PoolWellFormed(start, at) && InPool(ds, start) && |start| == |ls|
  {
  }

  lemma RefusedInGroup(start: seq<Limiter>, done: seq<(nat, nat)>, g: Group, est: nat, me: nat, now: real)
    requires PoolWellFormed(start, now) && GroupInPool(g, |start|)
    requires InPool(done + Asking(g.requests, 1), start) && ReserveAll(start, done + Asking(g.requests, 1), me, now).None?
    ensures InPool(done + GroupDemands(g, est), start) && ReserveAll(start, done + GroupDemands(g, est), me, now).None?
  {
    var more := if est > 0 then Asking(g.tokens, est) else [];
    RefusedForGood(start, done + Asking(g.requests, 1), more, me, now);
    assert done + GroupDemands(g, est) == done + Asking(g.requests, 1) + more;
  }
}
