/**
 Reserving and cancelling at one instant leaves the limiters as they were: what reservations charge, their cancellation
 returns, in whatever order, and nothing is spilled on the way.
 */
module Refunds {
  import opened Basics
  import opened Limiters
  import opened LimiterPools
  import TB = TokenBuckets
  import DQ = DailyQuotas

  /** The limiter as it is at this moment: a bucket filled, a quota reset if that is due. */
  function Refreshed(l: Limiter, now: real): Limiter {
    match l
    case Concurrency(_, _, _) => l
    case Rate(b) => Rate(TB.Filled(b, now))
    case Daily(q) => Daily(DQ.Flushed(q, now))
  }

  /** The limiter with so much more charged to it. */
  function Plus(l: Limiter, c: int): Limiter {
    match l
    case Concurrency(_, inUse, _) => l.(inUse := inUse + c)
    case Rate(b) => Rate(b.(tokens := b.tokens - c as real))
    case Daily(q) => Daily(q.(used := q.used + c))
  }

  /** A limiter that was `start` and is charged c more: untouched, or charged at this moment. */
  ghost predicate Carries(start: Limiter, l: Limiter, c: int, now: real) {
    l == Plus(Refreshed(start, now), c) || (l == start && c == 0)
  }

  lemma RefreshedTwice(l: Limiter, c: int, now: real)
    requires WellFormed(l) && c >= 0
    ensures Refreshed(Plus(Refreshed(l, now), c), now) == Plus(Refreshed(l, now), c)
  {
    assert now < DQ.NextMidnight(now);
  }

  lemma ReserveCarries(start: Limiter, l: Limiter, c: nat, now: real, id: nat, owner: nat, units: nat)
    requires WellFormed(start) && WellFormed(l) && Carries(start, l, c, now)
    ensures match Reserve(l, now, units)
            case None => true
            case Some((l', ok)) => WellFormed(l') ==> Carries(start, l', c + NewTicket(l', id, owner, now, units, ok).charge, now)
  {
    RefreshedTwice(start, c, now);
    RefreshedTwice(start, 0, now);
  }

  /** Cancelling one of the reservations that make up the charge. */
  lemma CancelCarries(start: Limiter, l: Limiter, c: int, now: real, t: Ticket)
    requires WellFormed(start) && (start.Rate? ==> start.bucket.lastUpdate <= now) && WellFormed(l)
    requires Carries(start, l, c, now) && TicketOk(l, t) && !t.released && t.charge <= c
    ensures var (l', t') := Settle(l, t, now, 0); Carries(start, l', c + t'.charge - t.charge, now)
  {
    RefreshedTwice(start, c, now);
    if t.acquired && l.Rate? && t.units > 0 {
      assert l == Plus(Refreshed(start, now), c);
      assert TB.Filled(l.bucket, now) == l.bucket;
    }
  }

  /** Since there were n tickets, one owner alone has made reservations, and the limiters carry what they are charged. */
  ghost predicate AllCarry(start: seq<Limiter>, n: nat, now: real, ls: seq<Limiter>, ts: seq<Ticket>, owner: nat) {
    && |start| == |ls| && n <= |ts| && PoolWellFormed(start, now)
    && (forall i | n <= i < |ts| :: ts[i].owner == owner && ts[i].charge >= 0)
    && forall l | 0 <= l < |ls| :: Carries(start[l], ls[l], Outstanding(ts[n..], l), now)
  }

  lemma ReservedCarries(start: seq<Limiter>, n: nat, now: real, ls: seq<Limiter>, ts: seq<Ticket>, l: nat, units: nat, owner: nat)
    requires AllCarry(start, n, now, ls, ts, owner) && PoolWellFormed(ls, now) && l < |ls|
    ensures match Reserve(ls[l], now, units)
            case None => true
            case Some((l', ok)) =>
              WellFormed(l') ==> AllCarry(start, n, now, ls[l := l'], ts + [NewTicket(l', l, owner, now, units, ok)], owner)
  {
    match Reserve(ls[l], now, units) {
      case None =>
      case Some((l', ok)) =>
        if WellFormed(l') {
          hide Carries, Reserve, NewTicket, Outstanding;
          var t := TicketFor(l', l, owner, now, units, ok);
          SumNonNegative(ts[n..], l);
          ReserveCarries(start[l], ls[l], Outstanding(ts[n..], l), now, l, owner, units);
          assert (ts + [t])[n..] == ts[n..] + [t];
          forall k | 0 <= k < |ls| ensures Carries(start[k], ls[l := l'][k], Outstanding((ts + [t])[n..], k), now) {
            OutstandingWith(ts[n..], t, k);
          }
        }
    }
  }

  function TicketFor(l': Limiter, l: nat, owner: nat, now: real, units: nat, ok: bool): (t: Ticket)
    requires WellFormed(l')
    ensures t == NewTicket(l', l, owner, now, units, ok) && t.limiter == l && t.owner == owner && t.charge >= 0
  {
    NewTicket(l', l, owner, now, units, ok)
  }

  lemma CancelledCarries(start: seq<Limiter>, n: nat, now: real, ls: seq<Limiter>, ts: seq<Ticket>, owner: nat, id: nat)
    requires AllCarry(start, n, now, ls, ts, owner) && PoolWellFormed(ls, now) && TicketsOk(ls, ts) && n <= id < |ts| && !ts[id].released
    ensures var (l', t') := Settle(ls[ts[id].limiter], ts[id], now, 0);
            AllCarry(start, n, now, ls[ts[id].limiter := l'], ts[id := t'], owner)
  {
    hide Carries, Settle, Outstanding, WellFormed, TicketOk;
    var t, l := ts[id], ls[ts[id].limiter];
    var (l', t') := Settle(l, t, now, 0);
    CancelledOne(start, n, now, ls, ts, owner, id);
    SettleSameTerms(l, t, now);
    assert ts[n..][id - n] == t && ts[id := t'][n..] == ts[n..][id - n := t'];
    forall k | 0 <= k < |ls| ensures Carries(start[k], ls[t.limiter := l'][k], Outstanding(ts[id := t'][n..], k), now) {
      OutstandingAfter(ts[n..], id - n, t', k);
    }
  }

  lemma CancelledOne(start: seq<Limiter>, n: nat, now: real, ls: seq<Limiter>, ts: seq<Ticket>, owner: nat, id: nat)
    requires AllCarry(start, n, now, ls, ts, owner) && PoolWellFormed(ls, now) && TicketsOk(ls, ts) && n <= id < |ts| && !ts[id].released
    ensures var k := ts[id].limiter;
            var (l', t') := Settle(ls[k], ts[id], now, 0);
            Carries(start[k], l', Outstanding(ts[n..], k) + t'.charge - ts[id].charge, now)
  {
    hide Carries, Settle, Outstanding;
    var t, mine := ts[id], ts[n..];
    assert mine[id - n] == t && forall u <- mine :: u.charge >= 0;
    ChargesAtLeast(mine, id - n);
    CancelCarries(start[t.limiter], ls[t.limiter], Outstanding(mine, t.limiter), now, t);
  }

  lemma SettleSameTerms(l: Limiter, t: Ticket, now: real)
    ensures var (_, t') := Settle(l, t, now, 0); t'.limiter == t.limiter && t'.owner == t.owner && (t.charge >= 0 ==> t'.charge >= 0)
  {
  }

  lemma {:induction false} ReserveAllCarries(start: seq<Limiter>, ds: seq<(nat, nat)>, owner: nat, now: real)
    requires InPool(ds, start) && PoolWellFormed(start, now)
    ensures match ReserveAll(start, ds, owner, now)
            case None => true
            case Some((ls, ts)) => AllCarry(start, 0, now, ls, ts, owner)
  {
    if ds != [] {
      var init, last := ds[..|ds| - 1], ds[|ds| - 1];
      ReserveAllCarries(start, init, owner, now);
      match ReserveAll(start, init, owner, now) {
        case None =>
        case Some((ls, ts)) =>
          hide AllCarry, Reserve;
          ProbePredictsReserve(ls[last.0], last.0, owner, now, last.1);
          ReservedCarries(start, 0, now, ls, ts, last.0, last.1, owner);
      }
    }
  }

  /** The same after other tickets. */
  lemma CarriesAfter(start: seq<Limiter>, now: real, ls: seq<Limiter>, ts: seq<Ticket>, owner: nat, n: nat)
    requires n <= |ts| && AllCarry(start, 0, now, ls, ts[n..], owner)
    ensures AllCarry(start, n, now, ls, ts, owner)
  {
    assert ts[n..][0..] == ts[n..];
    forall i | n <= i < |ts| ensures ts[i].owner == owner && ts[i].charge >= 0 {
      assert ts[n..][i - n] == ts[i];
    }
  }

  /** Each limiter is as it was, but for what looking at it at this moment would do. */
  ghost predicate Restored(start: seq<Limiter>, ls: seq<Limiter>, now: real) {
    |start| == |ls| && forall l | 0 <= l < |ls| :: ls[l] == start[l] || ls[l] == Refreshed(start[l], now)
  }

  lemma AllReturned(start: seq<Limiter>, n: nat, now: real, ls: seq<Limiter>, ts: seq<Ticket>, owner: nat)
    requires AllCarry(start, n, now, ls, ts, owner) && forall i | n <= i < |ts| :: ts[i].charge == 0
    ensures Restored(start, ls, now)
  {
    forall l | 0 <= l < |ls| ensures ls[l] == start[l] || ls[l] == Refreshed(start[l], now) {
      assert forall t <- ts[n..] :: ChargeAt(l)(t) == 0;
      SumZero(ChargeAt(l), ts[n..]);
    }
  }

  /** A restored pool looks as before. */
  lemma RestoredLooksSame(start: seq<Limiter>, ls: seq<Limiter>, now: real, l: nat, units: nat, t: Ticket)
    requires PoolWellFormed(start, now) && PoolWellFormed(ls, now) && Restored(start, ls, now) && l < |ls|
    ensures Probe(ls[l], now, units) == Probe(start[l], now, units) && TicketDelay(ls[l], t, now) == TicketDelay(start[l], t, now)
    ensures !ls[l].Rate? ==> Normal(ls[l], now) == Normal(start[l], now)
  {
    assert now < DQ.NextMidnight(now);
  }
}
