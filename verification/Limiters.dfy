/**
 The limiters of a scope seen through the one interface that scheduling uses: probe for a delay, reserve units, ask a
 reservation for its delay. A reservation (ticket) names its limiter by position in the pool, so that models which
 share an upstream's limiter share its state.
 */
module Limiters {
  import opened Basics
  import TB = TokenBuckets
  import DQ = DailyQuotas

  datatype Limiter =
    | Concurrency(limit: nat, inUse: int, estimate: real)
    | Rate(bucket: TB.Bucket)                              // RPM and TPM
    | Daily(quota: DQ.Quota)                               // RPD and TPD

  /** `charge` is what the ticket costs its limiter at the moment: permits held, tokens or units charged. */
  datatype Ticket = Ticket(limiter: nat, owner: nat, units: nat, acquired: bool, released: bool, readyAt: real, charge: int) {

    predicate SameTerms(that: Ticket) {
      limiter == that.limiter && owner == that.owner && units == that.units
    }
  }

  /** The moving average of observed waits: the newest counts 3 parts in 10. */
  function Smoothed(estimate: real, waited: real): real {
    0.3 * waited + 0.7 * estimate
  }

  predicate WellFormed(l: Limiter) {
    match l
    case Concurrency(limit, inUse, estimate) => 0 <= inUse <= limit && limit > 0 && estimate > 0.0
    case Rate(b) => b.Valid() && b.burst >= 1.0
    case Daily(q) => 0 <= q.used && q.limit > 0
  }

  function Probe(l: Limiter, now: real, units: nat): Delay
    requires WellFormed(l)
  {
    match l
    case Concurrency(limit, inUse, estimate) => if inUse < limit then ZERO else After(estimate)
    case Rate(b) => TB.ProbeDelay(b, now, units as real)
    case Daily(q) => DQ.ProbeDelay(q, now, units)
  }

  /** A daily limiter resets when it is looked at after midnight. */
  function Probed(l: Limiter, now: real, units: nat): Limiter {
    if l.Daily? && units <= l.quota.limit then Daily(DQ.Flushed(l.quota, now)) else l
  }

  /** None when the limiter can never grant that many units. */
  function Reserve(l: Limiter, now: real, units: nat): Option<(Limiter, bool)>
    requires WellFormed(l)
  {
    match l
    case Concurrency(limit, inUse, _) =>
      Some(if inUse < limit then (l.(inUse := inUse + 1), true) else (l, false))
    case Rate(b) =>
      if units as real > b.burst then None else Some((Rate(TB.Charged(b, now, units as real)), true))
    case Daily(q) =>
      if units > q.limit then None else Some((Daily(DQ.Acquired(q, now, units)), DQ.HasRoom(DQ.Flushed(q, now), units)))
  }

  /** What a reservation in a limiter of this kind charges once acquired: a permit, or its units. */
  function Cost(l: Limiter, units: nat): nat {
    if l.Concurrency? then 1 else units
  }

  function NewTicket(l: Limiter, id: nat, owner: nat, now: real, units: nat, acquired: bool): Ticket
    requires WellFormed(l)
  {
    var readyAt := if l.Rate? then TB.ReadyAt(l.bucket) else now;
    Ticket(id, owner, units, acquired, false, readyAt, if acquired then Cost(l, units) else 0)
  }

  function TicketDelay(l: Limiter, t: Ticket, now: real): Delay
    requires WellFormed(l)
  {
    match l
    case Rate(_) => After(MaxReal(0.0, t.readyAt - now))
    case Concurrency(_, _, estimate) => if t.acquired then ZERO else After(estimate)
    case Daily(q) => if t.acquired then ZERO else DQ.ProbeDelay(q, now, t.units)
  }

  /** Cancel is settling at 0; CompleteWithActual is settling at the actual use. A second settlement does nothing. */
  function Settle(l: Limiter, t: Ticket, now: real, actual: nat): (Limiter, Ticket) {
    if t.released || (l.Concurrency? && !t.acquired) then (l, t)
    else if !t.acquired then (l, t.(released := true))
    else match l
      case Concurrency(_, inUse, _) =>
        (l.(inUse := inUse - 1), t.(released := true, charge := 0))
      case Rate(b) =>
        var b' := if t.units == actual then b else TB.Adjusted(b, now, (t.units - actual) as real);
        (Rate(b'), t.(released := true, charge := actual))
      case Daily(q) =>
        (Daily(DQ.Settled(q, t.units, actual)), t.(released := true, charge := actual))
  }

  /** Complete of a request reservation: the permit goes back, a counted request stays counted. */
  function CompleteRequest(l: Limiter, t: Ticket, now: real): (Limiter, Ticket) {
    if l.Concurrency? then Settle(l, t, now, 0) else (l, t.(released := true))
  }

  /** One attempt of a waiting reservation to acquire what it was refused; the limiter afterwards, and the ticket. */
  function Acquire(l: Limiter, t: Ticket, now: real): (Limiter, Ticket)
    requires WellFormed(l)
  {
    if t.acquired || t.released then (l, t)
    else match l
      case Concurrency(limit, inUse, _) =>
        if inUse < limit then (l.(inUse := inUse + 1), t.(acquired := true, charge := 1)) else (l, t)
      case Rate(_) => (l, t)
      case Daily(q) =>
        (Daily(DQ.Acquired(q, now, t.units)),
         if DQ.HasRoom(DQ.Flushed(q, now), t.units) then t.(acquired := true, charge := t.units) else t)
  }

  /**
   A waiting reservation asks again as if anew: it gets exactly what a reservation made now would, and it gets it when a probe shows no delay,
   unless a reset of a used-up day is due at this very time.
   */
  lemma AskedAgain(l: Limiter, t: Ticket, now: real)
    requires WellFormed(l) && !l.Rate? && !t.acquired && !t.released
    ensures var (l', t') := Acquire(l, t, now);
            && (t'.acquired ==> Probe(l, now, t.units) == ZERO)
            && (Probe(l, now, t.units) == ZERO && !t'.acquired ==> l.Daily? && now == l.quota.resetTime)
            && t'.SameTerms(t) && t'.charge == (if t'.acquired then Cost(l, t.units) else t.charge)
            && (Reserve(l, now, t.units).Some? ==> Reserve(l, now, t.units).value == (l', t'.acquired))
  {
    if l.Daily? {
      DQ.NextMidnightIsNext(now);
      hide DQ.NextMidnight;
    }
  }

  /** A daily reservation that was refused reports how long it takes until an attempt to acquire it succeeds, if nobody else acts. */
  lemma RefusedDelayIsWait(l: Limiter, t: Ticket, now: real, later: real)
    requires WellFormed(l) && l.Daily? && !t.acquired && !t.released && now <= later
    ensures var d := TicketDelay(l, t, now);
            && (d.Inf? <==> t.units > l.quota.limit)
            && (Acquire(l, t, now).1.acquired && d.After? ==> d == ZERO)
            && (!Acquire(l, t, now).1.acquired && d.After? ==> (Acquire(l, t, later).1.acquired <==> later > now + d.seconds))
  {
    DQ.DelayIsWait(l.quota, now, t.units, later);
    hide DQ.Flushed, DQ.HasRoom, DQ.ProbeDelay;
  }

  /**
   At one instant the probe of a limiter tells exactly what a reservation would get: a refusal if and only if the
   probe is infinite, and otherwise a ticket with the probed delay.
   */
  lemma ProbePredictsReserve(l: Limiter, id: nat, owner: nat, now: real, units: nat)
    requires WellFormed(l) && (l.Rate? ==> l.bucket.lastUpdate <= now)
    ensures Probe(l, now, units).Inf? <==> Reserve(l, now, units).None?
    ensures match Reserve(l, now, units)
            case None => true
            case Some((l', ok)) =>
              WellFormed(l') && TicketDelay(l', NewTicket(l', id, owner, now, units, ok), now) == Probe(l, now, units)
  {
    if l.Rate? && units as real <= l.bucket.burst {
      var b' := TB.Charged(l.bucket, now, units as real);
      if b'.tokens < 0.0 {
        TB.ReadyMeansCovered(b', now);
      }
    }
  }

  /** The limiter as it will be once somebody has looked at it; looking shows only this. */
  function Normal(l: Limiter, now: real): Limiter {
    if l.Daily? then Daily(DQ.Flushed(l.quota, now)) else l
  }

  function NormalAll(ls: seq<Limiter>, now: real): seq<Limiter> {
    seq(|ls|, i requires 0 <= i < |ls| => Normal(ls[i], now))
  }

  lemma LookingShowsNormal(l: Limiter, now: real, units: nat, t: Ticket)
    requires WellFormed(l)
    ensures WellFormed(Normal(l, now)) && Normal(Normal(l, now), now) == Normal(l, now)
    ensures Normal(Probed(l, now, units), now) == Normal(l, now) && WellFormed(Probed(l, now, units))
    ensures Probe(Normal(l, now), now, units) == Probe(l, now, units)
    ensures TicketDelay(Normal(l, now), t, now) == TicketDelay(l, t, now)
  {
    assert now < DQ.NextMidnight(now);
  }

  // ----- A scope's limiters, and all of a model's -----

  /** Positions in the pool. Token limiters are consulted only when there are tokens to reserve. */
  datatype Group = Group(requests: seq<nat>, tokens: seq<nat>)

  datatype Model = Model(upstream: Group, own: Group)

  /** The limiters that apply to a request, each with the units it is asked for, in the order of reservation. */
  function Demands(m: Model, estimatedTokens: nat): seq<(nat, nat)> {
    GroupDemands(m.upstream, estimatedTokens) + GroupDemands(m.own, estimatedTokens)
  }

  function GroupDemands(g: Group, estimatedTokens: nat): seq<(nat, nat)> {
    Asking(g.requests, 1) + if estimatedTokens > 0 then Asking(g.tokens, estimatedTokens) else []
  }

  function Asking(ids: seq<nat>, units: nat): seq<(nat, nat)> {
    seq(|ids|, i requires 0 <= i < |ids| => (ids[i], units))
  }

  ghost predicate PoolWellFormed(ls: seq<Limiter>, now: real) {
    forall i | 0 <= i < |ls| :: WellFormed(ls[i]) && (ls[i].Rate? ==> ls[i].bucket.lastUpdate <= now)
  }

  ghost predicate InPool(ds: seq<(nat, nat)>, ls: seq<Limiter>) {
    forall d <- ds :: d.0 < |ls|
  }

  /** The largest delay any of the demanded limiters reports. */
  function DemandDelay(ls: seq<Limiter>, ds: seq<(nat, nat)>, now: real): Delay
    requires InPool(ds, ls) && PoolWellFormed(ls, now)
  {
    if ds == [] then ZERO else
    var last := ds[|ds| - 1];
    DemandDelay(ls, ds[..|ds| - 1], now).Max(Probe(ls[last.0], now, last.1))
  }

  /** Reserving all demands in order on the pool: None as soon as one is refused. */
  function ReserveAll(ls: seq<Limiter>, ds: seq<(nat, nat)>, owner: nat, now: real): (r: Option<(seq<Limiter>, seq<Ticket>)>)
    requires InPool(ds, ls) && PoolWellFormed(ls, now)
    ensures r.Some? ==> |r.value.0| == |ls| && |r.value.1| == |ds| && PoolWellFormed(r.value.0, now)
    ensures r.Some? ==> forall k | 0 <= k < |ds| :: r.value.1[k].limiter == ds[k].0
  {
    if ds == [] then Some((ls, [])) else
    var last := ds[|ds| - 1];
    match ReserveAll(ls, ds[..|ds| - 1], owner, now)
    case None => None
    case Some((ls', ts)) =>
      match Reserve(ls'[last.0], now, last.1)
      case None => None
      case Some((l, ok)) =>
        assert WellFormed(l) by { ProbePredictsReserve(ls'[last.0], last.0, owner, now, last.1); }
        Some((ls'[last.0 := l], ts + [NewTicket(l, last.0, owner, now, last.1, ok)]))
  }

  function TicketsDelay(ls: seq<Limiter>, ts: seq<Ticket>, now: real): Delay
    requires PoolWellFormed(ls, now) && forall t <- ts :: t.limiter < |ls|
  {
    if ts == [] then ZERO else
    var last := ts[|ts| - 1];
    TicketsDelay(ls, ts[..|ts| - 1], now).Max(TicketDelay(ls[last.limiter], last, now))
  }

  ghost predicate EachOnce(ds: seq<(nat, nat)>) {
    forall i, j | 0 <= i < j < |ds| :: ds[i].0 != ds[j].0
  }

  lemma ElsewhereUnchanged(ls: seq<Limiter>, ds: seq<(nat, nat)>, owner: nat, now: real, id: nat)
    requires InPool(ds, ls) && PoolWellFormed(ls, now) && id < |ls| && forall d <- ds :: d.0 != id
    ensures var r := ReserveAll(ls, ds, owner, now); r.Some? ==> r.value.0[id] == ls[id]
  {
  }

  lemma {:induction false} DelayUnaffected(ls: seq<Limiter>, ts: seq<Ticket>, now: real, id: nat, l: Limiter)
    requires PoolWellFormed(ls, now) && (forall t <- ts :: t.limiter < |ls| && t.limiter != id) && id < |ls|
    requires PoolWellFormed(ls[id := l], now)
    ensures TicketsDelay(ls[id := l], ts, now) == TicketsDelay(ls, ts, now)
  {
    if ts != [] {
      DelayUnaffected(ls, ts[..|ts| - 1], now, id, l);
    }
  }

  /** The delays of the tickets so far and one on a limiter that none of them is on. */
  lemma OneMoreTicket(ls: seq<Limiter>, ts: seq<Ticket>, now: real, l: Limiter, t: Ticket)
    requires PoolWellFormed(ls, now) && t.limiter < |ls| && forall u <- ts :: u.limiter < |ls| && u.limiter != t.limiter
    requires WellFormed(l) && PoolWellFormed(ls[t.limiter := l], now)
    ensures TicketsDelay(ls[t.limiter := l], ts + [t], now) == TicketsDelay(ls, ts, now).Max(TicketDelay(l, t, now))
  {
    DelayUnaffected(ls, ts, now, t.limiter, l);
    assert (ts + [t])[..|ts|] == ts;
  }

  /**
   Probing a model predicts reserving it: at one instant, with nothing in between, reserving every limiter of the
   model fails if and only if the probed delay is infinite, and otherwise the reservations' largest delay is the
   probed delay.
   */
  lemma {:induction false} ProbePredictsReserveAll(ls: seq<Limiter>, ds: seq<(nat, nat)>, owner: nat, now: real)
    requires InPool(ds, ls) && PoolWellFormed(ls, now) && EachOnce(ds)
    ensures var r := ReserveAll(ls, ds, owner, now);
            && (r.None? <==> DemandDelay(ls, ds, now).Inf?)
            && (r.Some? ==> TicketsDelay(r.value.0, r.value.1, now) == DemandDelay(ls, ds, now))
  {
    if ds != [] {
      var init, last := ds[..|ds| - 1], ds[|ds| - 1];
      assert InPool(init, ls) && last.0 < |ls| && EachOnce(init) && forall d <- init :: d.0 != last.0;
      ProbePredictsReserveAll(ls, init, owner, now);
      ElsewhereUnchanged(ls, init, owner, now, last.0);
      ProbePredictsReserve(ls[last.0], last.0, owner, now, last.1);
      var r := ReserveAll(ls, init, owner, now);
      if r.Some? && Reserve(r.value.0[last.0], now, last.1).Some? {
        LastPredicted(ls, ds, owner, now);
      }
    }
  }

  lemma LastPredicted(ls: seq<Limiter>, ds: seq<(nat, nat)>, owner: nat, now: real)
    requires ds != [] && InPool(ds, ls) && PoolWellFormed(ls, now) && EachOnce(ds)
    requires var r, last := ReserveAll(ls, ds[..|ds| - 1], owner, now), ds[|ds| - 1];
             r.Some? && r.value.0[last.0] == ls[last.0] && Reserve(ls[last.0], now, last.1).Some?
    ensures var r, last := ReserveAll(ls, ds[..|ds| - 1], owner, now).value, ds[|ds| - 1];
            var (l, ok) := Reserve(ls[last.0], now, last.1).value;
            var all := ReserveAll(ls, ds, owner, now);
            WellFormed(l) && all.Some?
            && TicketsDelay(all.value.0, all.value.1, now)
            == TicketsDelay(r.0, r.1, now).Max(TicketDelay(l, NewTicket(l, last.0, owner, now, last.1, ok), now))
  {
    var last := ds[|ds| - 1];
    var (ls', ts) := ReserveAll(ls, ds[..|ds| - 1], owner, now).value;
    var (l, ok) := Reserve(ls[last.0], now, last.1).value;
    ProbePredictsReserve(ls[last.0], last.0, owner, now, last.1);
    var t := NewTicket(l, last.0, owner, now, last.1, ok);
    assert ReserveAll(ls, ds, owner, now) == Some((ls'[last.0 := l], ts + [t]));
    hide ReserveAll, Reserve, TicketsDelay, TicketDelay;
    OneMoreTicket(ls', ts, now, l, t);
  }
}
