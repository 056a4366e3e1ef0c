/**
 The daily limiters of a shared pool, accounted for: what a pool's history does to one of them is a run of the daily
 quota, with the pool's reservations on it as holds. So the laws of daily quotas are laws of the pool.
 */
module DailyAccounts {
  import opened Basics
  import opened Limiters
  import opened LimiterHistories
  import opened LimiterPools
  import DQ = DailyQuotas

  predicate Same(h: DQ.Hold, t: Ticket) {
    h.reserved == t.units && h.acquired == t.acquired && h.released == t.released && h.charge == t.charge
  }

  /** The holds are the tickets on limiter l, in the order in which they were issued. */
  predicate HoldsAgree(hs: seq<DQ.Hold>, ts: seq<Ticket>, l: nat) {
    if ts == [] then hs == [] else
    var n, k := |ts| - 1, |hs| - 1;
    if ts[n].limiter == l then k >= 0 && Same(hs[k], ts[n]) && HoldsAgree(hs[..k], ts[..n], l)
    else HoldsAgree(hs, ts[..n], l)
  }

  function CountOn(ts: seq<Ticket>, l: nat): nat {
    if ts == [] then 0 else CountOn(ts[..|ts| - 1], l) + if ts[|ts| - 1].limiter == l then 1 else 0
  }

  /** Where among the holds a ticket is. */
  function HoldOf(ts: seq<Ticket>, l: nat, id: nat): nat
    requires id <= |ts|
  {
    CountOn(ts[..id], l)
  }

  /** The operation on the quota of limiter l that a call amounts to, if any. */
  function OpOf(s: Ledger, c: Call, l: nat): seq<DQ.Timed>
    requires Placed(s, c)
  {
    if l != (if OnTicket(c) then s.tickets[c.ticket].limiter else c.limiter) || !s.limiters[l].Daily? then [] else
    var limit := s.limiters[l].quota.limit;
    match c
    case ProbeCall(_, at, _, units, _) => if units <= limit then [DQ.Timed(at, DQ.Probe)] else []
    case ReserveCall(_, at, _, units, _) => [DQ.Timed(at, DQ.Reserve(units))]
    case DelayCall(_, at, id, _) =>
      if !s.tickets[id].acquired && s.tickets[id].units <= limit then [DQ.Timed(at, DQ.Probe)] else []
    case AttemptCall(_, at, id) => [DQ.Timed(at, DQ.Retry(HoldOf(s.tickets, l, id)))]
    case SettleCall(_, at, id, actual) => [DQ.Timed(at, DQ.Settle(HoldOf(s.tickets, l, id), actual))]
    case CompleteCall(_, at, id) => [DQ.Timed(at, DQ.Complete(HoldOf(s.tickets, l, id)))]
    case _ => []
  }

  /** All operations of a history on limiter l. */
  function Ops(start: seq<Limiter>, log: seq<Call>, l: nat): seq<DQ.Timed> {
    if log == [] then [] else
    var n := |log| - 1;
    var s := Replay(start, log[..n]);
    Ops(start, log[..n], l) + if s.Some? && Placed(s.value, log[n]) then OpOf(s.value, log[n], l) else []
  }

  ghost predicate Mirrors(b: DQ.Book, s: Ledger, l: nat) {
    l < |s.limiters| && s.limiters[l] == Daily(b.quota) && HoldsAgree(b.holds, s.tickets, l)
  }

  lemma HoldAppended(hs: seq<DQ.Hold>, ts: seq<Ticket>, l: nat, h: DQ.Hold, t: Ticket)
    requires HoldsAgree(hs, ts, l)
    ensures t.limiter == l && Same(h, t) ==> HoldsAgree(hs + [h], ts + [t], l)
    ensures t.limiter != l ==> HoldsAgree(hs, ts + [t], l)
  {
    assert (ts + [t])[..|ts|] == ts && (hs + [h])[..|hs|] == hs;
  }

  lemma {:induction false} HoldUpdated(hs: seq<DQ.Hold>, ts: seq<Ticket>, l: nat, id: nat, h: DQ.Hold, t: Ticket)
    requires HoldsAgree(hs, ts, l) && id < |ts| && t.limiter == ts[id].limiter
    ensures ts[id].limiter == l ==> HoldOf(ts, l, id) < |hs| && Same(hs[HoldOf(ts, l, id)], ts[id])
    ensures ts[id].limiter == l && Same(h, t) ==> HoldsAgree(hs[HoldOf(ts, l, id) := h], ts[id := t], l)
    ensures ts[id].limiter != l ==> HoldsAgree(hs, ts[id := t], l)
    decreases ts
  {
    var n, k := |ts| - 1, |hs| - 1;
    HoldsCounted(hs, ts, l);
    if id == n {
      assert ts[id := t][..n] == ts[..n];
      if t.limiter == l {
        HoldsCounted(hs[..k], ts[..n], l);
        assert hs[k := h][..k] == hs[..k];
      }
    } else {
      assert ts[id := t][..n] == ts[..n][id := t] && ts[..n][..id] == ts[..id];
      if ts[n].limiter == l {
        HoldUpdated(hs[..k], ts[..n], l, id, h, t);
        if t.limiter == l {
          var i := HoldOf(ts, l, id);
          assert hs[i := h][..k] == hs[..k][i := h];
        }
      } else {
        HoldUpdated(hs, ts[..n], l, id, h, t);
      }
    }
  }

  lemma {:induction false} HoldsCounted(hs: seq<DQ.Hold>, ts: seq<Ticket>, l: nat)
    requires HoldsAgree(hs, ts, l)
    ensures |hs| == CountOn(ts, l)
    decreases ts
  {
    if ts != [] {
      var n := |ts| - 1;
      HoldsCounted(if ts[n].limiter == l then hs[..|hs| - 1] else hs, ts[..n], l);
    }
  }

  // ----- One call -----


  lemma OneOp(b: DQ.Book, t: DQ.Timed)
    ensures DQ.Run(b, [t]) == DQ.Step(b, t) && DQ.Run(b, []) == b
  {
    assert [t][1..] == [];
  }

  /** A call on the pool does to the limiter what its operation does to the quota and its holds. */
  lemma StepMirrored(b: DQ.Book, s: Ledger, c: Call, l: nat)
    requires Mirrors(b, s, l) && Do(s, c).Some?
    ensures Mirrors(DQ.Run(b, OpOf(s, c, l)), Do(s, c).value, l)
  {
    var ops := OpOf(s, c, l);
    if ops != [] {
      OneOp(b, ops[0]);
    }
    if OnTicket(c) {
      TicketMirrored(b, s, c, l);
    } else if c.ReserveCall? {
      ReserveMirrored(b, s, c, l);
    }
  }

  lemma ReserveMirrored(b: DQ.Book, s: Ledger, c: Call, l: nat)
    requires Mirrors(b, s, l) && Do(s, c).Some? && c.ReserveCall?
    ensures Mirrors(DQ.Run(b, OpOf(s, c, l)), Do(s, c).value, l)
  {
    if c.limiter == l {
      OneOp(b, DQ.Timed(c.at, DQ.Reserve(c.units)));
      if c.units <= b.quota.limit {
        ReservedHere(b, s, c, l);
      }
    } else {
      ReservedElsewhere(b, s, c, l);
    }
  }

  lemma ReservedElsewhere(b: DQ.Book, s: Ledger, c: Call, l: nat)
    requires Mirrors(b, s, l) && Do(s, c).Some? && c.ReserveCall? && c.limiter != l
    ensures Mirrors(b, Do(s, c).value, l) && OpOf(s, c, l) == []
  {
    match Reserve(s.limiters[c.limiter], c.at, c.units) {
      case None =>
      case Some((x, ok)) =>
        hide HoldsAgree;
        HoldAppended(b.holds, s.tickets, l, DQ.Hold(0, false, false, 0, 0), NewTicket(x, c.limiter, c.who, c.at, c.units, ok));
    }
  }

  lemma ReservedHere(b: DQ.Book, s: Ledger, c: Call, l: nat)
    requires Mirrors(b, s, l) && Do(s, c).Some? && c.ReserveCall? && c.limiter == l && c.units <= b.quota.limit
    ensures Mirrors(DQ.Step(b, DQ.Timed(c.at, DQ.Reserve(c.units))), Do(s, c).value, l)
  {
    hide HoldsAgree;
    var (x, ok) := Reserve(s.limiters[l], c.at, c.units).value;
    var t := NewTicket(x, l, c.who, c.at, c.units, ok);
    var h := DQ.Hold(c.units, ok, false, if ok then c.units else 0, DQ.Flush(b, c.at).period);
    HoldAppended(b.holds, s.tickets, l, h, t);
    assert DQ.Step(b, DQ.Timed(c.at, DQ.Reserve(c.units))).holds == b.holds + [h];
  }

  lemma TicketMirrored(b: DQ.Book, s: Ledger, c: Call, l: nat)
    requires Mirrors(b, s, l) && Do(s, c).Some? && OnTicket(c)
    ensures Mirrors(DQ.Run(b, OpOf(s, c, l)), Do(s, c).value, l)
  {
    var t := s.tickets[c.ticket];
    var t' := Do(s, c).value.tickets[c.ticket];
    var none := DQ.Hold(0, false, false, 0, 0);
    HoldUpdated(b.holds, s.tickets, l, c.ticket, none, t');
    if t.limiter == l {
      var k := HoldOf(s.tickets, l, c.ticket);
      HoldUpdated(b.holds, s.tickets, l, c.ticket, b.holds[k], t');
      var ops := OpOf(s, c, l);
      if ops != [] {
        OneOp(b, ops[0]);
        var b' := DQ.Step(b, ops[0]);
        if k < |b'.holds| {
          HoldUpdated(b.holds, s.tickets, l, c.ticket, b'.holds[k], t');
          assert b.holds[k := b.holds[k]] == b.holds;
        }
      } else {
        assert b.holds[k := b.holds[k]] == b.holds;
      }
    }
  }

  // ----- Whole histories -----

  lemma {:induction false} RunSnoc(b: DQ.Book, xs: seq<DQ.Timed>, ys: seq<DQ.Timed>)
    ensures DQ.Run(b, xs + ys) == DQ.Run(DQ.Run(b, xs), ys)
    decreases xs
  {
    if xs == [] {
      assert xs + ys == ys;
    } else {
      assert (xs + ys)[0] == xs[0] && (xs + ys)[1..] == xs[1..] + ys;
      RunSnoc(DQ.Step(b, xs[0]), xs[1..], ys);
    }
  }

  /** The daily limiter of a pool is the quota after the operations of the pool's history on it. */
  lemma {:induction false} RunMirrored(start: seq<Limiter>, log: seq<Call>, l: nat, q: DQ.Quota)
    requires Replay(start, log).Some? && l < |start| && start[l] == Daily(q)
    ensures Mirrors(DQ.Run(DQ.Book(q, [], 0, 0), Ops(start, log, l)), Replay(start, log).value, l)
  {
    if log != [] {
      var n := |log| - 1;
      hide Mirrors, OpOf, DQ.Step, Do;
      var b, s := DQ.Run(DQ.Book(q, [], 0, 0), Ops(start, log[..n], l)), Replay(start, log[..n]).value;
      RunMirrored(start, log[..n], l, q);
      DonePlaced(s, log[n]);
      StepMirrored(b, s, log[n], l);
      RunSnoc(DQ.Book(q, [], 0, 0), Ops(start, log[..n], l), OpOf(s, log[n], l));
    }
  }

  lemma DonePlaced(s: Ledger, c: Call)
    requires Do(s, c).Some?
    ensures Placed(s, c)
  {
  }

  /** The account of a pool's daily limiter: its quota with the pool's reservations on it. */
  ghost function Account(pool: LimiterPool, l: nat): DQ.Book
    requires l < |pool.scopes| && pool.scopes[l].Daily?
    reads pool
  {
    DQ.Run(DQ.Book(pool.scopes[l].quota, [], 0, 0), Ops(pool.scopes, pool.log, l))
  }

  /**
   In every reachable state of a pool, whoever acted: a daily limiter's quota and tickets are those of its account; its
   use exceeds the limit by no more than the period's overdraft; and as long as all settlements have been harmless, its
   use is what the reservations acquired in this period are charged.
   */
  lemma UseIsCharged(pool: LimiterPool, l: nat)
    requires pool.Valid() && l < |pool.scopes| && pool.scopes[l].Daily?
    ensures l < |pool.limiters| && pool.limiters[l] == Daily(Account(pool, l).quota) && HoldsAgree(Account(pool, l).holds, pool.tickets, l)
    ensures var b := Account(pool, l);
            && 0 <= b.quota.used <= b.quota.limit + b.overdraft
            && (DQ.AllHarmless(DQ.Book(pool.scopes[l].quota, [], 0, 0), Ops(pool.scopes, pool.log, l)) ==>
                  b.quota.used == DQ.Charges(b.holds, b.period))
  {
    var q, ops := pool.scopes[l].quota, Ops(pool.scopes, pool.log, l);
    assert Unused(pool.scopes[l]);
    RunMirrored(pool.scopes, pool.log, l, q);
    var b := DQ.Book(q, [], 0, 0);
    DQ.UseWithinLimit(b, ops);
    if DQ.AllHarmless(b, ops) {
      DQ.AccurateRun(b, ops);
    }
  }

  /** A ticket that is charged nothing adds nothing to the use of its limiter. */
  lemma UnchargedHold(pool: LimiterPool, l: nat, id: nat)
    requires pool.Valid() && l < |pool.scopes| && pool.scopes[l].Daily? && id < |pool.tickets| && pool.tickets[id].limiter == l
    ensures var b, k := Account(pool, l), HoldOf(pool.tickets, l, id);
            k < |b.holds| && Same(b.holds[k], pool.tickets[id])
            && (pool.tickets[id].charge == 0 ==> DQ.ChargeIn(b.period)(b.holds[k]) == 0)
  {
    UseIsCharged(pool, l);
    HoldUpdated(Account(pool, l).holds, pool.tickets, l, id, DQ.Hold(0, false, false, 0, 0), pool.tickets[id]);
  }
}
