/**
 What a limiter can never grant: more units than its limit or burst. That is all that refusals depend on, so who else
 uses the limiters meanwhile delays a request but never makes it impossible.
 */
module Capacities {
  import opened Basics
  import opened Limiters
  import opened LimiterHistories
  import opened LimiterPools

  predicate TooMuch(scope: Limiter, units: nat) {
    match scope
    case Concurrency(_, _, _) => false
    case Rate(b) => units as real > b.burst
    case Daily(q) => units > q.limit
  }

  /** All of the demands can be granted, at some time. */
  ghost predicate Grantable(scopes: seq<Limiter>, ds: seq<(nat, nat)>) {
    forall k | 0 <= k < |ds| :: ds[k].0 < |scopes| && !TooMuch(scopes[ds[k].0], ds[k].1)
  }

  lemma ScopeDecides(scope: Limiter, l: Limiter, now: real, units: nat)
    requires SameScope(scope, l) && WellFormed(l)
    ensures Reserve(l, now, units).None? <==> TooMuch(scope, units)
    ensures Probe(l, now, units).Inf? <==> TooMuch(scope, units)
  {
  }

  /** A probe or a reservation was told what the scope decides. */
  ghost predicate ToldByScope(scopes: seq<Limiter>, c: Call) {
    && (c.ReserveCall? ==> c.limiter < |scopes| && (c.got.None? <==> TooMuch(scopes[c.limiter], c.units)))
    && (c.ProbeCall? ==> c.limiter < |scopes| && (c.delay.Inf? <==> TooMuch(scopes[c.limiter], c.units)))
  }

  lemma DoTellsByScope(scopes: seq<Limiter>, s: Ledger, c: Call)
    requires InScope(scopes, s.limiters) && Do(s, c).Some?
    ensures ToldByScope(scopes, c)
  {
    hide TooMuch, SameScope, NewTicket, Probed, Reserve, Probe;
    if c.ReserveCall? || c.ProbeCall? {
      ScopeDecides(scopes[c.limiter], s.limiters[c.limiter], c.at, c.units);
    }
  }

  lemma DoKeepsScope(s: Ledger, c: Call, l: nat)
    requires Do(s, c).Some? && l < |s.limiters|
    ensures |Do(s, c).value.limiters| == |s.limiters| && SameScope(s.limiters[l], Do(s, c).value.limiters[l])
  {
    if OnTicket(c) {
      var t := s.tickets[c.ticket];
      OneKeepsScope(s.limiters[t.limiter], t, c);
      hide OnOne;
    }
  }

  lemma OneKeepsScope(l: Limiter, t: Ticket, c: Call)
    requires OnTicket(c) && WellFormed(l)
    ensures SameScope(l, OnOne(l, t, c).0)
  {
  }

  lemma {:induction false} ReplayTellsByScope(start: seq<Limiter>, log: seq<Call>)
    requires Replay(start, log).Some?
    ensures InScope(start, Replay(start, log).value.limiters) && forall k | 0 <= k < |log| :: ToldByScope(start, log[k])
  {
    hide Do, SameScope, ToldByScope;
    if log == [] {
      AsItself(start);
    } else {
      var front, c := log[..|log| - 1], log[|log| - 1];
      ReplayTellsByScope(start, front);
      var s := Replay(start, front).value;
      DoTellsByScope(start, s, c);
      DoKeepsSize(s, c);
      forall l | 0 <= l < |s.limiters| ensures SameScope(start[l], Do(s, c).value.limiters[l]) {
        DoKeepsScope(s, c, l);
        ScopesChain(start[l], s.limiters[l], Do(s, c).value.limiters[l]);
      }
    }
  }

  lemma AsItself(ls: seq<Limiter>)
    ensures InScope(ls, ls)
  {
  }

  lemma DoKeepsSize(s: Ledger, c: Call)
    requires Do(s, c).Some?
    ensures |Do(s, c).value.limiters| == |s.limiters|
  {
  }

  lemma {:induction false} MovesAreCalls(log: seq<Call>, who: nat)
    ensures forall c <- Moves(log, who) :: c in log
  {
    if log != [] {
      MovesAreCalls(log[..|log| - 1], who);
    }
  }

  lemma PoolTellsByScope(pool: LimiterPool, me: nat)
    requires pool.Valid()
    ensures forall c <- Moves(pool.log, me) :: ToldByScope(pool.scopes, c)
  {
    MovesAreCalls(pool.log, me);
    hide Moves, ToldByScope, Replay, InOrder;
    ReplayTellsByScope(pool.scopes, pool.log);
  }

  /** Reserving in turn succeeds exactly if nothing asked for is too much, whoever else acts. */
  lemma ReservedIfGrantable(scopes: seq<Limiter>, calls: seq<Call>, ds: seq<(nat, nat)>, ok: bool)
    requires ReservesOf(calls, ds) && Ran(calls, |ds|, ok) && forall c <- calls :: ToldByScope(scopes, c)
    ensures ok <==> Grantable(scopes, ds)
  {
    hide TooMuch;
    if ok {
      forall k | 0 <= k < |ds| ensures ds[k].0 < |scopes| && !TooMuch(scopes[ds[k].0], ds[k].1) {
        assert calls[k] in calls && Went(calls[k]);
      }
    } else {
      var last := calls[|calls| - 1];
      assert last in calls && !Went(last);
    }
  }

  lemma {:induction false} PeakInfinite(from: Delay, calls: seq<Call>)
    ensures Peak(from, calls).Inf? <==> from.Inf? || exists k :: 0 <= k < |calls| && ToldDelay(calls[k]).Inf?
  {
    if calls != [] {
      var n := |calls| - 1;
      PeakInfinite(from, calls[..n]);
      if ToldDelay(calls[n]).Inf? || Peak(from, calls[..n]).Inf? {
        assert Peak(from, calls).Inf?;
      }
    }
  }

  /** The delay that the probes amount to is infinite exactly if something asked for is too much. */
  lemma ProbedIfGrantable(scopes: seq<Limiter>, calls: seq<Call>, ds: seq<(nat, nat)>)
    requires ProbesOf(calls, ds) && forall c <- calls :: ToldByScope(scopes, c)
    ensures Peak(ZERO, calls).Inf? <==> !Grantable(scopes, ds)
  {
    hide TooMuch, Peak;
    PeakInfinite(ZERO, calls);
    assert forall k | 0 <= k < |calls| :: calls[k] in calls;
  }
}
