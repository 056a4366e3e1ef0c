/**
 Choosing a model: probe every candidate, rank those that can be had at all, and reserve the first of them whose
 limiters all grant and become ready. Other requests act on the shared limiters between any two calls.
 */
module Elections {
  import opened Basics
  import opened Limiters
  import opened LimiterHistories
  import opened LimiterPools
  import opened Capacities
  import opened Refunds
  import opened ReservationSets
  import DQ = DailyQuotas
  import DA = DailyAccounts

  predicate ModelInPool(m: Model, size: nat) {
    && (forall k | 0 <= k < |m.upstream.requests| :: m.upstream.requests[k] < size)
    && (forall k | 0 <= k < |m.upstream.tokens| :: m.upstream.tokens[k] < size)
    && (forall k | 0 <= k < |m.own.requests| :: m.own.requests[k] < size)
    && (forall k | 0 <= k < |m.own.tokens| :: m.own.tokens[k] < size)
  }

  function RequestLimiters(m: Model): seq<nat> {
    m.upstream.requests + m.own.requests
  }

  function TokenLimiters(m: Model, est: nat): seq<nat> {
    if est > 0 then m.upstream.tokens + m.own.tokens else []
  }

  lemma DemandsInOrder(m: Model, est: nat, ls: seq<Limiter>)
    requires ModelInPool(m, |ls|)
    ensures InPool(Demands(m, est), ls) && InPool(GroupDemands(m.upstream, est), ls) && InPool(GroupDemands(m.own, est), ls)
    ensures [] + GroupDemands(m.upstream, est) == GroupDemands(m.upstream, est)
    ensures [] + m.upstream.requests + m.own.requests == RequestLimiters(m)
    ensures [] + (if est > 0 then m.upstream.tokens else []) + (if est > 0 then m.own.tokens else []) == TokenLimiters(m, est)
  {
    hide GroupDemands, InPool;
    GroupWithin(m.upstream, est, ls);
    GroupWithin(m.own, est, ls);
    BothInPool(GroupDemands(m.upstream, est), GroupDemands(m.own, est), ls);
  }

  lemma GroupWithin(g: Group, est: nat, ls: seq<Limiter>)
    requires GroupInPool(g, |ls|)
    ensures InPool(GroupDemands(g, est), ls)
  {
  }

  lemma BothInPool(a: seq<(nat, nat)>, b: seq<(nat, nat)>, ls: seq<Limiter>)
    requires InPool(a, ls) && InPool(b, ls)
    ensures InPool(a + b, ls)
  {
  }

  lemma EmptySet(before: seq<Ticket>, me: nat, est: nat)
    ensures Collected(before, before, me, [], [], [], [], est)
  {
    assert SetOf([]) + SetOf([]) == {};
  }

  lemma NothingReserved(start: seq<Limiter>, before: seq<Ticket>, at: real, me: nat)
    requires PoolWellFormed(start, at)
    ensures ExactlyReserved(start, before, at, [], start, before, me)
  {
    assert before[..|before|] == before && before[|before|..] == [];
  }

  /**
   Reserves all limiters of a model, or none: on a refusal what was reserved before it is cancelled. `calls` are the
   reservations tried. When nobody else acts, pool and result are those of reserving the model's demands in order, and
   a refusal leaves every limiter as it was.
   */
  method TryReserveAll(pool: LimiterPool, m: Model, est: nat, me: nat, alone: bool) returns (rs: ReservationSet?, ghost calls: seq<Call>)
    requires pool.Valid() && ModelInPool(m, |pool.limiters|)
    modifies pool
    ensures pool.Valid() && pool.clock >= old(pool.clock)
    ensures Moves(pool.log, me) == Moves(old(pool.log), me) + calls
    ensures ReservesOf(calls, Demands(m, est)) && Ran(calls, |Demands(m, est)|, rs != null)
    ensures rs != null <==> Grantable(pool.scopes, Demands(m, est))
    ensures rs == null ==> Books(old(pool.tickets), pool.tickets, me, {})
    ensures rs != null ==>
              && fresh(rs) && rs.pool == pool && rs.me == me && GotIn(calls, rs.Ids())
              && rs.Holding(old(pool.tickets), RequestLimiters(m), TokenLimiters(m, est), est)
    ensures alone ==> PoolWellFormed(old(pool.limiters), old(pool.clock)) && InPool(Demands(m, est), old(pool.limiters))
    ensures alone ==> pool.clock == old(pool.clock)
    ensures alone ==> (rs == null <==> ReserveAll(old(pool.limiters), Demands(m, est), me, old(pool.clock)).None?)
    ensures alone && rs == null ==> Restored(old(pool.limiters), pool.limiters, pool.clock)
    ensures alone && rs != null ==>
              ExactlyReserved(old(pool.limiters), old(pool.tickets), pool.clock, Demands(m, est), pool.limiters, pool.tickets, me)
  {
    hide ExactlyReserved, Collected, LimiterPool.Valid, Moves, ReserveAll, Ran, ReservesOf, AllCarry, Restored, GotIn;
    ghost var before, start, log, ds := pool.tickets, pool.limiters, pool.log, Demands(m, est);
    rs := new ReservationSet(pool, me);
    PoolTicketsOk(pool);
    DemandsInOrder(m, est, start);
    EmptySet(before, me, est);
    NothingReserved(start, before, pool.clock, me);
    var ok;
    ghost var reqs, toks, done;
    ok, reqs, toks, done, calls := rs.ReserveGroup(m.upstream, est, alone, before, [], [], start, []);
    if ok {
      ghost var first, middle, ids := calls, pool.log, rs.Ids();
      ok, reqs, toks, done, calls := rs.ReserveGroup(m.own, est, alone, before, reqs, toks, start, GroupDemands(m.upstream, est));
      BothGroups(first, GroupDemands(m.upstream, est), calls, GroupDemands(m.own, est), ok, ids, rs.Ids());
      MovesChain(log, middle, pool.log, me, first, calls);
      calls := first + calls;
    } else {
      FirstGroupFailed(calls, GroupDemands(m.upstream, est), GroupDemands(m.own, est));
      if alone {
        RefusedForGood(start, GroupDemands(m.upstream, est), GroupDemands(m.own, est), me, pool.clock);
      }
    }
    if ok && alone {
      ReservedSome(start, before, pool.clock, ds, pool.limiters, pool.tickets, me);
    }
    GrantedAsTold(pool, log, me, calls, ds, ok);
    if !ok {
      if alone {
        CarriesReserved(start, before, pool.clock, done, pool.limiters, pool.tickets, me);
      }
      rs.Cancel(alone, before, reqs, toks, est, start);
      if alone {
        NothingLeft(start, before, pool.clock, pool.limiters, pool.tickets, me);
      }
      rs := null;
    }
  }

  lemma GrantedAsTold(pool: LimiterPool, log: seq<Call>, me: nat, calls: seq<Call>, ds: seq<(nat, nat)>, ok: bool)
    requires pool.Valid() && Moves(pool.log, me) == Moves(log, me) + calls && ReservesOf(calls, ds) && Ran(calls, |ds|, ok)
    ensures ok <==> Grantable(pool.scopes, ds)
  {
    hide *;
    PoolTellsByScope(pool, me);
    assert forall c <- calls :: c in Moves(pool.log, me);
    ReservedIfGrantable(pool.scopes, calls, ds, ok);
  }

  lemma ReservedSome(start: seq<Limiter>, before: seq<Ticket>, at: real, ds: seq<(nat, nat)>, ls: seq<Limiter>, ts: seq<Ticket>, me: nat)
    requires ExactlyReserved(start, before, at, ds, ls, ts, me)
    ensures ReserveAll(start, ds, me, at).Some?
  {
  }

  lemma CarriesReserved(start: seq<Limiter>, before: seq<Ticket>, at: real, ds: seq<(nat, nat)>, ls: seq<Limiter>, ts: seq<Ticket>, me: nat)
    requires ExactlyReserved(start, before, at, ds, ls, ts, me)
    ensures AllCarry(start, |before|, at, ls, ts, me)
  {
    ReserveAllCarries(start, ds, me, at);
    CarriesAfter(start, at, ls, ts, me, |before|);
  }

  lemma NothingLeft(start: seq<Limiter>, before: seq<Ticket>, at: real, ls: seq<Limiter>, ts: seq<Ticket>, me: nat)
    requires AllCarry(start, |before|, at, ls, ts, me) && Books(before, ts, me, {})
    ensures Restored(start, ls, at)
  {
    AllReturned(start, |before|, at, ls, ts, me);
  }

  // ----- Probing -----

  /** The loops of probeDelay over a list of limiters, continuing from the maximum so far; `calls` are the probes. */
  method ProbeEach(pool: LimiterPool, me: nat, ids: seq<nat>, units: nat, from: Delay, alone: bool, ghost before: seq<Ticket>,
                   ghost start: seq<Limiter>, ghost done: seq<(nat, nat)>)
    returns (delay: Delay, ghost calls: seq<Call>)
    requires pool.Valid() && Books(before, pool.tickets, me, {}) && forall k | 0 <= k < |ids| :: ids[k] < |pool.scopes|
    requires alone ==> ProbedSoFar(start, pool.limiters, pool.clock, done, from)
    modifies pool
    ensures pool.Valid() && Books(before, pool.tickets, me, {}) && pool.clock >= old(pool.clock)
    ensures Moves(pool.log, me) == Moves(old(pool.log), me) + calls
    ensures ProbesOf(calls, Asking(ids, units)) && delay == Peak(from, calls)
    ensures alone ==>
              && pool.tickets == old(pool.tickets) && pool.clock == old(pool.clock)
              && ProbedSoFar(start, pool.limiters, pool.clock, done + Asking(ids, units), delay)
  {
    hide *;
    delay, calls := from, [];
    NothingProbed(ids, units, done, from);
    for k := 0 to |ids|
      invariant pool.Valid() && Books(before, pool.tickets, me, {}) && pool.clock >= old(pool.clock)
      invariant Moves(pool.log, me) == Moves(old(pool.log), me) + calls
      invariant ProbesOf(calls, Asking(ids[..k], units)) && delay == Peak(from, calls)
      invariant alone ==>
                  && pool.tickets == old(pool.tickets) && pool.clock == old(pool.clock)
                  && ProbedSoFar(start, pool.limiters, pool.clock, done + Asking(ids[..k], units), delay)
    {
      ghost var log := pool.log;
      Pause(pool, me, alone, before, {});
      ghost var ls, middle := pool.limiters, pool.log;
      PoolSize(pool);
      PoolTicketsOk(pool);
      var d := pool.Probe(ids[k], units, me);
      ghost var c := pool.log[|middle|];
      ProbeMoves(log, middle, pool.log, me, old(pool.log), calls, c);
      ProbedCall(calls, c, ids, k, units, from, delay, d);
      if alone {
        ProbedMore(start, ls, pool.limiters, pool.clock, done + Asking(ids[..k], units), delay, ids[k], units);
        AskingMore(done, ids, k, units);
      }
      delay, calls := delay.Max(d), calls + [c];
    }
    assert ids[..|ids|] == ids;
  }

  lemma NothingProbed(ids: seq<nat>, units: nat, done: seq<(nat, nat)>, from: Delay)
    ensures done + Asking(ids[..0], units) == done && ProbesOf([], Asking(ids[..0], units)) && Peak(from, []) == from
  {
  }

  lemma ProbeMoves(a: seq<Call>, b: seq<Call>, c: seq<Call>, me: nat, first: seq<Call>, calls: seq<Call>, p: Call)
    requires Moves(b, me) == Moves(a, me) && c == b + [p] && p.ProbeCall? && p.who == me && Moves(a, me) == Moves(first, me) + calls
    ensures Moves(c, me) == Moves(first, me) + (calls + [p])
  {
    hide Moves;
    MovesMore(b, p, me);
  }

  lemma ProbedCall(calls: seq<Call>, c: Call, ids: seq<nat>, k: nat, units: nat, from: Delay, delay: Delay, d: Delay)
    requires k < |ids| && ProbesOf(calls, Asking(ids[..k], units)) && delay == Peak(from, calls)
    requires c.ProbeCall? && c.limiter == ids[k] && c.units == units && c.delay == d
    ensures ProbesOf(calls + [c], Asking(ids[..k + 1], units)) && delay.Max(d) == Peak(from, calls + [c])
  {
    PeakMore(from, calls, c);
  }

  /** When nobody else acts: the limiters are the initial ones but for due resets, and the maximum is that of the demands. */
  ghost predicate ProbedSoFar(start: seq<Limiter>, ls: seq<Limiter>, now: real, ds: seq<(nat, nat)>, delay: Delay) {
    && PoolWellFormed(start, now) && InPool(ds, start) && NormalAll(start, now) == NormalAll(ls, now)
    && delay == DemandDelay(start, ds, now)
  }

  lemma ProbedMore(start: seq<Limiter>, ls: seq<Limiter>, ls': seq<Limiter>, now: real, ds: seq<(nat, nat)>, delay: Delay, l: nat, units: nat)
    requires ProbedSoFar(start, ls, now, ds, delay) && PoolWellFormed(ls, now) && l < |ls|
    requires NormalAll(ls', now) == NormalAll(ls, now)
    ensures ProbedSoFar(start, ls', now, ds + [(l, units)], delay.Max(Probe(ls[l], now, units)))
  {
    assert |NormalAll(start, now)| == |start| && |NormalAll(ls, now)| == |ls|;
    var t := Ticket(l, 0, units, false, false, now, 0);
    SameWhenNormal(start, ls, l, now, t);
    assert (ds + [(l, units)])[..|ds|] == ds;
  }

  /** The largest delay of a scope. */
  method ProbeDelay(pool: LimiterPool, me: nat, g: Group, est: nat, alone: bool, ghost before: seq<Ticket>, ghost start: seq<Limiter>)
    returns (delay: Delay, ghost calls: seq<Call>)
    requires pool.Valid() && Books(before, pool.tickets, me, {}) && GroupInPool(g, |pool.scopes|)
    requires alone ==> ProbedSoFar(start, pool.limiters, pool.clock, [], ZERO)
    modifies pool
    ensures pool.Valid() && Books(before, pool.tickets, me, {}) && pool.clock >= old(pool.clock)
    ensures Moves(pool.log, me) == Moves(old(pool.log), me) + calls
    ensures ProbesOf(calls, GroupDemands(g, est)) && delay == Peak(ZERO, calls)
    ensures alone ==>
              && pool.tickets == old(pool.tickets) && pool.clock == old(pool.clock)
              && ProbedSoFar(start, pool.limiters, pool.clock, GroupDemands(g, est), delay)
  {
    hide *;
    GroupSplit(g, est, |pool.scopes|);
    ghost var log := pool.log;
    delay, calls := ProbeEach(pool, me, g.requests, 1, ZERO, alone, before, start, []);
    if est > 0 {
      ghost var first, middle := calls, pool.log;
      delay, calls := ProbeEach(pool, me, g.tokens, est, delay, alone, before, start, [] + Asking(g.requests, 1));
      PeakBoth(ZERO, first, calls);
      MovesChain(log, middle, pool.log, me, first, calls);
      ProbesOfBoth(first, Asking(g.requests, 1), calls, Asking(g.tokens, est));
      calls := first + calls;
    }
  }

  lemma GroupSplit(g: Group, est: nat, size: nat)
    requires GroupInPool(g, size)
    ensures (forall k | 0 <= k < |g.requests| :: g.requests[k] < size) && forall k | 0 <= k < |g.tokens| :: g.tokens[k] < size
    ensures [] + Asking(g.requests, 1) == Asking(g.requests, 1)
    ensures GroupDemands(g, est) == if est > 0 then Asking(g.requests, 1) + Asking(g.tokens, est) else Asking(g.requests, 1)
  {
  }

  lemma ProbesOfBoth(a: seq<Call>, xs: seq<(nat, nat)>, b: seq<Call>, ys: seq<(nat, nat)>)
    requires ProbesOf(a, xs) && ProbesOf(b, ys)
    ensures ProbesOf(a + b, xs + ys)
  {
  }

  lemma {:induction false} DemandDelayOfBoth(ls: seq<Limiter>, a: seq<(nat, nat)>, b: seq<(nat, nat)>, now: real)
    requires PoolWellFormed(ls, now) && InPool(a, ls) && InPool(b, ls)
    ensures InPool(a + b, ls) && !DemandDelay(ls, a, now).Less(ZERO)
    ensures DemandDelay(ls, a + b, now) == DemandDelay(ls, a, now).Max(DemandDelay(ls, b, now))
    decreases |a| + |b|
  {
    if b == [] {
      assert a + b == a;
      if a != [] {
        DemandDelayOfBoth(ls, a[..|a| - 1], [], now);
      }
    } else {
      DemandDelayOfBoth(ls, a, b[..|b| - 1], now);
      assert (a + b)[..|a| + |b| - 1] == a + b[..|b| - 1];
    }
  }

  /** The probed delay of a model: the larger of its two scopes' delays. */
  method ProbeModelDelay(pool: LimiterPool, m: Model, est: nat, me: nat, alone: bool, ghost before: seq<Ticket>)
    returns (delay: Delay, ghost calls: seq<Call>)
    requires pool.Valid() && Books(before, pool.tickets, me, {}) && ModelInPool(m, |pool.scopes|)
    modifies pool
    ensures pool.Valid() && Books(before, pool.tickets, me, {}) && pool.clock >= old(pool.clock)
    ensures Moves(pool.log, me) == Moves(old(pool.log), me) + calls
    ensures ProbesOf(calls, Demands(m, est)) && delay == Peak(ZERO, calls)
    ensures alone ==>
              && pool.tickets == old(pool.tickets) && pool.clock == old(pool.clock)
              && ProbedSoFar(old(pool.limiters), pool.limiters, pool.clock, Demands(m, est), delay)
  {
    hide LimiterPool.Valid, Moves, Books, Peak, NormalAll, PoolWellFormed, DemandDelay;
    ghost var start, log := pool.limiters, pool.log;
    PoolTicketsOk(pool);
    NoDemands(start, pool.clock);
    var upstreamMaxDelay, modelMaxDelay;
    ghost var first;
    upstreamMaxDelay, first := ProbeDelay(pool, me, m.upstream, est, alone, before, start);
    ghost var middle := pool.log;
    modelMaxDelay, calls := ProbeDelay(pool, me, m.own, est, alone, before, start);
    if alone {
      DemandDelayOfBoth(start, GroupDemands(m.upstream, est), GroupDemands(m.own, est), pool.clock);
    }
    PeakOfScopes(first, calls);
    MovesChain(log, middle, pool.log, me, first, calls);
    calls := first + calls;
    delay := upstreamMaxDelay.Max(modelMaxDelay);
  }

  lemma NoDemands(ls: seq<Limiter>, now: real)
    requires PoolWellFormed(ls, now)
    ensures DemandDelay(ls, [], now) == ZERO
  {
  }

  lemma {:induction false} SizeOfDistinct(ids: seq<nat>)
    requires Distinct(ids)
    ensures |SetOf(ids)| == |ids|
  {
    if ids == [] {
      assert SetOf(ids) == {};
    } else {
      var n := |ids| - 1;
      SizeOfDistinct(ids[..n]);
      assert SetOf(ids) == SetOf(ids[..n]) + {ids[n]};
    }
  }

  lemma SameSize(a: set<nat>, b: set<nat>)
    requires a <= b && |a| == |b|
    ensures a == b
  {
    assert |b - a| == 0;
  }

  /** When nobody else acts, the set holds every ticket issued since. */
  lemma HoldsAllIssued(before: seq<Ticket>, ts: seq<Ticket>, me: nat, requests: seq<nat>, tokens: seq<nat>, m: Model, est: nat)
    requires Collected(before, ts, me, requests, tokens, RequestLimiters(m), TokenLimiters(m, est), est)
    requires |ts| == |before| + |Demands(m, est)|
    ensures SetOf(requests) + SetOf(tokens) == SetOf(IssuedSince(|before|, ts))
  {
    var issued := IssuedSince(|before|, ts);
    SizeOfDistinct(requests);
    SizeOfDistinct(tokens);
    SizeOfDistinct(issued);
    forall id | id in SetOf(requests) + SetOf(tokens) ensures id in SetOf(issued) {
      assert issued[id - |before|] == id;
    }
    SameSize(SetOf(requests) + SetOf(tokens), SetOf(issued));
  }

  lemma {:induction false} SameDemandDelay(ls: seq<Limiter>, ls': seq<Limiter>, ds: seq<(nat, nat)>, now: real)
    requires PoolWellFormed(ls, now) && PoolWellFormed(ls', now) && NormalAll(ls, now) == NormalAll(ls', now) && InPool(ds, ls)
    ensures InPool(ds, ls') && DemandDelay(ls', ds, now) == DemandDelay(ls, ds, now)
  {
    assert |NormalAll(ls, now)| == |ls| && |NormalAll(ls', now)| == |ls'|;
    if ds != [] {
      var last := ds[|ds| - 1];
      SameDemandDelay(ls, ls', ds[..|ds| - 1], now);
      SameWhenNormal(ls, ls', last.0, now, Ticket(last.0, 0, last.1, false, false, now, 0));
    }
  }

  /** The delay of the set reserved for a model is the model's probed delay. */
  lemma ReservedDelayIsProbed(start: seq<Limiter>, before: seq<Ticket>, at: real, m: Model, est: nat, ls: seq<Limiter>, ts: seq<Ticket>,
                              me: nat, requests: seq<nat>, tokens: seq<nat>, delay: Delay)
    requires PoolWellFormed(ls, at) && ExactlyReserved(start, before, at, Demands(m, est), ls, ts, me) && EachOnce(Demands(m, est))
    requires Collected(before, ts, me, requests, tokens, RequestLimiters(m), TokenLimiters(m, est), est)
    requires AllInRange(ls, ts, SetOf(requests) + SetOf(tokens))
    requires Largest(delay, ls, ts, SetOf(requests) + SetOf(tokens), at)
    ensures delay == DemandDelay(start, Demands(m, est), at)
  {
    ProbePredictsReserveAll(start, Demands(m, est), me, at);
    HoldsAllIssued(before, ts, me, requests, tokens, m, est);
    DelayOfAllIssued(ls, ts, |before|, at, delay);
  }

  lemma DelayOfAllIssued(ls: seq<Limiter>, ts: seq<Ticket>, n: nat, at: real, delay: Delay)
    requires PoolWellFormed(ls, at) && n <= |ts| && AllInRange(ls, ts, SetOf(IssuedSince(n, ts)))
    requires Largest(delay, ls, ts, SetOf(IssuedSince(n, ts)), at)
    ensures (forall i | n <= i < |ts| :: ts[i].limiter < |ls|) && delay == TicketsDelay(ls, ts[n..], at)
  {
    var issued := IssuedSince(n, ts);
    forall i | n <= i < |ts| ensures ts[i].limiter < |ls| {
      assert issued[i - n] == i;
    }
    DelayOfIssued(ls, ts, n, at);
    DelayOverIsLargest(ls, ts, issued, at, ZERO, {});
    assert SetOf(issued) + {} == SetOf(issued);
    LargestIsUnique(delay, TicketsDelay(ls, ts[n..], at), ls, ts, SetOf(issued), at);
  }

  /**
   Probe predicts reserve, on the shared pool: with nobody acting in between, the probed delay is the largest of the
   model's limiters as they were; reserving fails if and only if it is infinite; and otherwise the set holds one
   reservation for each of the limiters, and its largest delay is the probed one.
   */
  method ProbeThenReserve(pool: LimiterPool, m: Model, est: nat, me: nat) returns (probed: Delay, rs: ReservationSet?, delay: Delay)
    requires pool.Valid() && ModelInPool(m, |pool.limiters|) && EachOnce(Demands(m, est))
    modifies pool
    ensures pool.Valid() && pool.clock == old(pool.clock)
    ensures PoolWellFormed(old(pool.limiters), pool.clock) && InPool(Demands(m, est), old(pool.limiters))
    ensures probed == DemandDelay(old(pool.limiters), Demands(m, est), pool.clock)
    ensures rs == null <==> probed.Inf?
    ensures rs == null <==> ReserveAll(old(pool.limiters), Demands(m, est), me, pool.clock).None?
    ensures rs == null ==> Books(old(pool.tickets), pool.tickets, me, {})
    ensures rs != null ==>
              && fresh(rs) && rs.pool == pool && rs.me == me && delay == probed
              && rs.Holding(old(pool.tickets), RequestLimiters(m), TokenLimiters(m, est), est)
              && AllInRange(pool.limiters, pool.tickets, rs.Ids()) && PoolWellFormed(pool.limiters, pool.clock)
              && Largest(delay, pool.limiters, pool.tickets, rs.Ids(), pool.clock)
  {
    hide LimiterPool.Valid, Moves, Books, Collected, ExactlyReserved, Largest, DemandDelay, NormalAll, ReserveAll, PoolWellFormed;
    ghost var before, ls0, calls := pool.tickets, pool.limiters, [];
    NothingHeld(before, me);
    PoolTicketsOk(pool);
    PoolSize(pool);
    probed, calls := ProbeModelDelay(pool, m, est, me, true, before);
    ghost var start, at := pool.limiters, pool.clock;
    PoolTicketsOk(pool);
    SameDemandDelay(ls0, start, Demands(m, est), at);
    ProbePredictsReserveAll(ls0, Demands(m, est), me, at);
    ProbePredictsReserveAll(start, Demands(m, est), me, at);
    PoolSize(pool);
    rs, calls := TryReserveAll(pool, m, est, me, true);
    delay := ZERO;
    if rs != null {
      ghost var ls, ts := pool.limiters, pool.tickets;
      PoolTicketsOk(pool);
      delay, calls := rs.MaxDelay(true, before, RequestLimiters(m), TokenLimiters(m, est), est);
      rs.HoldingBooks(before, RequestLimiters(m), TokenLimiters(m, est), est);
      ReservedDelayIsProbed(start, before, at, m, est, ls, pool.tickets, me, rs.requests, rs.tokens, delay);
      PoolTicketsOk(pool);
      LargestWhenNormal(delay, ls, pool.limiters, pool.tickets, rs.Ids(), at);
    }
  }

  lemma NothingHeld(ts: seq<Ticket>, me: nat)
    ensures Books(ts, ts, me, {})
  {
  }

  // ----- Ranking -----

  datatype Scored = Scored(model: nat, delay: Delay)

  /** A shuffle is some permutation. */
  method Shuffle(xs: seq<Scored>) returns (ys: seq<Scored>)
    ensures multiset(ys) == multiset(xs)
  {
    ys := xs;
    var i := |ys| - 1;
    while i > 0
      invariant i < |ys| == |xs| && multiset(ys) == multiset(xs)
    {
      var j :| 0 <= j <= i;
      ys := ys[i := ys[j]][j := ys[i]];
      i := i - 1;
    }
  }

  ghost predicate Ascending(xs: seq<Scored>) {
    forall i, j | 0 <= i < j < |xs| :: !xs[j].delay.Less(xs[i].delay)
  }

  /** Puts x behind everything that is not after it. */
  function Insert(xs: seq<Scored>, x: Scored): seq<Scored> {
    if xs == [] || x.delay.Less(xs[0].delay) then [x] + xs else [xs[0]] + Insert(xs[1..], x)
  }

  lemma {:induction false} Inserted(xs: seq<Scored>, x: Scored)
    requires Ascending(xs)
    ensures Ascending(Insert(xs, x)) && multiset(Insert(xs, x)) == multiset(xs) + multiset{x}
    ensures forall y <- Insert(xs, x) :: y == x || y in xs
  {
    if xs == [] || x.delay.Less(xs[0].delay) {
      Front(xs, x);
    } else {
      var ys := Insert(xs[1..], x);
      assert xs == [xs[0]] + xs[1..];
      Inserted(xs[1..], x);
      assert forall y <- ys :: !y.delay.Less(xs[0].delay);
      hide Ascending, Insert;
      Front(ys, xs[0]);
    }
  }

  lemma Front(xs: seq<Scored>, x: Scored)
    requires Ascending(xs) && forall y <- xs :: !y.delay.Less(x.delay)
    ensures Ascending([x] + xs)
  {
  }

  method SortByDelay(xs: seq<Scored>) returns (ys: seq<Scored>)
    ensures multiset(ys) == multiset(xs) && Ascending(ys)
  {
    ys := [];
    for i := 0 to |xs|
      invariant multiset(ys) == multiset(xs[..i]) && Ascending(ys)
    {
      assert xs[..i + 1] == xs[..i] + [xs[i]];
      Inserted(ys, xs[i]);
      ys := Insert(ys, xs[i]);
    }
    assert xs[..|xs|] == xs;
  }

  /** Each of a range of candidates is in the list that its probed delay calls for. */
  ghost predicate Classified(delays: seq<Delay>, available: seq<Scored>, waitable: seq<Scored>) {
    && (forall s <- available :: s.model < |delays| && s.delay == delays[s.model] == ZERO)
    && (forall s <- waitable :: s.model < |delays| && s.delay == delays[s.model] && s.delay.After? && ZERO.Less(s.delay))
    && (forall i | 0 <= i < |delays| && delays[i] == ZERO :: Scored(i, delays[i]) in available)
    && (forall i | 0 <= i < |delays| && delays[i].After? && delays[i] != ZERO :: Scored(i, delays[i]) in waitable)
  }

  lemma SameElements(xs: seq<Scored>, ys: seq<Scored>)
    requires multiset(xs) == multiset(ys)
    ensures forall s :: s in xs <==> s in ys
  {
    assert forall s :: s in xs <==> s in multiset(xs);
    assert forall s :: s in ys <==> s in multiset(ys);
  }

  /** No candidate is listed twice. */
  ghost predicate Once(xs: seq<Scored>) {
    forall i, j | 0 <= i < j < |xs| :: xs[i].model != xs[j].model
  }

  lemma {:induction false} OnceCounts(xs: seq<Scored>, s: Scored)
    requires forall i, j | 0 <= i < j < |xs| :: xs[i] != xs[j]
    ensures multiset(xs)[s] <= 1
  {
    if xs != [] {
      var n := |xs| - 1;
      assert xs == xs[..n] + [xs[n]];
      OnceCounts(xs[..n], s);
      if s == xs[n] {
        assert s !in xs[..n];
      }
    }
  }

  lemma StillOnce(delays: seq<Delay>, xs: seq<Scored>, ys: seq<Scored>)
    requires multiset(xs) == multiset(ys) && Once(xs) && forall s <- ys :: s.model < |delays| && s.delay == delays[s.model]
    ensures Once(ys)
  {
    forall i, j | 0 <= i < j < |ys| ensures ys[i].model != ys[j].model {
      if ys[i] == ys[j] {
        assert ys == ys[..i] + [ys[i]] + ys[i + 1..j] + [ys[j]] + ys[j + 1..];
        assert multiset(ys)[ys[i]] >= 2;
        OnceCounts(xs, ys[i]);
      }
      assert ys[i] in ys && ys[j] in ys;
    }
  }

  /**
   The candidates have been tried in the order of their delays, those of finite delay, each once; and what has not been
   tried comes after the last one tried, with which the election was won.
   */
  ghost predicate Tried(delays: seq<Delay>, tried: seq<nat>, won: bool) {
    && (forall k | 0 <= k < |tried| :: tried[k] < |delays| && delays[tried[k]].After?)
    && (forall j, k | 0 <= j < k < |tried| :: tried[j] != tried[k] && !delays[tried[k]].Less(delays[tried[j]]))
    && (won ==> tried != [])
    && forall i | 0 <= i < |delays| && delays[i].After? && i !in tried :: won && !delays[i].Less(delays[tried[|tried| - 1]])
  }

  function ModelsOf(xs: seq<Scored>): (ms: seq<nat>)
    ensures |ms| == |xs|
  {
    seq(|xs|, i requires 0 <= i < |xs| => xs[i].model)
  }

  lemma RankedInOrder(delays: seq<Delay>, available: seq<Scored>, waitable: seq<Scored>)
    requires Classified(delays, available, waitable) && Ascending(waitable) && Once(available) && Once(waitable)
    ensures Once(available + waitable) && Ascending(available + waitable)
    ensures forall k | 0 <= k < |available + waitable| ::
              var s := (available + waitable)[k]; s.model < |delays| && s.delay == delays[s.model] && s.delay.After?
    ensures forall i | 0 <= i < |delays| && delays[i].After? :: Scored(i, delays[i]) in available + waitable
  {
    var xs := available + waitable;
    forall i, j | 0 <= i < j < |xs| ensures xs[i].model != xs[j].model && !xs[j].delay.Less(xs[i].delay) {
      assert i < |available| ==> xs[i] in available;
      assert j < |available| ==> xs[j] in available;
      assert i >= |available| ==> xs[i] == waitable[i - |available|] && xs[i] in waitable;
      assert j >= |available| ==> xs[j] == waitable[j - |available|] && xs[j] in waitable;
    }
    forall k | 0 <= k < |xs| ensures xs[k].model < |delays| && xs[k].delay == delays[xs[k].model] && xs[k].delay.After? {
      assert xs[k] in available || xs[k] in waitable;
    }
  }

  /** The first k of the ranking have been tried, and with the last of them the election was won, or all have been. */
  lemma TriedFirst(delays: seq<Delay>, xs: seq<Scored>, k: nat, won: bool)
    requires k <= |xs| && Once(xs) && Ascending(xs) && (if won then k > 0 else k == |xs|)
    requires forall k | 0 <= k < |xs| :: xs[k].model < |delays| && xs[k].delay == delays[xs[k].model] && xs[k].delay.After?
    requires forall i | 0 <= i < |delays| && delays[i].After? :: Scored(i, delays[i]) in xs
    ensures Tried(delays, ModelsOf(xs[..k]), won)
  {
    var tried := ModelsOf(xs[..k]);
    forall i | 0 <= i < |delays| && delays[i].After? ensures i in tried || (won && !delays[i].Less(delays[tried[|tried| - 1]])) {
      var j :| 0 <= j < |xs| && xs[j] == Scored(i, delays[i]);
      if j < k {
        assert tried[j] == i;
      }
    }
  }

  lemma ClassifiedMore(delays: seq<Delay>, available: seq<Scored>, waitable: seq<Scored>, d: Delay)
    requires Classified(delays, available, waitable) && !d.Less(ZERO)
    ensures var s := Scored(|delays|, d);
            Classified(delays + [d],
                       if d == ZERO then available + [s] else available,
                       if d != ZERO && d.Less(Inf) then waitable + [s] else waitable)
  {
    var s := Scored(|delays|, d);
    assert forall x <- available + [s] :: x in available || x == s;
    assert forall x <- waitable + [s] :: x in waitable || x == s;
    assert forall x <- available :: x in available + [s];
    assert forall x <- waitable :: x in waitable + [s];
    assert s in available + [s] && s in waitable + [s];
  }

  /** All calls of a list of lists. */
  function Flat(css: seq<seq<Call>>): seq<Call> {
    if css == [] then [] else Flat(css[..|css| - 1]) + css[|css| - 1]
  }

  lemma FlatMore(css: seq<seq<Call>>, cs: seq<Call>)
    ensures Flat(css + [cs]) == Flat(css) + cs
  {
    assert (css + [cs])[..|css|] == css;
  }

  /** The delay that the probes of each candidate amount to. */
  function DelaysOf(probes: seq<seq<Call>>): (ds: seq<Delay>)
    ensures |ds| == |probes|
  {
    seq(|probes|, i requires 0 <= i < |probes| => Peak(ZERO, probes[i]))
  }

  /** All limiters of each candidate have been asked, for what the request needs of them. */
  ghost predicate AllProbed(probes: seq<seq<Call>>, candidates: seq<Model>, est: nat) {
    |probes| == |candidates| && forall i | 0 <= i < |probes| :: ProbesOf(probes[i], Demands(candidates[i], est))
  }

  /** These are the delays of the first candidates as the limiters are. */
  ghost predicate TrueDelays(ls: seq<Limiter>, now: real, candidates: seq<Model>, est: nat, delays: seq<Delay>) {
    && |delays| <= |candidates| && PoolWellFormed(ls, now)
    && forall i | 0 <= i < |delays| ::
         InPool(Demands(candidates[i], est), ls) && delays[i] == DemandDelay(ls, Demands(candidates[i], est), now)
  }

  method ProbeAll(pool: LimiterPool, candidates: seq<Model>, est: nat, me: nat, alone: bool, ghost before: seq<Ticket>)
    returns (available: seq<Scored>, waitable: seq<Scored>, ghost probes: seq<seq<Call>>)
    requires pool.Valid() && Books(before, pool.tickets, me, {})
    requires forall i | 0 <= i < |candidates| :: ModelInPool(candidates[i], |pool.scopes|)
    modifies pool
    ensures pool.Valid() && Books(before, pool.tickets, me, {}) && pool.clock >= old(pool.clock)
    ensures Moves(pool.log, me) == Moves(old(pool.log), me) + Flat(probes)
    ensures AllProbed(probes, candidates, est)
    ensures Classified(DelaysOf(probes), available, waitable) && Once(available) && Once(waitable)
    ensures alone ==>
              && pool.tickets == old(pool.tickets) && pool.clock == old(pool.clock)
              && TrueDelays(old(pool.limiters), pool.clock, candidates, est, DelaysOf(probes))
              && TrueDelays(pool.limiters, pool.clock, candidates, est, DelaysOf(probes))
              && NormalAll(pool.limiters, pool.clock) == NormalAll(old(pool.limiters), pool.clock)
  {
    hide *;
    ghost var ls, log := pool.limiters, pool.log;
    available, waitable, probes := [], [], [];
    PoolTicketsOk(pool);
    NothingProbedYet(ls, pool.clock, candidates, est);
    for i := 0 to |candidates|
      invariant pool.Valid() && Books(before, pool.tickets, me, {}) && pool.clock >= old(pool.clock)
      invariant Moves(pool.log, me) == Moves(log, me) + Flat(probes)
      invariant |probes| == i && AllProbed(probes, candidates[..i], est)
      invariant Classified(DelaysOf(probes), available, waitable) && Once(available) && Once(waitable)
      invariant alone ==>
                  && pool.tickets == old(pool.tickets) && pool.clock == old(pool.clock)
                  && TrueDelays(ls, pool.clock, candidates, est, DelaysOf(probes)) && NormalAll(pool.limiters, pool.clock) == NormalAll(ls, pool.clock)
    {
      ghost var middle, now := pool.log, pool.limiters;
      PoolTicketsOk(pool);
      var d;
      ghost var calls;
      d, calls := ProbeModelDelay(pool, candidates[i], est, me, alone, before);
      MovesChain(log, middle, pool.log, me, Flat(probes), calls);
      FlatMore(probes, calls);
      DelaysMore(probes, calls, d);
      AllProbedMore(probes, calls, candidates, i, est);
      KindOfDelay(d, calls);
      ClassifiedMore(DelaysOf(probes), available, waitable, d);
      if alone {
        PoolTicketsOk(pool);
        TrueDelaysMore(ls, now, pool.limiters, pool.clock, candidates, i, est, DelaysOf(probes), d);
      }
      OnceMore(DelaysOf(probes), available, waitable, d);
      probes := probes + [calls];
      if d == ZERO {
        available := available + [Scored(i, d)];
      } else if d.Less(Inf) {
        waitable := waitable + [Scored(i, d)];
      }
    }
    assert candidates[..|candidates|] == candidates;
    if alone {
      PoolTicketsOk(pool);
      TrueDelaysWhenNormal(ls, pool.limiters, pool.clock, candidates, est, DelaysOf(probes));
    }
  }

  lemma KindOfDelay(d: Delay, calls: seq<Call>)
    requires d == Peak(ZERO, calls)
    ensures !d.Less(ZERO) && (d.Less(Inf) <==> d.After?)
  {
    PeakOfScopes(calls, []);
  }

  lemma NothingProbedYet(ls: seq<Limiter>, now: real, candidates: seq<Model>, est: nat)
    requires PoolWellFormed(ls, now)
    ensures Flat([]) == [] && AllProbed([], candidates[..0], est) && DelaysOf([]) == []
    ensures Classified([], [], []) && Once([]) && TrueDelays(ls, now, candidates, est, [])
  {
  }

  lemma DelaysMore(probes: seq<seq<Call>>, calls: seq<Call>, d: Delay)
    requires d == Peak(ZERO, calls)
    ensures DelaysOf(probes + [calls]) == DelaysOf(probes) + [d]
  {
  }

  lemma AllProbedMore(probes: seq<seq<Call>>, calls: seq<Call>, candidates: seq<Model>, i: nat, est: nat)
    requires i < |candidates| && AllProbed(probes, candidates[..i], est) && ProbesOf(calls, Demands(candidates[i], est))
    ensures AllProbed(probes + [calls], candidates[..i + 1], est)
  {
  }

  lemma OnceMore(delays: seq<Delay>, available: seq<Scored>, waitable: seq<Scored>, d: Delay)
    requires Classified(delays, available, waitable) && Once(available) && Once(waitable)
    ensures Once(available + [Scored(|delays|, d)]) && Once(waitable + [Scored(|delays|, d)])
  {
    assert forall i | 0 <= i < |available| :: available[i] in available;
    assert forall i | 0 <= i < |waitable| :: waitable[i] in waitable;
  }

  lemma TrueDelaysMore(start: seq<Limiter>, ls: seq<Limiter>, ls': seq<Limiter>, now: real, candidates: seq<Model>, i: nat, est: nat,
                       delays: seq<Delay>, d: Delay)
    requires |delays| == i < |candidates| && TrueDelays(start, now, candidates, est, delays) && PoolWellFormed(ls, now)
    requires NormalAll(ls, now) == NormalAll(start, now) && ProbedSoFar(ls, ls', now, Demands(candidates[i], est), d)
    ensures TrueDelays(start, now, candidates, est, delays + [d]) && NormalAll(ls', now) == NormalAll(start, now)
  {
    SameDemandDelay(ls, start, Demands(candidates[i], est), now);
  }

  lemma TrueDelaysWhenNormal(ls: seq<Limiter>, ls': seq<Limiter>, now: real, candidates: seq<Model>, est: nat, delays: seq<Delay>)
    requires TrueDelays(ls, now, candidates, est, delays) && PoolWellFormed(ls', now) && NormalAll(ls', now) == NormalAll(ls, now)
    ensures TrueDelays(ls', now, candidates, est, delays)
  {
    forall i | 0 <= i < |delays|
      ensures InPool(Demands(candidates[i], est), ls') && delays[i] == DemandDelay(ls', Demands(candidates[i], est), now)
    {
      SameDemandDelay(ls, ls', Demands(candidates[i], est), now);
    }
  }

  // ----- Trying one candidate -----

  /** An attempt at a candidate: the reservations tried, the tickets got, the questions for delays, and the waits. */
  datatype Attempt = Attempt(model: nat, reserves: seq<Call>, ids: seq<nat>, asks: seq<Call>, waits: seq<Call>) {

    function Calls(): seq<Call> {
      reserves + asks + waits
    }
  }

  /**
   How an attempt goes: either one of the candidate's limiters refuses, and that is the end of it; or all have granted,
   each of the tickets has been asked for its delay, and unless none had any, each has been waited for, until a wait
   was given up.
   */
  ghost predicate Made(a: Attempt, m: Model, est: nat, ok: bool) {
    var n := |Demands(m, est)|;
    && ReservesOf(a.reserves, Demands(m, est))
    && if !Reserved(a, n) then !ok && Ran(a.reserves, n, false) && a.asks == [] && a.waits == []
       else && GotIn(a.reserves, SetOf(a.ids)) && AsksOf(a.asks, a.ids)
            && if Unwaited(a) then ok && a.waits == [] else WaitsOf(a.waits, a.ids) && Ran(a.waits, |a.ids|, ok)
  }

  ghost predicate Reserved(a: Attempt, n: nat) {
    Ran(a.reserves, n, true)
  }

  ghost predicate Unwaited(a: Attempt) {
    Peak(ZERO, a.asks) == ZERO
  }

  /** A daily quota that lacks room and is to be reset this very moment: it reports no delay, and grants nothing. */
  predicate Due(l: Limiter, units: nat, now: real) {
    l.Daily? && var q := DQ.Flushed(l.quota, now); !DQ.HasRoom(q, units) && q.resetTime == now
  }

  ghost predicate AnyDue(ls: seq<Limiter>, ds: seq<(nat, nat)>, now: real)
    requires InPool(ds, ls)
  {
    exists k :: 0 <= k < |ds| && Due(ls[ds[k].0], ds[k].1, now)
  }

  /** A set elected by an attempt: it holds the model's limiters, and is ready but perhaps for daily quotas; or, waited for, in all. */
  ghost predicate Elected(rs: ReservationSet, pool: LimiterPool, m: Model, est: nat, me: nat, before: seq<Ticket>, a: Attempt)
    reads rs, pool
  {
    && rs.pool == pool && rs.me == me && rs.Holding(before, RequestLimiters(m), TokenLimiters(m, est), est)
    && a.ids == rs.requests + rs.tokens
    && AllButDaily(pool.scopes, pool.clock, pool.tickets, a.ids)
    && (!Unwaited(a) ==> AllReady(pool.scopes, pool.clock, pool.tickets, a.ids))
  }

  /**
   What the limiters foretell of an attempt that nobody interferes with until it waits: it reserves if and only if the
   model's delay is finite; it succeeds without waiting if that is zero, and waits if it is not; and what it then holds
   is ready, all of it, unless there was no delay although some daily quota was full, being due.
   */
  ghost predicate Foretold(start: seq<Limiter>, ds: seq<(nat, nat)>, at: real, a: Attempt, held: bool, ready: bool)
    requires PoolWellFormed(start, at) && InPool(ds, start)
  {
    var d := DemandDelay(start, ds, at);
    && (Reserved(a, |ds|) <==> d.After?)
    && (d == ZERO ==> held && Unwaited(a)) && (d.After? && d != ZERO ==> !Unwaited(a))
    && (held ==> (ready <==> !(d == ZERO && AnyDue(start, ds, at))))
  }

  /** Tries one candidate: its reservations, ready to use but perhaps for daily quotas, or nothing held. */
  method ReserveAndWait(pool: LimiterPool, model: nat, m: Model, est: nat, me: nat, alone: bool, ghost before: seq<Ticket>)
    returns (rs: ReservationSet?, ghost a: Attempt)
    requires pool.Valid() && ModelInPool(m, |pool.scopes|) && Books(before, pool.tickets, me, {})
    modifies pool
    ensures pool.Valid() && pool.clock >= old(pool.clock)
    ensures Moves(pool.log, me) == Moves(old(pool.log), me) + a.Calls()
    ensures a.model == model && Made(a, m, est, rs != null)
    ensures rs == null ==> Books(before, pool.tickets, me, {})
    ensures rs != null ==> Elected(rs, pool, m, est, me, before, a) && fresh(rs)
    ensures alone ==> PoolWellFormed(old(pool.limiters), old(pool.clock)) && InPool(Demands(m, est), old(pool.limiters))
    ensures alone && EachOnce(Demands(m, est)) ==>
              Foretold(old(pool.limiters), Demands(m, est), old(pool.clock), a, rs != null,
                       AllReady(pool.scopes, pool.clock, pool.tickets, a.ids))
  {
    hide *;
    ghost var reqs, toks, start, log, first := RequestLimiters(m), TokenLimiters(m, est), pool.limiters, pool.log, pool.tickets;
    ghost var at, ds := pool.clock, Demands(m, est);
    PoolSize(pool);
    PoolTicketsOk(pool);
    ghost var reserves;
    rs, reserves := TryReserveAll(pool, m, est, me, alone);
    if rs == null {
      BooksOfTwo(before, first, pool.tickets, me, {});
      a := Attempt(model, reserves, [], [], []);
      RefusedMade(a, m, est);
      if alone && EachOnce(ds) {
        RefusedAlone(start, ds, me, at, a, AllReady(pool.scopes, pool.clock, pool.tickets, a.ids));
      }
      return;
    }
    ghost var middle, ls, ts := pool.log, pool.limiters, pool.tickets;
    rs.HoldingBooks(first, reqs, toks, est);
    HoldingSince(rs, before, first, reqs, toks, est);
    ghost var requests, tokens, idSet := rs.requests, rs.tokens, rs.Ids();
    PoolTicketsOk(pool);
    SetOfBoth(requests, tokens);
    var ok, skipped;
    ghost var asks, waits;
    ok, skipped, asks, waits := rs.Wait(alone, before, reqs, toks, est);
    a := Attempt(model, reserves, requests + tokens, asks, waits);
    AttemptMade(a, m, est, ok, skipped);
    AttemptMoves(log, middle, pool.log, me, a);
    if ok {
      rs.HoldingBooks(before, reqs, toks, est);
      ItIsElected(rs, pool, m, est, me, before, a);
    }
    if alone && EachOnce(ds) {
      ReservedAlone(pool.scopes, start, first, at, m, est, ls, ts, me, requests, tokens, a, ok, skipped, pool.tickets, pool.clock);
    }
    if !ok {
      rs := null;
    }
  }

  lemma RefusedMade(a: Attempt, m: Model, est: nat)
    requires ReservesOf(a.reserves, Demands(m, est)) && Ran(a.reserves, |Demands(m, est)|, false) && a.asks == [] && a.waits == []
    ensures Made(a, m, est, false) && a.Calls() == a.reserves && !Reserved(a, |Demands(m, est)|)
  {
  }

  lemma AttemptMade(a: Attempt, m: Model, est: nat, ok: bool, skipped: bool)
    requires ReservesOf(a.reserves, Demands(m, est)) && Ran(a.reserves, |Demands(m, est)|, true) && GotIn(a.reserves, SetOf(a.ids))
    requires AsksOf(a.asks, a.ids) && (skipped <==> Peak(ZERO, a.asks) == ZERO)
    requires if skipped then ok && a.waits == [] else WaitsOf(a.waits, a.ids) && Ran(a.waits, |a.ids|, ok)
    ensures Made(a, m, est, ok) && Reserved(a, |Demands(m, est)|) && (Unwaited(a) <==> skipped)
  {
  }

  lemma AttemptMoves(log: seq<Call>, middle: seq<Call>, end: seq<Call>, me: nat, a: Attempt)
    requires Moves(middle, me) == Moves(log, me) + a.reserves && Moves(end, me) == Moves(middle, me) + a.asks + a.waits
    ensures Moves(end, me) == Moves(log, me) + a.Calls()
  {
    hide Moves;
    assert Moves(log, me) + a.reserves + a.asks + a.waits == Moves(log, me) + a.Calls();
  }

  lemma HoldingSince(rs: ReservationSet, before: seq<Ticket>, first: seq<Ticket>, reqs: seq<nat>, toks: seq<nat>, est: nat)
    requires rs.Holding(first, reqs, toks, est) && Books(before, first, rs.me, {})
    ensures rs.Holding(before, reqs, toks, est)
  {
    BooksOfTwo(before, first, rs.pool.tickets, rs.me, SetOf(rs.requests) + SetOf(rs.tokens));
  }

  lemma ItIsElected(rs: ReservationSet, pool: LimiterPool, m: Model, est: nat, me: nat, before: seq<Ticket>, a: Attempt)
    requires rs.pool == pool && rs.me == me && rs.Holding(before, RequestLimiters(m), TokenLimiters(m, est), est)
    requires a.ids == rs.requests + rs.tokens && AllButDaily(pool.scopes, pool.clock, pool.tickets, a.ids)
    requires !Unwaited(a) ==> AllReady(pool.scopes, pool.clock, pool.tickets, a.ids)
    ensures Elected(rs, pool, m, est, me, before, a)
  {
  }

  // ----- An attempt that nobody interferes with -----

  lemma RefusedAlone(start: seq<Limiter>, ds: seq<(nat, nat)>, me: nat, at: real, a: Attempt, ready: bool)
    requires PoolWellFormed(start, at) && InPool(ds, start) && EachOnce(ds)
    requires ReserveAll(start, ds, me, at).None? && !Reserved(a, |ds|)
    ensures Foretold(start, ds, at, a, false, ready)
  {
    ProbePredictsReserveAll(start, ds, me, at);
  }

  /** No demand is delayed if the largest of their delays is zero. */
  lemma {:induction false} NoneDelayed(ls: seq<Limiter>, ds: seq<(nat, nat)>, now: real, k: nat)
    requires InPool(ds, ls) && PoolWellFormed(ls, now) && DemandDelay(ls, ds, now) == ZERO && k < |ds|
    ensures Probe(ls[ds[k].0], now, ds[k].1) == ZERO
  {
    var n := |ds| - 1;
    DemandDelayOfBoth(ls, ds[..n], [], now);
    ProbeFromZero(ls[ds[n].0], now, ds[n].1);
    if k < n {
      NoneDelayed(ls, ds[..n], now, k);
    }
  }

  lemma ProbeFromZero(l: Limiter, now: real, units: nat)
    requires WellFormed(l)
    ensures !Probe(l, now, units).Less(ZERO)
  {
  }

  /** With each limiter asked once, a ticket is what its limiter makes of it as it was. */
  lemma {:induction false} TicketReserved(start: seq<Limiter>, ds: seq<(nat, nat)>, me: nat, at: real, k: nat)
    requires InPool(ds, start) && PoolWellFormed(start, at) && EachOnce(ds) && ReserveAll(start, ds, me, at).Some? && k < |ds|
    ensures match Reserve(start[ds[k].0], at, ds[k].1)
            case None => false
            case Some((l, ok)) => WellFormed(l) && ReserveAll(start, ds, me, at).value.1[k] == NewTicket(l, ds[k].0, me, at, ds[k].1, ok)
  {
    var n := |ds| - 1;
    if k < n {
      TicketReserved(start, ds[..n], me, at, k);
    } else {
      ElsewhereUnchanged(start, ds[..n], me, at, ds[n].0);
      ProbePredictsReserve(start[ds[n].0], ds[n].0, me, at, ds[n].1);
    }
  }

  /** An undelayed limiter makes the ticket ready at once, unless it is due. */
  lemma ReadyUnlessDue(scope: Limiter, l: Limiter, at: real, units: nat, id: nat, me: nat)
    requires WellFormed(l) && SameScope(scope, l) && Probe(l, at, units) == ZERO && (l.Rate? ==> l.bucket.lastUpdate <= at)
    ensures match Reserve(l, at, units)
            case None => true
            case Some((l', ok)) =>
              WellFormed(l') ==>
                var t := NewTicket(l', id, me, at, units, ok);
                (t.acquired && (scope.Rate? ==> t.readyAt <= at)) <==> !Due(l, units, at)
  {
  }

  ghost predicate ReadyFrom(scopes: seq<Limiter>, at: real, ts: seq<Ticket>, n: nat) {
    forall i | n <= i < |ts| :: Ready(scopes, at, ts[i])
  }

  lemma AllReadyUnlessDue(scopes: seq<Limiter>, start: seq<Limiter>, before: seq<Ticket>, at: real, ds: seq<(nat, nat)>,
                          ls: seq<Limiter>, ts: seq<Ticket>, me: nat)
    requires InScope(scopes, start) && ExactlyReserved(start, before, at, ds, ls, ts, me) && EachOnce(ds)
    requires DemandDelay(start, ds, at) == ZERO
    ensures ReadyFrom(scopes, at, ts, |before|) <==> !AnyDue(start, ds, at)
  {
    var added := ts[|before|..];
    forall k | 0 <= k < |ds| ensures Ready(scopes, at, ts[|before| + k]) <==> !Due(start[ds[k].0], ds[k].1, at) {
      TicketReserved(start, ds, me, at, k);
      NoneDelayed(start, ds, at, k);
      ReadyUnlessDue(scopes[ds[k].0], start[ds[k].0], at, ds[k].1, ds[k].0, me);
      assert ts[|before| + k] == added[k];
    }
    hide Due, Ready, ReserveAll;
    assert |ts| == |before| + |ds|;
    if ReadyFrom(scopes, at, ts, |before|) {
      forall k | 0 <= k < |ds| ensures !Due(start[ds[k].0], ds[k].1, at) {
        assert Ready(scopes, at, ts[|before| + k]);
      }
    }
    if !AnyDue(start, ds, at) {
      forall i | |before| <= i < |ts| ensures Ready(scopes, at, ts[i]) {
        var k := i - |before|;
        assert !Due(start[ds[k].0], ds[k].1, at);
      }
    }
  }

  /** The tickets of the set are all those issued, so that both are ready together. */
  lemma ReadyTogether(scopes: seq<Limiter>, at: real, before: seq<Ticket>, ts: seq<Ticket>, requests: seq<nat>, tokens: seq<nat>)
    requires |before| <= |ts| && SetOf(requests) + SetOf(tokens) == SetOf(IssuedSince(|before|, ts))
    ensures AllReady(scopes, at, ts, requests + tokens) <==> ReadyFrom(scopes, at, ts, |before|)
  {
    hide Ready;
    var issued := IssuedSince(|before|, ts);
    SetOfBoth(requests, tokens);
    if AllReady(scopes, at, ts, requests + tokens) {
      forall i | |before| <= i < |ts| ensures Ready(scopes, at, ts[i]) {
        assert issued[i - |before|] == i && i in SetOf(requests + tokens);
      }
    }
    if ReadyFrom(scopes, at, ts, |before|) {
      forall k | 0 <= k < |requests + tokens| ensures (requests + tokens)[k] < |ts| && Ready(scopes, at, ts[(requests + tokens)[k]]) {
        assert (requests + tokens)[k] in SetOf(requests + tokens) && (requests + tokens)[k] in issued;
      }
    }
  }

  lemma ReservedAlone(scopes: seq<Limiter>, start: seq<Limiter>, before: seq<Ticket>, at: real, m: Model, est: nat,
                      ls: seq<Limiter>, ts: seq<Ticket>, me: nat, requests: seq<nat>, tokens: seq<nat>,
                      a: Attempt, ok: bool, skipped: bool, ts': seq<Ticket>, clock: real)
    requires InScope(scopes, start) && PoolWellFormed(ls, at) && TicketsOk(ls, ts) && PoolWellFormed(start, at) && InPool(Demands(m, est), start)
    requires ExactlyReserved(start, before, at, Demands(m, est), ls, ts, me) && EachOnce(Demands(m, est))
    requires Collected(before, ts, me, requests, tokens, RequestLimiters(m), TokenLimiters(m, est), est)
    requires AllInRange(ls, ts, SetOf(requests) + SetOf(tokens))
    requires (skipped <==> NoDelays(ls, ts, SetOf(requests) + SetOf(tokens), at)) && (skipped ==> ok && ts' == ts && clock == at)
    requires a.ids == requests + tokens && Reserved(a, |Demands(m, est)|) && (Unwaited(a) <==> skipped)
    requires ok && !skipped ==> AllReady(scopes, clock, ts', a.ids)
    ensures Foretold(start, Demands(m, est), at, a, ok, AllReady(scopes, clock, ts', a.ids))
  {
    hide Collected, ExactlyReserved, Reserved, Unwaited, AllReady, AnyDue, DemandDelay, NoDelays, ReadyFrom;
    ZeroDelays(start, before, at, m, est, ls, ts, me, requests, tokens);
    if skipped {
      IssuedExactly(start, before, at, m, est, ls, ts, me);
      HoldsAllIssued(before, ts, me, requests, tokens, m, est);
      ReadyTogether(scopes, at, before, ts, requests, tokens);
      AllReadyUnlessDue(scopes, start, before, at, Demands(m, est), ls, ts, me);
    }
  }

  lemma IssuedExactly(start: seq<Limiter>, before: seq<Ticket>, at: real, m: Model, est: nat, ls: seq<Limiter>, ts: seq<Ticket>, me: nat)
    requires ExactlyReserved(start, before, at, Demands(m, est), ls, ts, me)
    ensures |ts| == |before| + |Demands(m, est)|
  {
  }

  lemma ZeroDelays(start: seq<Limiter>, before: seq<Ticket>, at: real, m: Model, est: nat, ls: seq<Limiter>, ts: seq<Ticket>, me: nat,
                   requests: seq<nat>, tokens: seq<nat>)
    requires PoolWellFormed(ls, at) && TicketsOk(ls, ts)
    requires ExactlyReserved(start, before, at, Demands(m, est), ls, ts, me) && EachOnce(Demands(m, est))
    requires Collected(before, ts, me, requests, tokens, RequestLimiters(m), TokenLimiters(m, est), est)
    requires AllInRange(ls, ts, SetOf(requests) + SetOf(tokens))
    ensures PoolWellFormed(start, at) && InPool(Demands(m, est), start) && DemandDelay(start, Demands(m, est), at).After?
    ensures NoDelays(ls, ts, SetOf(requests) + SetOf(tokens), at) <==> DemandDelay(start, Demands(m, est), at) == ZERO
  {
    ReservedInPool(start, before, at, Demands(m, est), ls, ts, me);
    ReservedSome(start, before, at, Demands(m, est), ls, ts, me);
    ProbePredictsReserveAll(start, Demands(m, est), me, at);
    HeldInRange(before, ts, me, requests, tokens);
    hide ExactlyReserved, ReserveAll, DemandDelay, TicketDelay;
    var d := DelayOver(ls, ts, tokens, at, DelayOver(ls, ts, requests, at, ZERO));
    DelayOfBoth(ls, ts, requests, tokens, at);
    ReservedDelayIsProbed(start, before, at, m, est, ls, ts, me, requests, tokens, d);
    LargestZero(d, ls, ts, SetOf(requests) + SetOf(tokens), at);
  }

  lemma BooksOfTwo(before: seq<Ticket>, middle: seq<Ticket>, after: seq<Ticket>, me: nat, ids: set<nat>)
    requires Books(before, middle, me, {}) && Books(middle, after, me, ids)
    ensures Books(before, after, me, ids)
  {
  }

  // ----- The election -----

  function AllCalls(attempts: seq<Attempt>): seq<Call> {
    if attempts == [] then [] else AllCalls(attempts[..|attempts| - 1]) + attempts[|attempts| - 1].Calls()
  }

  function TriedModels(attempts: seq<Attempt>): (ms: seq<nat>)
    ensures |ms| == |attempts|
  {
    seq(|attempts|, i requires 0 <= i < |attempts| => attempts[i].model)
  }

  /** All attempts are at candidates, and all have failed, but for the last if the election is won. */
  ghost predicate AllMade(attempts: seq<Attempt>, candidates: seq<Model>, est: nat, won: bool) {
    forall k | 0 <= k < |attempts| ::
      && attempts[k].model < |candidates|
      && Made(attempts[k], candidates[attempts[k].model], est, won && k == |attempts| - 1)
  }

  lemma AttemptsMore(attempts: seq<Attempt>, a: Attempt, candidates: seq<Model>, est: nat, ok: bool)
    requires AllMade(attempts, candidates, est, false) && a.model < |candidates| && Made(a, candidates[a.model], est, ok)
    ensures AllMade(attempts + [a], candidates, est, ok) && AllCalls(attempts + [a]) == AllCalls(attempts) + a.Calls()
    ensures TriedModels(attempts + [a]) == TriedModels(attempts) + [a.model]
  {
    hide Made;
    assert (attempts + [a])[..|attempts|] == attempts;
  }

  lemma NothingTried(candidates: seq<Model>, est: nat, xs: seq<Scored>)
    ensures AllMade([], candidates, est, false) && AllCalls([]) == [] && TriedModels([]) == [] == ModelsOf(xs[..0])
  {
  }

  lemma ModelsMore(xs: seq<Scored>, k: nat)
    requires k < |xs|
    ensures ModelsOf(xs[..k + 1]) == ModelsOf(xs[..k]) + [xs[k].model]
  {
  }

  /** The first attempt is at a candidate of finite delay, and goes as the limiters foretell, each being asked once. */
  ghost predicate FirstForetold(start: seq<Limiter>, at: real, candidates: seq<Model>, est: nat, a: Attempt, won: bool, ready: bool) {
    && a.model < |candidates| && PoolWellFormed(start, at) && InPool(Demands(candidates[a.model], est), start)
    && DemandDelay(start, Demands(candidates[a.model], est), at).After?
    && (EachOnce(Demands(candidates[a.model], est)) ==> Foretold(start, Demands(candidates[a.model], est), at, a, won, ready))
  }

  lemma FirstIsForetold(start: seq<Limiter>, at: real, candidates: seq<Model>, est: nat, delays: seq<Delay>, a: Attempt, won: bool, ready: bool)
    requires TrueDelays(start, at, candidates, est, delays) && a.model < |delays| == |candidates| && delays[a.model].After?
    requires EachOnce(Demands(candidates[a.model], est)) ==>
               PoolWellFormed(start, at) && InPool(Demands(candidates[a.model], est), start)
               && Foretold(start, Demands(candidates[a.model], est), at, a, won, ready)
    ensures FirstForetold(start, at, candidates, est, a, won, ready)
  {
  }

  lemma FirstFailed(start: seq<Limiter>, at: real, candidates: seq<Model>, est: nat, a: Attempt, ready: bool, ready': bool)
    requires FirstForetold(start, at, candidates, est, a, false, ready)
    ensures FirstForetold(start, at, candidates, est, a, false, ready')
  {
  }

  /** Tries the ranked candidates in turn, up to the first that can be had. */
  method FirstToReserve(pool: LimiterPool, candidates: seq<Model>, available: seq<Scored>, waitable: seq<Scored>, est: nat, me: nat,
                        alone: bool, ghost before: seq<Ticket>, ghost delays: seq<Delay>)
    returns (winner: Option<nat>, rs: ReservationSet?, ghost attempts: seq<Attempt>)
    requires pool.Valid() && forall i | 0 <= i < |candidates| :: ModelInPool(candidates[i], |pool.scopes|)
    requires Books(before, pool.tickets, me, {})
    requires |delays| == |candidates| && Classified(delays, available, waitable) && Ascending(waitable) && Once(available) && Once(waitable)
    requires alone ==> TrueDelays(pool.limiters, pool.clock, candidates, est, delays)
    modifies pool
    ensures pool.Valid() && pool.clock >= old(pool.clock)
    ensures Moves(pool.log, me) == Moves(old(pool.log), me) + AllCalls(attempts)
    ensures AllMade(attempts, candidates, est, winner.Some?) && Tried(delays, TriedModels(attempts), winner.Some?)
    ensures winner.None? ==> rs == null && Books(before, pool.tickets, me, {})
    ensures winner.Some? ==>
              && attempts != [] && attempts[|attempts| - 1].model == winner.value < |candidates|
              && rs != null && fresh(rs) && Elected(rs, pool, candidates[winner.value], est, me, before, attempts[|attempts| - 1])
    ensures alone && attempts != [] ==>
              FirstForetold(old(pool.limiters), old(pool.clock), candidates, est, attempts[0],
                            winner.Some? && |attempts| == 1, AllReady(pool.scopes, pool.clock, pool.tickets, attempts[0].ids))
  {
    hide *;
    ghost var start, at, log := pool.limiters, pool.clock, pool.log;
    var ordered := available + waitable;
    RankedInOrder(delays, available, waitable);
    attempts := [];
    NothingTried(candidates, est, ordered);
    for k := 0 to |ordered|
      invariant pool.Valid() && Books(before, pool.tickets, me, {}) && pool.clock >= old(pool.clock)
      invariant Moves(pool.log, me) == Moves(log, me) + AllCalls(attempts)
      invariant |attempts| == k && AllMade(attempts, candidates, est, false) && TriedModels(attempts) == ModelsOf(ordered[..k])
      invariant k == 0 ==> pool.limiters == start && pool.clock == at
      invariant alone && k > 0 ==> FirstForetold(start, at, candidates, est, attempts[0], false, false)
    {
      ghost var middle := pool.log;
      var s := ordered[k];
      ghost var a;
      rs, a := ReserveAndWait(pool, s.model, candidates[s.model], est, me, alone && k == 0, before);
      MovesChain(log, middle, pool.log, me, AllCalls(attempts), a.Calls());
      AttemptsMore(attempts, a, candidates, est, rs != null);
      ModelsMore(ordered, k);
      if alone && k == 0 {
        FirstIsForetold(start, at, candidates, est, delays, a, rs != null, AllReady(pool.scopes, pool.clock, pool.tickets, a.ids));
      }
      attempts := attempts + [a];
      if rs != null {
        TriedFirst(delays, ordered, k + 1, true);
        if alone && k > 0 {
          FirstFailed(start, at, candidates, est, attempts[0], false, AllReady(pool.scopes, pool.clock, pool.tickets, attempts[0].ids));
        }
        return Some(s.model), rs, attempts;
      }
      if alone && k == 0 {
        FirstFailed(start, at, candidates, est, a, AllReady(pool.scopes, pool.clock, pool.tickets, a.ids), false);
      }
    }
    TriedFirst(delays, ordered, |ordered|, false);
    winner, rs := None, null;
    if alone && attempts != [] {
      FirstFailed(start, at, candidates, est, attempts[0], false, AllReady(pool.scopes, pool.clock, pool.tickets, attempts[0].ids));
    }
  }

  /**
   The election, with other requests acting on the shared limiters between any two calls. What the request has been told
   and has tried is on record: first all candidates are probed, each limiter of each; then those of finite delay are
   tried in the order of their delays, each once, up to the first that can be had. The winner's set holds one
   reservation for each of its limiters, ready but perhaps for daily quotas, and after a wait in all; nothing else of
   the request stays charged, and nothing at all if there is no winner. If nobody else acts until the first wait, the
   delays are those of the limiters as they were, and the first attempt goes as these foretell.
   */
  method ElectFromCandidates(pool: LimiterPool, candidates: seq<Model>, est: nat, me: nat, alone: bool)
    returns (winner: Option<nat>, rs: ReservationSet?, ghost probes: seq<seq<Call>>, ghost attempts: seq<Attempt>)
    requires pool.Valid() && forall i | 0 <= i < |candidates| :: ModelInPool(candidates[i], |pool.scopes|)
    modifies pool
    ensures pool.Valid() && pool.clock >= old(pool.clock)
    ensures Moves(pool.log, me) == Moves(old(pool.log), me) + Flat(probes) + AllCalls(attempts)
    ensures AllProbed(probes, candidates, est) && AllMade(attempts, candidates, est, winner.Some?)
    ensures Tried(DelaysOf(probes), TriedModels(attempts), winner.Some?)
    ensures FiniteIfGrantable(pool.scopes, candidates, est, DelaysOf(probes)) && NoneRefused(attempts, candidates, est)
    ensures winner.None? ==> rs == null && Books(old(pool.tickets), pool.tickets, me, {})
    ensures winner.Some? ==>
              && attempts != [] && attempts[|attempts| - 1].model == winner.value < |candidates|
              && rs != null && fresh(rs)
              && Elected(rs, pool, candidates[winner.value], est, me, old(pool.tickets), attempts[|attempts| - 1])
    ensures alone ==> TrueDelays(old(pool.limiters), old(pool.clock), candidates, est, DelaysOf(probes))
    ensures alone && attempts != [] ==>
              FirstForetold(old(pool.limiters), old(pool.clock), candidates, est, attempts[0],
                            winner.Some? && |attempts| == 1, AllReady(pool.scopes, pool.clock, pool.tickets, attempts[0].ids))
  {
    hide *;
    ghost var before, log, start, at := pool.tickets, pool.log, pool.limiters, pool.clock;
    NothingHeld(before, me);
    PoolTicketsOk(pool);
    var available, waitable;
    available, waitable, probes := ProbeAll(pool, candidates, est, me, alone, before);
    ghost var middle, ls, delays := pool.log, pool.limiters, DelaysOf(probes);
    PoolTicketsOk(pool);
    var shuffled := Shuffle(available);
    var sorted := SortByDelay(waitable);
    StillClassified(delays, available, waitable, shuffled, sorted);
    ProbedEach(probes, candidates, est);
    winner, rs, attempts := FirstToReserve(pool, candidates, shuffled, sorted, est, me, alone, before, delays);
    MovesChain(log, middle, pool.log, me, Flat(probes), AllCalls(attempts));
    ElectedAsTold(pool, log, me, candidates, est, probes, attempts, winner.Some?);
    if alone && attempts != [] {
      ForetoldWhenNormal(ls, start, at, candidates, est, attempts[0], winner.Some? && |attempts| == 1,
                         AllReady(pool.scopes, pool.clock, pool.tickets, attempts[0].ids));
    }
  }

  /** The candidates with a finite delay are those whose limiters can grant what the request asks, whoever else acts. */
  ghost predicate FiniteIfGrantable(scopes: seq<Limiter>, candidates: seq<Model>, est: nat, delays: seq<Delay>) {
    |delays| == |candidates| && forall i | 0 <= i < |delays| :: delays[i].After? <==> Grantable(scopes, Demands(candidates[i], est))
  }

  /** No candidate that is tried refuses a reservation: if it fails, then because its wait is given up. */
  ghost predicate NoneRefused(attempts: seq<Attempt>, candidates: seq<Model>, est: nat) {
    forall k | 0 <= k < |attempts| ::
      attempts[k].model < |candidates| && Reserved(attempts[k], |Demands(candidates[attempts[k].model], est)|)
  }

  lemma ElectedAsTold(pool: LimiterPool, log: seq<Call>, me: nat, candidates: seq<Model>, est: nat,
                      probes: seq<seq<Call>>, attempts: seq<Attempt>, won: bool)
    requires pool.Valid() && Moves(pool.log, me) == Moves(log, me) + Flat(probes) + AllCalls(attempts)
    requires AllProbed(probes, candidates, est) && AllMade(attempts, candidates, est, won)
    requires Tried(DelaysOf(probes), TriedModels(attempts), won)
    ensures FiniteIfGrantable(pool.scopes, candidates, est, DelaysOf(probes)) && NoneRefused(attempts, candidates, est)
  {
    hide *;
    PoolTellsByScope(pool, me);
    AllAmong(Moves(pool.log, me), Moves(log, me), Flat(probes), AllCalls(attempts));
    ProbesTold(pool.scopes, candidates, est, probes);
    AttemptsTold(pool.scopes, candidates, est, DelaysOf(probes), attempts, won);
  }

  lemma AllAmong(all: seq<Call>, a: seq<Call>, b: seq<Call>, c: seq<Call>)
    requires all == a + b + c
    ensures (forall x <- b :: x in all) && (forall x <- c :: x in all)
  {
  }

  lemma ProbesTold(scopes: seq<Limiter>, candidates: seq<Model>, est: nat, probes: seq<seq<Call>>)
    requires AllProbed(probes, candidates, est) && forall c <- Flat(probes) :: ToldByScope(scopes, c)
    ensures FiniteIfGrantable(scopes, candidates, est, DelaysOf(probes))
  {
    hide Flat, Demands, Grantable, ToldByScope, ProbesOf;
    forall i | 0 <= i < |probes| ensures DelaysOf(probes)[i].After? <==> Grantable(scopes, Demands(candidates[i], est)) {
      InFlat(probes, i);
      ProbedIfGrantable(scopes, probes[i], Demands(candidates[i], est));
    }
  }

  lemma {:induction false} InFlat(css: seq<seq<Call>>, i: nat)
    requires i < |css|
    ensures forall c <- css[i] :: c in Flat(css)
  {
    if i < |css| - 1 {
      InFlat(css[..|css| - 1], i);
    }
  }

  lemma {:induction false} InAllCalls(attempts: seq<Attempt>, k: nat)
    requires k < |attempts|
    ensures forall c <- attempts[k].reserves :: c in AllCalls(attempts)
  {
    if k < |attempts| - 1 {
      InAllCalls(attempts[..|attempts| - 1], k);
    }
  }

  lemma AttemptsTold(scopes: seq<Limiter>, candidates: seq<Model>, est: nat, delays: seq<Delay>, attempts: seq<Attempt>, won: bool)
    requires AllMade(attempts, candidates, est, won) && Tried(delays, TriedModels(attempts), won)
    requires FiniteIfGrantable(scopes, candidates, est, delays) && forall c <- AllCalls(attempts) :: ToldByScope(scopes, c)
    ensures NoneRefused(attempts, candidates, est)
  {
    hide AllCalls, Demands, Grantable, ToldByScope, Made, Reserved, Attempt.Calls;
    forall k | 0 <= k < |attempts| ensures Reserved(attempts[k], |Demands(candidates[attempts[k].model], est)|) {
      var a := attempts[k];
      InAllCalls(attempts, k);
      assert TriedModels(attempts)[k] == a.model;
      AttemptTold(scopes, candidates[a.model], est, a, won && k == |attempts| - 1);
    }
  }

  lemma AttemptTold(scopes: seq<Limiter>, m: Model, est: nat, a: Attempt, ok: bool)
    requires Made(a, m, est, ok) && Grantable(scopes, Demands(m, est)) && forall c <- a.reserves :: ToldByScope(scopes, c)
    ensures Reserved(a, |Demands(m, est)|)
  {
    hide Grantable, ToldByScope;
    if !Reserved(a, |Demands(m, est)|) {
      ReservedIfGrantable(scopes, a.reserves, Demands(m, est), false);
    }
  }

  lemma ForetoldWhenNormal(ls: seq<Limiter>, start: seq<Limiter>, at: real, candidates: seq<Model>, est: nat, a: Attempt, won: bool, ready: bool)
    requires PoolWellFormed(start, at) && NormalAll(ls, at) == NormalAll(start, at) && FirstForetold(ls, at, candidates, est, a, won, ready)
    ensures FirstForetold(start, at, candidates, est, a, won, ready)
  {
    var ds := Demands(candidates[a.model], est);
    SameDemandDelay(ls, start, ds, at);
    forall k | 0 <= k < |ds| ensures Due(ls[ds[k].0], ds[k].1, at) <==> Due(start[ds[k].0], ds[k].1, at) {
      DueWhenNormal(ls, start, at, ds[k].0, ds[k].1);
    }
    hide Due, Reserved, Unwaited, DemandDelay;
  }

  lemma DueWhenNormal(ls: seq<Limiter>, start: seq<Limiter>, at: real, l: nat, units: nat)
    requires NormalAll(ls, at) == NormalAll(start, at) && l < |ls| && |ls| == |start|
    ensures Due(ls[l], units, at) <==> Due(start[l], units, at)
  {
    assert NormalAll(ls, at)[l] == NormalAll(start, at)[l];
  }

  lemma ProbedEach(probes: seq<seq<Call>>, candidates: seq<Model>, est: nat)
    requires AllProbed(probes, candidates, est)
    ensures |probes| == |candidates|
  {
  }

  lemma StillClassified(delays: seq<Delay>, available: seq<Scored>, waitable: seq<Scored>, shuffled: seq<Scored>, sorted: seq<Scored>)
    requires Classified(delays, available, waitable) && Once(available) && Once(waitable)
    requires multiset(shuffled) == multiset(available) && multiset(sorted) == multiset(waitable)
    ensures Classified(delays, shuffled, sorted) && Once(shuffled) && Once(sorted)
  {
    SameElements(available, shuffled);
    SameElements(waitable, sorted);
    assert Classified(delays, shuffled, sorted);
    StillOnce(delays, available, shuffled);
    StillOnce(delays, waitable, sorted);
  }

  // ----- Losers, and the winner that was not charged -----

  /** No ticket of a request that it does not hold adds to the use of a daily quota. */
  lemma LosersUseNothing(pool: LimiterPool, before: seq<Ticket>, me: nat, held: set<nat>, id: nat)
    requires pool.Valid() && Books(before, pool.tickets, me, held)
    requires |before| <= id < |pool.tickets| && pool.tickets[id].owner == me && id !in held
    requires pool.tickets[id].limiter < |pool.scopes| && pool.scopes[pool.tickets[id].limiter].Daily?
    ensures var l := pool.tickets[id].limiter;
            var b, k := DA.Account(pool, l), DA.HoldOf(pool.tickets, l, id);
            k < |b.holds| && DA.Same(b.holds[k], pool.tickets[id]) && DQ.ChargeIn(b.period)(b.holds[k]) == 0
  {
    DA.UnchargedHold(pool, pool.tickets[id].limiter, id);
  }

  /**
   A reservation that has not been acquired reports no delay exactly when it is for a daily quota that has room by now,
   or whose reset is due this instant. `wait` then proceeds without acquiring it.
   */
  lemma UnacquiredWithoutDelay(l: Limiter, t: Ticket, now: real)
    requires WellFormed(l) && TicketOk(l, t) && !t.acquired
    ensures TicketDelay(l, t, now) == ZERO <==>
            l.Daily? && t.units <= l.quota.limit && (DQ.HasRoom(DQ.Flushed(l.quota, now), t.units) || Due(l, t.units, now))
  {
  }

  /**
   A request reserves one unit of a full daily quota; the unit is returned before it waits; it does not wait, and goes
   ahead: its wait has succeeded, and what it holds it has not acquired.
   */
  method UnchargedAfterWait() returns (pool: LimiterPool, rs: ReservationSet?, ok: bool, skipped: bool)
    ensures fresh(pool) && pool.Valid() && ok && skipped && rs != null && rs.pool == pool && rs.me == 0
    ensures |rs.requests| == 1 && rs.requests[0] < |pool.tickets| && rs.tokens == []
    ensures var t := pool.tickets[rs.requests[0]];
            t.owner == 0 && t.units == 1 && !t.acquired && t.charge == 0 && t.limiter < |pool.scopes| && pool.scopes[t.limiter].Daily?
  {
    hide *;
    pool := FullQuota();
    ghost var before := pool.tickets;
    rs := ReserveWhenFull(pool);
    ghost var ts := pool.tickets;
    ReturnUnit(pool);
    rs.HoldingKept(ts, before, [0], [], 0);
    rs.HoldingBooks(before, [0], [], 0);
    ghost var asks, waits, start, now := [], [], pool.limiters, pool.clock;
    PoolTicketsOk(pool);
    NoDelayThen(pool.scopes, start, pool.tickets, rs.Ids());
    ok, skipped, asks, waits := rs.Wait(true, before, [0], [], 0);
    rs.HoldingBooks(before, [0], [], 0);
  }

  const ONE_UNIT := Model(Group([0], []), Group([], []))

  /** A quota of one unit, taken by request 1. */
  method FullQuota() returns (pool: LimiterPool)
    ensures fresh(pool) && pool.Valid() && pool.clock == 10.0 && |pool.scopes| == 1
    ensures pool.limiters == [Daily(DQ.Quota(1, 1, DQ.DAY))] && pool.tickets == [Ticket(0, 1, 1, true, false, 10.0, 1)]
  {
    hide *;
    var one := Daily(DQ.Quota(1, 0, DQ.DAY));
    UnitTaken(one);
    OneLimiter(one);
    pool := new LimiterPool([one], 10.0);
    var taken := pool.Reserve(0, 1, 1);
    PoolSize(pool);
  }

  lemma UnitTaken(one: Limiter)
    requires one == Daily(DQ.Quota(1, 0, DQ.DAY))
    ensures WellFormed(one) && Reserve(one, 10.0, 1) == Some((Daily(DQ.Quota(1, 1, DQ.DAY)), true))
  {
    assert DQ.Flushed(one.quota, 10.0) == one.quota;
  }

  lemma OneLimiter(one: Limiter)
    requires one == Daily(DQ.Quota(1, 0, DQ.DAY))
    ensures PoolWellFormed([one], 10.0) && forall l <- [one] :: Unused(l)
    ensures NewTicket(Daily(DQ.Quota(1, 1, DQ.DAY)), 0, 1, 10.0, 1, true) == Ticket(0, 1, 1, true, false, 10.0, 1)
  {
  }

  method ReserveWhenFull(pool: LimiterPool) returns (rs: ReservationSet)
    requires pool.Valid() && pool.clock == 10.0 && |pool.scopes| == 1
    requires pool.limiters == [Daily(DQ.Quota(1, 1, DQ.DAY))] && pool.tickets == [Ticket(0, 1, 1, true, false, 10.0, 1)]
    modifies pool
    ensures pool.Valid() && pool.clock == 10.0 && pool.limiters == old(pool.limiters)
    ensures pool.tickets == old(pool.tickets) + [Ticket(0, 0, 1, false, false, 10.0, 0)]
    ensures fresh(rs) && rs.pool == pool && rs.me == 0 && rs.Holding(old(pool.tickets), [0], [], 0)
    ensures Collected(old(pool.tickets), pool.tickets, 0, rs.requests, rs.tokens, [0], [], 0)
    ensures rs.requests == [1] && rs.tokens == []
  {
    hide *;
    ghost var before, start, calls := pool.tickets, pool.limiters, [];
    UnitRefused(start);
    rs, calls := TryReserveAll(pool, ONE_UNIT, 0, 0, true);
    rs.HoldingBooks(before, [0], [], 0);
    ExactlyOne(start, before, pool.limiters, pool.tickets, Ticket(0, 0, 1, false, false, 10.0, 0));
    OneTicketOf(before, pool.tickets, rs.requests, rs.tokens);
  }

  lemma ExactlyOne(start: seq<Limiter>, before: seq<Ticket>, ls: seq<Limiter>, ts: seq<Ticket>, t: Ticket)
    requires PoolWellFormed(start, 10.0) && InPool(Demands(ONE_UNIT, 0), start)
    requires ExactlyReserved(start, before, 10.0, Demands(ONE_UNIT, 0), ls, ts, 0)
    requires ReserveAll(start, Demands(ONE_UNIT, 0), 0, 10.0) == Some((start, [t]))
    ensures ls == start && ts == before + [t]
  {
    hide ReserveAll, Demands, PoolWellFormed, InPool;
    assert ts == ts[..|before|] + ts[|before|..];
  }

  lemma OneTicketOf(before: seq<Ticket>, ts: seq<Ticket>, requests: seq<nat>, tokens: seq<nat>)
    requires Collected(before, ts, 0, requests, tokens, [0], [], 0) && |before| == 1 && before[0].owner == 1 && |ts| == 2
    ensures requests == [1] && tokens == []
  {
    assert requests[0] in SetOf(requests) + SetOf(tokens);
  }

  method ReturnUnit(pool: LimiterPool)
    requires pool.Valid() && pool.clock == 10.0 && pool.limiters == [Daily(DQ.Quota(1, 1, DQ.DAY))]
    requires pool.tickets == [Ticket(0, 1, 1, true, false, 10.0, 1), Ticket(0, 0, 1, false, false, 10.0, 0)]
    modifies pool
    ensures pool.Valid() && pool.clock == 10.0 && Kept(old(pool.tickets), pool.tickets, 0)
    ensures pool.limiters == [Daily(DQ.Quota(1, 0, DQ.DAY))]
    ensures pool.tickets == [Ticket(0, 1, 1, true, true, 10.0, 0), Ticket(0, 0, 1, false, false, 10.0, 0)]
  {
    hide LimiterPool.Valid;
    pool.Settle(0, 0);
  }

  lemma UnitRefused(start: seq<Limiter>)
    requires start == [Daily(DQ.Quota(1, 1, DQ.DAY))]
    ensures RequestLimiters(ONE_UNIT) == [0] && TokenLimiters(ONE_UNIT, 0) == [] && ModelInPool(ONE_UNIT, 1)
    ensures PoolWellFormed(start, 10.0) && InPool(Demands(ONE_UNIT, 0), start)
    ensures ReserveAll(start, Demands(ONE_UNIT, 0), 0, 10.0) == Some((start, [Ticket(0, 0, 1, false, false, 10.0, 0)]))
  {
    OneUnitAsked();
    RefusedWhenFull(start[0]);
    hide Demands, Reserve, NewTicket;
    var ds, t := [(0, 1)], NewTicket(start[0], 0, 0, 10.0, 1, false);
    assert ds[|ds| - 1] == (0, 1) && ds[..|ds| - 1] == [] && start[0 := start[0]] == start && [] + [t] == [t];
    assert ReserveAll(start, [], 0, 10.0) == Some((start, []));
  }

  lemma OneUnitAsked()
    ensures RequestLimiters(ONE_UNIT) == [0] && TokenLimiters(ONE_UNIT, 0) == [] && Demands(ONE_UNIT, 0) == [(0, 1)]
  {
  }

  lemma RefusedWhenFull(one: Limiter)
    requires one == Daily(DQ.Quota(1, 1, DQ.DAY))
    ensures Reserve(one, 10.0, 1) == Some((one, false)) && NewTicket(one, 0, 0, 10.0, 1, false) == Ticket(0, 0, 1, false, false, 10.0, 0)
  {
  }

  lemma NoDelayThen(scopes: seq<Limiter>, ls: seq<Limiter>, ts: seq<Ticket>, ids: set<nat>)
    requires ls == [Daily(DQ.Quota(1, 0, DQ.DAY))] && InScope(scopes, ls) && ids == SetOf([1]) + SetOf([])
    requires ts == [Ticket(0, 1, 1, true, true, 10.0, 0), Ticket(0, 0, 1, false, false, 10.0, 0)]
    ensures PoolWellFormed(ls, 10.0) && AllInRange(ls, ts, ids) && NoDelays(ls, ts, ids, 10.0) && scopes[0].Daily?
  {
    assert forall id <- ids :: id == 1;
  }
}
