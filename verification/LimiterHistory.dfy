/**
 The calls made on the limiters of a pool, and what they make of limiters and reservations. A call records who made it,
 when, and what it returned; it has a place in a history only if it returned what the limiter then had to return.
 */
module LimiterHistories {
  import opened Basics
  import opened Limiters

  datatype Call =
    | ProbeCall(who: nat, at: real, limiter: nat, units: nat, delay: Delay)
    | ReserveCall(who: nat, at: real, limiter: nat, units: nat, got: Option<nat>)
    | DelayCall(who: nat, at: real, ticket: nat, delay: Delay)
    | AttemptCall(who: nat, at: real, ticket: nat)                    // one turn of a wait
    | WaitCall(who: nat, at: real, ticket: nat, ok: bool)             // how a wait ended
    | SettleCall(who: nat, at: real, ticket: nat, actual: nat)        // CompleteWithActual; Cancel is actual == 0
    | CompleteCall(who: nat, at: real, ticket: nat)
    | ObserveCall(who: nat, at: real, limiter: nat, waited: real)     // a wait time, for the estimate

  datatype Ledger = Ledger(limiters: seq<Limiter>, tickets: seq<Ticket>)

  predicate OnTicket(c: Call) {
    c.DelayCall? || c.AttemptCall? || c.WaitCall? || c.SettleCall? || c.CompleteCall?
  }

  /** Calls are on limiters of the pool, or by the owner of a ticket on one. */
  predicate Placed(s: Ledger, c: Call) {
    if OnTicket(c)
    then c.ticket < |s.tickets| && s.tickets[c.ticket].owner == c.who && Known(s, s.tickets[c.ticket].limiter)
    else Known(s, c.limiter)
  }

  predicate Known(s: Ledger, l: nat) {
    l < |s.limiters| && WellFormed(s.limiters[l])
  }

  function SetLimiter(s: Ledger, l: nat, x: Limiter): Ledger
    requires l < |s.limiters|
  {
    s.(limiters := s.limiters[l := x])
  }

  /** The ticket and its limiter after a call on the ticket. */
  function OnOne(l: Limiter, t: Ticket, c: Call): (Limiter, Ticket)
    requires OnTicket(c) && WellFormed(l)
  {
    match c
    case DelayCall(_, at, _, _) => (if t.acquired then l else Probed(l, at, t.units), t)
    case AttemptCall(_, at, _) => Acquire(l, t, at)
    case WaitCall(_, _, _, _) => (l, t)
    case SettleCall(_, at, _, actual) => Settle(l, t, at, actual)
    case CompleteCall(_, at, _) => CompleteRequest(l, t, at)
  }

  /** What the call returned is what it had to return: a wait that succeeds leaves the ticket acquired and its time come. */
  predicate Truthful(l: Limiter, t: Ticket, c: Call)
    requires OnTicket(c) && WellFormed(l)
  {
    match c
    case DelayCall(_, at, _, delay) => delay == TicketDelay(l, t, at)
    case WaitCall(_, at, _, ok) => ok ==> t.acquired && (l.Rate? ==> t.readyAt <= at)
    case _ => true
  }

  /** The ledger after a call; None if the call cannot have been made, or not with this result. */
  function Do(s: Ledger, c: Call): Option<Ledger> {
    if !Placed(s, c) then None else
    match c
    case ProbeCall(_, at, l, units, delay) =>
      if delay == Probe(s.limiters[l], at, units) then Some(SetLimiter(s, l, Probed(s.limiters[l], at, units))) else None
    case ReserveCall(who, at, l, units, got) =>
      (match Reserve(s.limiters[l], at, units)
       case None => if got.None? then Some(s) else None
       case Some((l', ok)) =>
         if got == Some(|s.tickets|) && WellFormed(l')
         then Some(Ledger(s.limiters[l := l'], s.tickets + [NewTicket(l', l, who, at, units, ok)])) else None)
    case ObserveCall(_, _, l, waited) =>
      Some(if s.limiters[l].Concurrency? then SetLimiter(s, l, s.limiters[l].(estimate := Smoothed(s.limiters[l].estimate, waited))) else s)
    case _ =>
      var t := s.tickets[c.ticket];
      if !Truthful(s.limiters[t.limiter], t, c) then None else
      var (l', t') := OnOne(s.limiters[t.limiter], t, c);
      Some(Ledger(s.limiters[t.limiter := l'], s.tickets[c.ticket := t']))
  }

  /** The ledger that a history leaves of limiters without reservations. */
  function Replay(start: seq<Limiter>, log: seq<Call>): Option<Ledger> {
    if log == [] then Some(Ledger(start, [])) else
    match Replay(start, log[..|log| - 1])
    case None => None
    case Some(s) => Do(s, log[|log| - 1])
  }

  lemma ReplayMore(start: seq<Limiter>, log: seq<Call>, c: Call)
    ensures Replay(start, log + [c]) == match Replay(start, log) case None => None case Some(s) => Do(s, c)
  {
    assert (log + [c])[..|log|] == log;
  }

  /** Every prefix of a history is one. */
  lemma {:induction false} ReplayPrefix(start: seq<Limiter>, log: seq<Call>, k: nat)
    requires k <= |log| && Replay(start, log).Some?
    ensures Replay(start, log[..k]).Some?
    ensures k < |log| ==> Replay(start, log[..k + 1]) == Do(Replay(start, log[..k]).value, log[k])
  {
    var n := |log| - 1;
    if k < n {
      ReplayPrefix(start, log[..n], k);
      assert log[..n][..k] == log[..k] && log[..n][..k + 1] == log[..k + 1];
    } else if k == n {
      assert log[..n + 1] == log;
    } else {
      assert log[..k] == log;
    }
  }

  /** Calls are made one after the other. */
  ghost predicate InOrder(log: seq<Call>, clock: real) {
    && (forall k | 0 <= k < |log| :: log[k].at <= clock)
    && (forall j, k | 0 <= j < k < |log| :: log[j].at <= log[k].at)
  }

  lemma InOrderMore(log: seq<Call>, clock: real, c: Call)
    requires InOrder(log, clock) && c.at == clock
    ensures InOrder(log + [c], clock)
  {
  }

  // ----- What a request has been told -----

  predicate IsMove(c: Call) {
    c.ProbeCall? || c.ReserveCall? || c.DelayCall? || c.WaitCall?
  }

  /** The calls of one request by which it chooses: its probes, reservations, questions for delays, and ends of waits. */
  function Moves(log: seq<Call>, who: nat): seq<Call> {
    if log == [] then [] else
    var n := |log| - 1;
    Moves(log[..n], who) + if log[n].who == who && IsMove(log[n]) then [log[n]] else []
  }

  lemma MovesMore(log: seq<Call>, c: Call, who: nat)
    ensures Moves(log + [c], who) == Moves(log, who) + if c.who == who && IsMove(c) then [c] else []
  {
    assert (log + [c])[..|log|] == log;
  }

  // ----- Shapes of such calls -----

  /** Asks each of these limiters for the delay of so many units, in this order. */
  ghost predicate ProbesOf(cs: seq<Call>, ds: seq<(nat, nat)>) {
    |cs| == |ds| && forall k | 0 <= k < |cs| :: cs[k].ProbeCall? && cs[k].limiter == ds[k].0 && cs[k].units == ds[k].1
  }

  ghost predicate AsksOf(cs: seq<Call>, ids: seq<nat>) {
    |cs| == |ids| && forall k | 0 <= k < |cs| :: cs[k].DelayCall? && cs[k].ticket == ids[k]
  }

  ghost predicate ReservesOf(cs: seq<Call>, ds: seq<(nat, nat)>) {
    |cs| <= |ds| && forall k | 0 <= k < |cs| :: cs[k].ReserveCall? && cs[k].limiter == ds[k].0 && cs[k].units == ds[k].1
  }

  ghost predicate WaitsOf(cs: seq<Call>, ids: seq<nat>) {
    |cs| <= |ids| && forall k | 0 <= k < |cs| :: cs[k].WaitCall? && cs[k].ticket == ids[k]
  }

  predicate Went(c: Call) {
    (c.ReserveCall? ==> c.got.Some?) && (c.WaitCall? ==> c.ok)
  }

  /** Of n calls that are made up to the first that fails: all have gone well, or the last made has failed. */
  ghost predicate Ran(cs: seq<Call>, n: nat, ok: bool) {
    && (forall k | 0 <= k < |cs| - 1 :: Went(cs[k]))
    && if ok then |cs| == n && (cs != [] ==> Went(cs[|cs| - 1])) else 0 < |cs| <= n && !Went(cs[|cs| - 1])
  }

  lemma RanBoth(a: seq<Call>, b: seq<Call>, n: nat, m: nat, ok: bool)
    requires Ran(a, n, true) && Ran(b, m, ok)
    ensures Ran(a + b, n + m, ok)
  {
  }

  function ToldDelay(c: Call): Delay {
    if c.ProbeCall? || c.DelayCall? then c.delay else ZERO
  }

  /** The running maximum of the delays a request has been told. */
  function Peak(from: Delay, cs: seq<Call>): Delay {
    if cs == [] then from else Peak(from, cs[..|cs| - 1]).Max(ToldDelay(cs[|cs| - 1]))
  }

  lemma PeakMore(from: Delay, cs: seq<Call>, c: Call)
    ensures Peak(from, cs + [c]) == Peak(from, cs).Max(ToldDelay(c))
  {
    assert (cs + [c])[..|cs|] == cs;
  }

  lemma {:induction false} PeakBoth(from: Delay, a: seq<Call>, b: seq<Call>)
    ensures Peak(from, a + b) == Peak(Peak(from, a), b)
    decreases b
  {
    if b == [] {
      assert a + b == a;
    } else {
      var n := |b| - 1;
      PeakBoth(from, a, b[..n]);
      assert a + b == a + b[..n] + [b[n]];
      PeakMore(from, a + b[..n], b[n]);
    }
  }

  /** The larger of two maxima from zero is the maximum over both. */
  lemma {:induction false} PeakOfScopes(a: seq<Call>, b: seq<Call>)
    ensures !Peak(ZERO, a).Less(ZERO)
    ensures Peak(ZERO, a + b) == Peak(ZERO, a).Max(Peak(ZERO, b))
    decreases |a| + |b|
  {
    if b == [] {
      assert a + b == a;
      if a != [] {
        PeakOfScopes(a[..|a| - 1], []);
      }
    } else {
      var n := |b| - 1;
      PeakOfScopes(a, b[..n]);
      assert a + b == a + b[..n] + [b[n]];
      PeakMore(ZERO, a + b[..n], b[n]);
    }
  }

  // ----- Settlement -----

  predicate Open(s: Ledger, id: nat) {
    id < |s.tickets| && !s.tickets[id].released
  }

  predicate Gone(s: Ledger, id: nat) {
    id < |s.tickets| && s.tickets[id].released
  }

  /** How many calls of a history have settled a reservation, rather than found it settled. */
  ghost function Settlements(start: seq<Limiter>, log: seq<Call>, id: nat): nat {
    if log == [] then 0 else
    var n := |log| - 1;
    var s, s' := Replay(start, log[..n]), Replay(start, log);
    Settlements(start, log[..n], id) + if s.Some? && s'.Some? && Open(s.value, id) && Gone(s'.value, id) then 1 else 0
  }

  lemma DoKeepsTickets(s: Ledger, c: Call, id: nat)
    requires Do(s, c).Some?
    ensures var s' := Do(s, c).value;
            && |s.tickets| <= |s'.tickets| <= |s.tickets| + 1 && (Gone(s, id) ==> Gone(s', id))
            && (id < |s.tickets| ==> s'.tickets[id].SameTerms(s.tickets[id]))
            && (|s.tickets| <= id < |s'.tickets| ==> Open(s', id))
  {
  }

  /** In every history, a reservation that is settled has been settled by exactly one call, and one that is not by none. */
  lemma {:induction false} SettledExactlyOnce(start: seq<Limiter>, log: seq<Call>, id: nat)
    requires Replay(start, log).Some?
    ensures var s := Replay(start, log).value;
            Settlements(start, log, id) == if Gone(s, id) then 1 else 0
  {
    if log != [] {
      var n := |log| - 1;
      SettledExactlyOnce(start, log[..n], id);
      DoKeepsTickets(Replay(start, log[..n]).value, log[n], id);
    }
  }
}
