/**
 The daily quota behind the RPD and TPD limiters: units used since the last midnight, reset when the clock has passed
 the next one. A request limiter is the case of one unit at a time.
 */
module DailyQuotas {
  import opened Basics

  const DAY := 86400.0

  /** The first midnight (UTC) strictly after a time in seconds. */
  function NextMidnight(now: real): real {
    ((now / DAY).Floor as real + 1.0) * DAY
  }

  datatype Quota = Quota(limit: nat, used: int, resetTime: real)

  function Flushed(q: Quota, now: real): Quota {
    if now > q.resetTime then q.(used := 0, resetTime := NextMidnight(now)) else q
  }

  predicate HasRoom(q: Quota, units: nat) {
    q.used + units <= q.limit
  }

  /** The delay a probe reports, and the delay of a reservation that was not acquired. */
  function ProbeDelay(q: Quota, now: real, units: nat): Delay {
    if units > q.limit then Inf else
    var f := Flushed(q, now);
    if HasRoom(f, units) then ZERO else After(f.resetTime - now)
  }

  function Acquired(q: Quota, now: real, units: nat): Quota {
    var f := Flushed(q, now);
    if HasRoom(f, units) then f.(used := f.used + units) else f
  }

  /** A reset time is a midnight, and the next one: a whole number of days, within a day. */
  lemma NextMidnightIsNext(now: real)
    ensures now < NextMidnight(now) <= now + DAY
    ensures NextMidnight(now) == (NextMidnight(now) / DAY).Floor as real * DAY
  {
    var days := (now / DAY).Floor;
    assert now == now / DAY * DAY;
    assert days as real <= now / DAY < days as real + 1.0;
    assert NextMidnight(now) / DAY == (days + 1) as real;
  }

  /**
   What a probe tells: infinite for units that exceed the limit, nothing if there is room for them, and otherwise exactly
   how long to wait. If nobody else acts there is no room until then, and from then on there is.
   */
  lemma DelayIsWait(q: Quota, now: real, units: nat, t: real)
    requires now <= t
    ensures var d := ProbeDelay(q, now, units);
            && (d.Inf? <==> units > q.limit)
            && (HasRoom(Flushed(q, now), units) && units <= q.limit ==> d == ZERO)
            && (!HasRoom(Flushed(q, now), units) && units <= q.limit ==> (HasRoom(Flushed(q, t), units) <==> t > now + d.seconds))
  {
    NextMidnightIsNext(now);
    hide NextMidnight;
  }

  function Settled(q: Quota, reserved: nat, actual: nat): Quota {
    q.(used := MaxInt(0, q.used - reserved + actual))
  }

  class DailyQuota {
    const limit: nat
    var used: int
    var resetTime: real

    ghost function Value(): Quota
      reads this
    {
      Quota(limit, used, resetTime)
    }

    constructor (limit: nat, now: real)
      ensures Value() == Quota(limit, 0, NextMidnight(now))
    {
      this.limit, used, resetTime := limit, 0, NextMidnight(now);
    }

    method Flush(now: real)
      modifies this
      ensures Value() == Flushed(old(Value()), now)
    {
      if now > resetTime {
        used := 0;
        resetTime := NextMidnight(now);
      }
    }

    method Probe(now: real, units: nat) returns (delay: Delay)
      modifies this
      ensures delay == ProbeDelay(old(Value()), now, units)
      ensures Value() == if units > limit then old(Value()) else Flushed(old(Value()), now)
    {
      if units > limit {
        return Inf;
      }
      Flush(now);
      if used + units <= limit {
        return ZERO;
      }
      return After(resetTime - now);
    }

    /** One attempt to take the units: what Reserve does once, and what Wait repeats after each reset. */
    method TryAcquire(now: real, units: nat) returns (available: bool)
      modifies this
      ensures available == HasRoom(Flushed(old(Value()), now), units)
      ensures Value() == Acquired(old(Value()), now, units)
    {
      Flush(now);
      available := used + units <= limit;
      if available {
        used := used + units;
      }
    }
  }

  class DailyReservation {
    const state: DailyQuota
    const reserved: nat
    var acquired: bool
    var released: bool

    constructor (state: DailyQuota, reserved: nat, acquired: bool)
      ensures this.state == state && this.reserved == reserved && this.acquired == acquired && !released
    {
      this.state, this.reserved, this.acquired, released := state, reserved, acquired, false;
    }

    method CompleteWithActual(actual: nat)
      modifies this, state
      ensures released && acquired == old(acquired)
      ensures state.Value() ==
              if old(released) || !acquired then old(state.Value()) else Settled(old(state.Value()), reserved, actual)
    {
      if released {
        return;
      }
      if acquired {
        state.used := MaxInt(0, state.used - reserved + actual);
      }
      released := true;
    }

    method Cancel()
      modifies this, state
      ensures released && acquired == old(acquired)
      ensures state.Value() ==
              if old(released) || !acquired then old(state.Value()) else Settled(old(state.Value()), reserved, 0)
    {
      if released {
        return;
      }
      if acquired {
        state.used := MaxInt(0, state.used - reserved);
      }
      released := true;
    }

    method Complete()
      modifies this
      ensures released && acquired == old(acquired)
    {
      released := true;
    }
  }

  // ----- Accounting over whole runs -----

  /** A reservation, what it is charged at the moment, and the period in which it acquired its units. */
  datatype Hold = Hold(reserved: nat, acquired: bool, released: bool, charge: nat, period: nat)

  /** A quota with its reservations; `period` counts the resets, `overdraft` what this period was overcharged. */
  datatype Book = Book(quota: Quota, holds: seq<Hold>, period: nat, overdraft: nat)

  datatype Op =
    | Probe
    | Reserve(units: nat)
    | Retry(id: nat)                                   // one turn of the loop in Wait
    | Complete(id: nat)
    | Settle(id: nat, actual: nat)                     // CompleteWithActual; Cancel is actual == 0

  datatype Timed = Timed(at: real, op: Op)

  function Flush(b: Book, now: real): Book {
    if now > b.quota.resetTime then Book(Flushed(b.quota, now), b.holds, b.period + 1, 0) else b
  }

  function Take(b: Book, now: real, units: nat): (Book, bool) {
    var f := Flush(b, now);
    (f.(quota := Acquired(b.quota, now, units)), HasRoom(f.quota, units))
  }

  function Step(b: Book, t: Timed): Book {
    match t.op
    case Probe => Flush(b, t.at)
    case Reserve(units) =>
      if units > b.quota.limit then b else
      var (f, ok) := Take(b, t.at, units);
      f.(holds := f.holds + [Hold(units, ok, false, if ok then units else 0, f.period)])
    case Retry(id) =>
      if id >= |b.holds| || b.holds[id].acquired || b.holds[id].released then b else
      var h := b.holds[id];
      var (f, ok) := Take(b, t.at, h.reserved);
      if ok then f.(holds := f.holds[id := h.(acquired := true, charge := h.reserved, period := f.period)]) else f
    case Complete(id) =>
      if id >= |b.holds| then b else b.(holds := b.holds[id := b.holds[id].(released := true)])
    case Settle(id, actual) =>
      if id >= |b.holds| || b.holds[id].released then b else
      var h := b.holds[id];
      if !h.acquired then b.(holds := b.holds[id := h.(released := true)]) else
      Book(Settled(b.quota, h.reserved, actual), b.holds[id := h.(released := true, charge := actual)], b.period,
           b.overdraft + MaxInt(0, actual - h.reserved))
  }

  function Run(b: Book, ts: seq<Timed>): Book
    decreases ts
  {
    if ts == [] then b else Run(Step(b, ts[0]), ts[1..])
  }

  function ChargeIn(period: nat): Hold -> int {
    (h: Hold) => if h.acquired && h.period == period then h.charge else 0
  }

  /** What the reservations that acquired their units in a period are charged. */
  function Charges(hs: seq<Hold>, period: nat): int {
    SumOver(ChargeIn(period), hs)
  }

  lemma {:induction false} ChargesNonNegative(hs: seq<Hold>, period: nat)
    ensures Charges(hs, period) >= 0
  {
    if hs != [] {
      ChargesNonNegative(hs[..|hs| - 1], period);
    }
  }

  /** What every run keeps, whatever is settled when. */
  ghost predicate Sound(b: Book) {
    && 0 <= b.quota.used <= b.quota.limit + b.overdraft
    && forall h <- b.holds :: h.period <= b.period && (h.acquired && !h.released ==> h.charge == h.reserved)
  }

  lemma StepSound(b: Book, t: Timed)
    requires Sound(b)
    ensures Sound(Step(b, t))
  {
  }

  /**
   Use is never negative, and exceeds the limit by no more than what completions of the current period reported
   beyond their reservations, in every run.
   */
  lemma {:induction false} UseWithinLimit(b: Book, ts: seq<Timed>)
    requires Sound(b)
    ensures Sound(Run(b, ts))
    decreases ts
  {
    if ts != [] {
      StepSound(b, ts[0]);
      UseWithinLimit(Step(b, ts[0]), ts[1..]);
    }
  }

  /** A request limiter settles a hold by keeping or returning its unit, so its use never exceeds the limit. */
  lemma {:induction false} RequestsWithinLimit(b: Book, ts: seq<Timed>)
    requires Sound(b) && b.overdraft == 0
    requires forall t <- ts :: t.op.Settle? ==> t.op.actual == 0
    ensures 0 <= Run(b, ts).quota.used <= b.quota.limit
    decreases ts
  {
    if ts != [] {
      StepSound(b, ts[0]);
      RequestsWithinLimit(Step(b, ts[0]), ts[1..]);
    }
  }

  /** `used` is what the reservations of the current period are charged. */
  ghost predicate Accurate(b: Book) {
    Sound(b) && b.quota.used == Charges(b.holds, b.period)
  }

  /** The settlements that keep the count exact: the caller can tell from the hold and the quota before the call. */
  ghost predicate Harmless(b: Book, op: Op) {
    op.Settle? && op.id < |b.holds| && b.holds[op.id].acquired && !b.holds[op.id].released ==>
      var h := b.holds[op.id];
      h.period == b.period || op.actual == h.reserved || (b.quota.used == 0 && op.actual < h.reserved)
  }

  /**
   One step keeps the count exact if and only if it is harmless: settling a reservation of an earlier period moves
   today's count by units that were never in it. When the hold is of this period the clamp at zero is not reached.
   */
  lemma AccurateStep(b: Book, t: Timed)
    requires Accurate(b)
    ensures Accurate(Step(b, t)) <==> Harmless(b, t.op)
    ensures t.op.Settle? && t.op.id < |b.holds| && b.holds[t.op.id].period == b.period ==>
              b.holds[t.op.id].acquired && !b.holds[t.op.id].released ==> b.quota.used >= b.holds[t.op.id].reserved
  {
    hide Accurate, Charges, Step;
    match t.op
    case Probe => AccurateProbe(b, t.at);
    case Reserve(units) => AccurateReserve(b, t.at, units);
    case Retry(id) => AccurateRetry(b, t.at, id);
    case Complete(id) => AccurateComplete(b, t.at, id);
    case Settle(id, actual) => AccurateSettle(b, t.at, id, actual);
  }

  lemma AccurateProbe(b: Book, at: real)
    requires Accurate(b)
    ensures Accurate(Step(b, Timed(at, Probe)))
  {
    hide Accurate;
    AccurateFlush(b, at);
  }

  lemma AccurateReserve(b: Book, at: real, units: nat)
    requires Accurate(b)
    ensures Accurate(Step(b, Timed(at, Reserve(units))))
  {
    StepSound(b, Timed(at, Reserve(units)));
    hide Sound;
    if units <= b.quota.limit {
      AccurateFlush(b, at);
      var b' := Step(b, Timed(at, Reserve(units)));
      SumAppend(ChargeIn(b'.period), b.holds, b'.holds[|b.holds|]);
    }
  }

  lemma AccurateRetry(b: Book, at: real, id: nat)
    requires Accurate(b)
    ensures Accurate(Step(b, Timed(at, Retry(id))))
  {
    StepSound(b, Timed(at, Retry(id)));
    hide Sound;
    if id < |b.holds| && !b.holds[id].acquired && !b.holds[id].released {
      AccurateFlush(b, at);
      var b' := Step(b, Timed(at, Retry(id)));
      SumUpdate(ChargeIn(b'.period), b.holds, id, b'.holds[id]);
    }
  }

  lemma AccurateComplete(b: Book, at: real, id: nat)
    requires Accurate(b)
    ensures Accurate(Step(b, Timed(at, Complete(id))))
  {
    StepSound(b, Timed(at, Complete(id)));
    hide Sound;
    if id < |b.holds| {
      SumUpdate(ChargeIn(b.period), b.holds, id, b.holds[id].(released := true));
    }
  }

  lemma AccurateSettle(b: Book, at: real, id: nat, actual: nat)
    requires Accurate(b)
    ensures Accurate(Step(b, Timed(at, Settle(id, actual)))) <==> Harmless(b, Settle(id, actual))
    ensures id < |b.holds| && b.holds[id].acquired && !b.holds[id].released && b.holds[id].period == b.period ==>
              b.quota.used >= b.holds[id].reserved
  {
    StepSound(b, Timed(at, Settle(id, actual)));
    if id < |b.holds| && !b.holds[id].released {
      var h := b.holds[id];
      SumUpdate(ChargeIn(b.period), b.holds, id, h.(released := true));
      SumUpdate(ChargeIn(b.period), b.holds, id, h.(released := true, charge := actual));
      SumUpdate(ChargeIn(b.period), b.holds, id, h.(charge := 0));
      ChargesNonNegative(b.holds[id := h.(charge := 0)], b.period);
    }
  }

  lemma AccurateFlush(b: Book, now: real)
    requires Accurate(b)
    ensures Accurate(Flush(b, now))
  {
    if now > b.quota.resetTime {
      SumZero(ChargeIn(b.period + 1), b.holds);
    }
  }

  ghost predicate AllHarmless(b: Book, ts: seq<Timed>)
    decreases ts
  {
    ts == [] || (Harmless(b, ts[0].op) && AllHarmless(Step(b, ts[0]), ts[1..]))
  }

  /** In a run of harmless steps `used` is at all times what the holds of the current period are charged. */
  lemma {:induction false} AccurateRun(b: Book, ts: seq<Timed>)
    requires Accurate(b) && AllHarmless(b, ts)
    ensures Accurate(Run(b, ts))
    decreases ts
  {
    if ts != [] {
      AccurateStep(b, ts[0]);
      AccurateRun(Step(b, ts[0]), ts[1..]);
    }
  }

  /** A cancellation after midnight is taken from the new day: one request stands, none is counted. */
  lemma CancelAfterMidnightUndercounts()
    ensures var b := Book(Quota(10, 0, DAY), [], 0, 0);
            var ts := [Timed(1.0, Reserve(1)), Timed(DAY + 1.0, Reserve(1)), Timed(DAY + 2.0, Settle(0, 0))];
            && Accurate(b)
            && Run(b, ts).quota.used == 0
            && Charges(Run(b, ts).holds, Run(b, ts).period) == 1
  {
    var b := Book(Quota(10, 0, DAY), [], 0, 0);
    var t1, t2, t3 := Timed(1.0, Reserve(1)), Timed(DAY + 1.0, Reserve(1)), Timed(DAY + 2.0, Settle(0, 0));
    var g, h := Hold(1, true, false, 1, 0), Hold(1, true, false, 1, 1);
    var b1 := Book(Quota(10, 1, DAY), [g], 0, 0);
    var b2 := Book(Quota(10, 1, 2.0 * DAY), [g, h], 1, 0);
    var b3 := Book(Quota(10, 0, 2.0 * DAY), [g.(released := true, charge := 0), h], 1, 0);
    hide *;
    NothingUsed(b);
    FirstTaken(b, t1);
    TakenNextDay(b1, t2);
    CancelledNextDay(b2, t3);
    RunThree(b, t1, t2, t3);
    OneStands(b3.holds, h);
  }

  lemma RunThree(b: Book, t1: Timed, t2: Timed, t3: Timed)
    ensures Run(b, [t1, t2, t3]) == Step(Step(Step(b, t1), t2), t3)
  {
    hide Step;
    assert Run(b, [t1, t2, t3]) == Run(Step(b, t1), [t2, t3]);
    assert Run(Step(Step(b, t1), t2), [t3]) == Run(Step(Step(Step(b, t1), t2), t3), []);
  }

  lemma NothingUsed(b: Book)
    requires b == Book(Quota(10, 0, DAY), [], 0, 0)
    ensures Accurate(b)
  {
  }

  lemma OneStands(hs: seq<Hold>, h: Hold)
    requires hs == [Hold(1, true, true, 0, 0), h] && h == Hold(1, true, false, 1, 1)
    ensures Charges(hs, 1) == 1
  {
    assert hs[..1] == [hs[0]] && hs[..1][..0] == [];
    assert SumOver(ChargeIn(1), hs[..1]) == 0;
  }

  lemma CancelledNextDay(b: Book, t: Timed)
    requires b == Book(Quota(10, 1, 2.0 * DAY), [Hold(1, true, false, 1, 0), Hold(1, true, false, 1, 1)], 1, 0)
    requires t == Timed(DAY + 2.0, Settle(0, 0))
    ensures Step(b, t) == Book(Quota(10, 0, 2.0 * DAY), [Hold(1, true, true, 0, 0), Hold(1, true, false, 1, 1)], 1, 0)
  {
  }

  lemma FirstTaken(b: Book, t: Timed)
    requires b == Book(Quota(10, 0, DAY), [], 0, 0) && t == Timed(1.0, Reserve(1))
    ensures Step(b, t) == Book(Quota(10, 1, DAY), [Hold(1, true, false, 1, 0)], 0, 0)
  {
  }

  lemma TakenNextDay(b: Book, t: Timed)
    requires b == Book(Quota(10, 1, DAY), [Hold(1, true, false, 1, 0)], 0, 0) && t == Timed(DAY + 1.0, Reserve(1))
    ensures Step(b, t) == Book(Quota(10, 1, 2.0 * DAY), [Hold(1, true, false, 1, 0), Hold(1, true, false, 1, 1)], 1, 0)
  {
    assert NextMidnight(DAY + 1.0) == 2.0 * DAY by {
      assert ((DAY + 1.0) / DAY).Floor == 1;
    }
    hide NextMidnight;
  }
}
