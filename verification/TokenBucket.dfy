/**
 The token bucket behind the RPM and TPM limiters: a level that refills at a fixed rate up to a cap, may go negative
 when a reservation is granted ahead of time, and takes refunds and overdrafts when a reservation is settled.

 Times and levels are reals, in seconds and tokens; each call reads the clock once.
 */
module TokenBuckets {
  import opened Basics

  /** The fields of a bucket as one value. */
  datatype Bucket = Bucket(rate: real, burst: real, tokens: real, lastUpdate: real) {

    predicate Valid() {
      rate > 0.0 && burst > 0.0 && tokens <= burst
    }
  }

  /** A limiter for `limit` units a minute starts full. */
  function NewBucket(limit: nat, now: real): Bucket {
    Bucket(limit as real / 60.0, limit as real, limit as real, now)
  }

  /** What flows in between two times. */
  function Refill(rate: real, from: real, to: real): real {
    (to - from) * rate
  }

  function Filled(b: Bucket, now: real): Bucket {
    b.(tokens := MinReal(b.burst, b.tokens + Refill(b.rate, b.lastUpdate, now)), lastUpdate := now)
  }

  function ProbeDelay(b: Bucket, now: real, cost: real): Delay
    requires b.Valid()
  {
    if cost > b.burst then Inf else
    var remaining := Filled(b, now).tokens - cost;
    if remaining >= 0.0 then ZERO else After(-remaining / b.rate)
  }

  function Charged(b: Bucket, now: real, cost: real): Bucket {
    var f := Filled(b, now);
    f.(tokens := f.tokens - cost)
  }

  /** When the level of a bucket last updated at its own lastUpdate is next non-negative. */
  function ReadyAt(b: Bucket): real
    requires b.Valid()
  {
    if b.tokens >= 0.0 then b.lastUpdate else b.lastUpdate + -b.tokens / b.rate
  }

  function Adjusted(b: Bucket, now: real, diff: real): Bucket {
    var f := Filled(b, now);
    f.(tokens := MinReal(f.burst, f.tokens + diff))
  }

  /** The bucket as an object; every method is its value-level counterpart. */
  class TokenBucket {
    const rate: real
    const burst: real
    var tokens: real
    var lastUpdate: real

    ghost function Value(): Bucket
      reads this
    {
      Bucket(rate, burst, tokens, lastUpdate)
    }

    ghost predicate Valid()
      reads this
    {
      Value().Valid()
    }

    constructor (limit: nat, now: real)
      requires limit > 0
      ensures Valid() && Value() == NewBucket(limit, now)
    {
      rate, burst := limit as real / 60.0, limit as real;
      tokens, lastUpdate := limit as real, now;
    }

    method Fill(now: real)
      requires Valid()
      modifies this
      ensures Valid() && Value() == Filled(old(Value()), now)
    {
      var elapsed := now - lastUpdate;
      tokens := tokens + elapsed * rate;
      if tokens > burst {
        tokens := burst;
      }
      lastUpdate := now;
    }

    method Probe(now: real, cost: real) returns (delay: Delay)
      requires Valid()
      ensures delay == ProbeDelay(Value(), now, cost)
    {
      if cost > burst {
        return Inf;
      }
      var elapsed := now - lastUpdate;
      var estimatedTokens := tokens + elapsed * rate;
      if estimatedTokens > burst {
        estimatedTokens := burst;
      }
      var remaining := estimatedTokens - cost;
      if remaining >= 0.0 {
        return ZERO;
      }
      return After(-remaining / rate);
    }

    method Reserve(now: real, cost: real) returns (readyAt: real)
      requires Valid() && cost >= 0.0
      modifies this
      ensures Valid() && Value() == Charged(old(Value()), now, cost)
      ensures readyAt == ReadyAt(Value())
    {
      Fill(now);
      tokens := tokens - cost;
      if tokens >= 0.0 {
        return now;
      }
      var wait := -tokens / rate;
      return now + wait;
    }

    method Adjust(now: real, diff: real)
      requires Valid()
      modifies this
      ensures Valid() && Value() == Adjusted(old(Value()), now, diff)
    {
      Fill(now);
      tokens := tokens + diff;
      if tokens > burst {
        tokens := burst;
      }
    }
  }

  /** A reservation holds its charge until it is settled, and is settled at most once. */
  class BucketReservation {
    const limiter: TokenBucket
    const tokens: int
    const readyAt: real
    var released: bool

    constructor (limiter: TokenBucket, tokens: int, readyAt: real)
      ensures this.limiter == limiter && this.tokens == tokens && this.readyAt == readyAt && !released
    {
      this.limiter, this.tokens, this.readyAt, released := limiter, tokens, readyAt, false;
    }

    method CompleteWithActual(now: real, actualTokens: int)
      requires limiter.Valid()
      modifies this, limiter
      ensures limiter.Valid() && released
      ensures limiter.Value() ==
              if old(released) || tokens == actualTokens then old(limiter.Value())
              else Adjusted(old(limiter.Value()), now, (tokens - actualTokens) as real)
    {
      if released {
        return;
      }
      released := true;
      var diff := (tokens - actualTokens) as real;
      if diff == 0.0 {
        return;
      }
      limiter.Adjust(now, diff);
    }

    method Cancel(now: real)
      requires limiter.Valid()
      modifies this, limiter
      ensures limiter.Valid() && released
      ensures limiter.Value() ==
              if old(released) || tokens == 0 then old(limiter.Value())
              else Adjusted(old(limiter.Value()), now, tokens as real)
    {
      CompleteWithActual(now, 0);
    }

    method Complete()
      modifies this
      ensures released
    {
      released := true;
    }
  }

  // ----- How many tokens can become ready in a window -----

  /** One attempt to reserve, at a time no earlier than the previous one. */
  datatype Request = Request(at: real, cost: nat)

  ghost predicate Chronological(since: real, rs: seq<Request>)
    decreases rs
  {
    rs == [] || (since <= rs[0].at && Chronological(rs[0].at, rs[1..]))
  }

  /** The TPM limiter refuses what exceeds the burst and charges the rest. */
  function Granted(b: Bucket, r: Request): bool {
    r.cost as real <= b.burst
  }

  function AfterRequest(b: Bucket, r: Request): (b': Bucket) {
    if Granted(b, r) then Charged(b, r.at, r.cost as real) else b
  }

  /** The total cost of those requests of a run whose grant becomes ready between s and e. */
  ghost function ReadyWithin(b: Bucket, rs: seq<Request>, s: real, e: real): real
    requires b.Valid()
    decreases rs
  {
    if rs == [] then 0.0 else
    var b' := AfterRequest(b, rs[0]);
    (if Granted(b, rs[0]) && s <= ReadyAt(b') <= e then rs[0].cost as real else 0.0) + ReadyWithin(b', rs[1..], s, e)
  }

  /** What the bucket could hand out by time e if it had no cap. */
  ghost function Available(b: Bucket, e: real): real {
    b.tokens + (e - b.lastUpdate) * b.rate
  }

  lemma Earns(rate: real, x: real, y: real)
    requires rate > 0.0 && x <= y
    ensures x * rate <= y * rate
  {
  }

  /** What is granted is ready once the refill has covered the deficit, and not before. */
  lemma ReadyMeansCovered(b: Bucket, e: real)
    requires b.Valid()
    ensures b.lastUpdate <= ReadyAt(b)
    ensures b.lastUpdate <= e ==> (ReadyAt(b) <= e <==> Available(b, e) >= 0.0)
    ensures b.tokens < 0.0 ==> Available(b, ReadyAt(b)) == 0.0
  {
    if b.tokens < 0.0 {
      var w := -b.tokens / b.rate;
      assert w * b.rate == -b.tokens;
      assert Available(b, e) == (e - b.lastUpdate - w) * b.rate;
    } else if b.lastUpdate <= e {
      Earns(b.rate, b.lastUpdate, e);
    }
  }

  lemma ChargeSpends(b: Bucket, at: real, cost: real, e: real)
    requires b.Valid() && b.lastUpdate <= at
    ensures Available(Charged(b, at, cost), e) + cost <= Available(b, e)
  {
  }

  /** Nothing can become ready by time e beyond the level plus the refill until e. */
  lemma {:induction false} ReadyBy(b: Bucket, rs: seq<Request>, s: real, e: real)
    requires b.Valid() && Chronological(b.lastUpdate, rs)
    ensures ReadyWithin(b, rs, s, e) <= MaxReal(0.0, Available(b, e))
    decreases rs
  {
    if rs != [] {
      var r, rest := rs[0], rs[1..];
      if Granted(b, r) {
        var b' := Charged(b, r.at, r.cost as real);
        var w, w' := Available(b, e), Available(b', e);
        ReadyBy(b', rest, s, e);
        ChargeSpends(b, r.at, r.cost as real, e);
        ReadyMeansCovered(b', e);
        FirstThenRest(r.cost as real, w, w', ReadyWithin(b', rest, s, e), s <= ReadyAt(b') <= e);
      } else {
        LaterStart(b.lastUpdate, r.at, rest);
        ReadyBy(b, rest, s, e);
      }
    }
  }

  lemma FirstThenRest(c: real, w: real, w': real, total: real, ready: bool)
    requires 0.0 <= c && w' + c <= w && total <= MaxReal(0.0, w') && (ready ==> w' >= 0.0)
    ensures (if ready then c else 0.0) + total <= MaxReal(0.0, w)
    ensures ready ==> c + total <= w
  {
  }

  lemma LaterStart(t0: real, t1: real, rs: seq<Request>)
    requires t0 <= t1 && Chronological(t1, rs)
    ensures Chronological(t0, rs)
  {
  }

  lemma FromFirst(b: Bucket, c: real, s: real, r: real, e: real)
    requires b.rate > 0.0 && s <= r <= e && c + Available(b, r) <= b.burst
    ensures c + Available(b, e) <= b.burst + (e - s) * b.rate
  {
    Earns(b.rate, s, r);
  }

  /** If the first grant in a window costs c, then c and all that follows by its end fit the bound. */
  lemma FromFirstReady(b: Bucket, c: real, rest: seq<Request>, s: real, e: real, refill: real)
    requires b.Valid() && b.tokens + c <= b.burst && 0.0 <= c <= b.burst && s <= ReadyAt(b) <= e
    requires refill == (e - s) * b.rate && Chronological(b.lastUpdate, rest)
    ensures c + ReadyWithin(b, rest, s, e) <= b.burst + refill
  {
    ReadyMeansCovered(b, e);
    FromFirst(b, c, s, ReadyAt(b), e);
    ReadyBy(b, rest, s, e);
    var total := ReadyWithin(b, rest, s, e);
    FirstThenRest(c, b.burst + refill, Available(b, e), total, true);
  }

  /**
   The rate bound: however requests arrive, the tokens that become ready in a window of time are at most one burst
   plus what the window refills.
   */
  lemma RateBound(b: Bucket, rs: seq<Request>, s: real, e: real)
    requires b.Valid() && Chronological(b.lastUpdate, rs) && s <= e
    ensures ReadyWithin(b, rs, s, e) <= b.burst + (e - s) * b.rate
  {
    Earns(b.rate, s, e);
    RateBoundFrom(b, rs, s, e, b.rate, (e - s) * b.rate);
  }

  lemma {:induction false} RateBoundFrom(b: Bucket, rs: seq<Request>, s: real, e: real, rate: real, refill: real)
    requires b.Valid() && b.rate == rate && Chronological(b.lastUpdate, rs)
    requires 0.0 <= refill == (e - s) * rate
    ensures ReadyWithin(b, rs, s, e) <= b.burst + refill
    decreases rs
  {
    if rs != [] {
      var r, rest := rs[0], rs[1..];
      if Granted(b, r) {
        var b' := Charged(b, r.at, r.cost as real);
        if s <= ReadyAt(b') <= e {
          FromFirstReady(b', r.cost as real, rest, s, e, refill);
        } else {
          RateBoundFrom(b', rest, s, e, rate, refill);
        }
      } else {
        LaterStart(b.lastUpdate, r.at, rest);
        RateBoundFrom(b, rest, s, e, rate, refill);
      }
    }
  }

  /** A bucket for so many units a minute: in no 60 seconds do more than twice as many become ready. */
  lemma TwiceTheLimit(limit: nat, now: real, rs: seq<Request>, s: real)
    requires limit > 0 && Chronological(now, rs)
    ensures ReadyWithin(NewBucket(limit, now), rs, s, s + 60.0) <= 2.0 * limit as real
  {
    hide ReadyWithin, Chronological;
    var b := NewBucket(limit, now);
    RateBound(b, rs, s, s + 60.0);
    assert (s + 60.0 - s) * b.rate == 60.0 * (limit as real / 60.0) == limit as real;
  }

  /** What a probe tells is how long it takes until the level covers the cost, if nobody else acts. */
  lemma DelayIsWait(b: Bucket, now: real, cost: real, t: real)
    requires b.Valid() && now <= t
    ensures var d := ProbeDelay(b, now, cost);
            && (d.Inf? <==> cost > b.burst)
            && (Filled(b, now).tokens >= cost ==> d == ZERO && Filled(b, t).tokens >= cost)
            && (d.After? && Filled(b, now).tokens < cost ==> (Filled(b, t).tokens >= cost <==> t >= now + d.seconds))
  {
    hide Refill;
    var level, earned := b.tokens + Refill(b.rate, b.lastUpdate, now), (t - now) * b.rate;
    RefillOfBoth(b.rate, b.lastUpdate, now, t);
    var missing := cost - Filled(b, now).tokens;
    if 0.0 < missing {
      var w := missing / b.rate;
      assert w * b.rate == missing;
      assert earned - missing == (t - now - w) * b.rate;
    }
  }

  lemma RefillOfBoth(rate: real, from: real, now: real, to: real)
    requires rate > 0.0 && now <= to
    ensures Refill(rate, from, to) == Refill(rate, from, now) + (to - now) * rate && (to - now) * rate >= 0.0
  {
    assert (to - from) * rate == (now - from) * rate + (to - now) * rate;
  }

  lemma GrantReadyLater(b: Bucket, r: Request)
    requires b.Valid() && b.lastUpdate <= r.at
    ensures ReadyAt(b) <= ReadyAt(Charged(b, r.at, r.cost as real))
  {
    var b' := Charged(b, r.at, r.cost as real);
    var e := ReadyAt(b');
    ReadyMeansCovered(b', e);
    ChargeSpends(b, r.at, r.cost as real, e);
    ReadyMeansCovered(b, e);
    if b'.tokens >= 0.0 {
      ReadyMeansCovered(b, r.at);
    }
  }

  /** When the grants of a run are ready, in the order in which they are made. */
  ghost function ReadyTimes(b: Bucket, rs: seq<Request>): seq<real>
    requires b.Valid()
    decreases rs
  {
    if rs == [] then [] else
    var b' := AfterRequest(b, rs[0]);
    (if Granted(b, rs[0]) then [ReadyAt(b')] else []) + ReadyTimes(b', rs[1..])
  }

  /** In a run with refusals in between, of any two grants the earlier one is ready no later. */
  lemma {:induction false} ReadyInOrder(b: Bucket, rs: seq<Request>)
    requires b.Valid() && Chronological(b.lastUpdate, rs)
    ensures forall i | 0 <= i < |ReadyTimes(b, rs)| :: ReadyAt(b) <= ReadyTimes(b, rs)[i]
    ensures forall i, j | 0 <= i < j < |ReadyTimes(b, rs)| :: ReadyTimes(b, rs)[i] <= ReadyTimes(b, rs)[j]
    decreases rs
  {
    if rs != [] {
      var b' := AfterRequest(b, rs[0]);
      if Granted(b, rs[0]) {
        GrantReadyLater(b, rs[0]);
      } else {
        LaterStart(b.lastUpdate, rs[0].at, rs[1..]);
      }
      hide ReadyAt, Charged;
      ReadyInOrder(b', rs[1..]);
    }
  }

  // ----- Refunds and overdrafts: nothing is lost, nothing is minted -----

  /** One reservation against the bucket, and what it is charged at the moment. */
  datatype Grant = Grant(cost: int, charge: int, released: bool)

  /** The bucket with the reservations made against it and the refill it had no room for. */
  datatype Ledger = Ledger(bucket: Bucket, grants: seq<Grant>, spilled: real)

  datatype Op =
    | Reserve(cost: int)
    | Complete(id: nat)                              // settle at the estimate
    | CompleteWithActual(id: nat, actual: int)       // settle at the actual use
    | Cancel(id: nat)                                // settle at nothing

  datatype Timed = Timed(at: real, op: Op)

  function Overflow(b: Bucket, now: real, diff: real): real {
    var level := b.tokens + (now - b.lastUpdate) * b.rate;
    var filled := MinReal(b.burst, level);
    (level - filled) + (filled + diff - MinReal(b.burst, filled + diff))
  }

  function Settle(l: Ledger, now: real, id: nat, actual: int): Ledger
    requires id < |l.grants|
  {
    var g := l.grants[id];
    if g.released then l else
    var settled := l.(grants := l.grants[id := g.(charge := actual, released := true)]);
    var diff := (g.cost - actual) as real;
    if diff == 0.0 then settled
    else settled.(bucket := Adjusted(l.bucket, now, diff), spilled := l.spilled + Overflow(l.bucket, now, diff))
  }

  function Step(l: Ledger, t: Timed): Ledger {
    match t.op
    case Reserve(c) =>
      Ledger(Charged(l.bucket, t.at, c as real), l.grants + [Grant(c, c, false)],
             l.spilled + Overflow(l.bucket, t.at, 0.0))
    case Complete(id) =>
      if id < |l.grants| then l.(grants := l.grants[id := l.grants[id].(released := true)]) else l
    case CompleteWithActual(id, actual) =>
      if id < |l.grants| then Settle(l, t.at, id, actual) else l
    case Cancel(id) =>
      if id < |l.grants| then Settle(l, t.at, id, 0) else l
  }

  function Run(l: Ledger, ts: seq<Timed>): Ledger
    decreases ts
  {
    if ts == [] then l else Run(Step(l, ts[0]), ts[1..])
  }

  function ChargeOf(g: Grant): int {
    g.charge
  }

  function NetCharge(gs: seq<Grant>): int {
    SumOver(ChargeOf, gs)
  }

  ghost predicate Balanced(l: Ledger, since: real) {
    && l.bucket.Valid()
    && l.bucket.tokens + NetCharge(l.grants) as real + l.spilled
       == l.bucket.burst + (l.bucket.lastUpdate - since) * l.bucket.rate
    && forall g <- l.grants :: !g.released ==> g.charge == g.cost
  }

  /** The level minus everything refilled since time zero: only charges, refunds and spills move it. */
  ghost function Base(b: Bucket): real {
    b.tokens - b.lastUpdate * b.rate
  }

  lemma BalancedByBase(l: Ledger, since: real)
    ensures Balanced(l, since) <==>
            && l.bucket.Valid()
            && Base(l.bucket) + NetCharge(l.grants) as real + l.spilled == l.bucket.burst - since * l.bucket.rate
            && forall g <- l.grants :: !g.released ==> g.charge == g.cost
  {
  }

  lemma AdjustMovesBase(b: Bucket, now: real, diff: real)
    requires b.Valid()
    ensures Base(Adjusted(b, now, diff)) + Overflow(b, now, diff) == Base(b) + diff
    ensures Overflow(b, now, diff) >= 0.0
    ensures var r := Adjusted(b, now, diff); r.Valid() && r.burst == b.burst && r.rate == b.rate
  {
  }

  lemma ChargeMovesBase(b: Bucket, now: real, cost: real)
    requires b.Valid()
    ensures Base(Charged(b, now, cost)) + Overflow(b, now, 0.0) == Base(b) - cost
    ensures Overflow(b, now, 0.0) >= 0.0
  {
  }

  lemma SettleBalanced(l: Ledger, since: real, now: real, id: nat, actual: int)
    requires Balanced(l, since) && id < |l.grants|
    ensures Balanced(Settle(l, now, id, actual), since)
    ensures Settle(l, now, id, actual).spilled >= l.spilled
  {
    var l' := Settle(l, now, id, actual);
    var g := l.grants[id];
    if !g.released {
      BalancedByBase(l, since);
      hide Adjusted, Overflow, Base, NetCharge, Bucket.Valid;
      SettledCharges(l.grants, id, actual);
      AdjustMovesBase(l.bucket, now, (g.cost - actual) as real);
      BalancedByBase(l', since);
    }
  }

  lemma ReserveBalanced(l: Ledger, since: real, now: real, cost: int)
    requires Balanced(l, since) && l.bucket.lastUpdate <= now && cost >= 0
    ensures var r := Step(l, Timed(now, Reserve(cost))); Balanced(r, since) && r.spilled >= l.spilled
  {
    var g := Grant(cost, cost, false);
    SumAppend(ChargeOf, l.grants, g);
    ChargeMovesBase(l.bucket, now, cost as real);
    BalancedByBase(l, since);
    hide Balanced, Base, Overflow;
    StillValid(l.bucket, now, cost as real);
    hide Charged, Bucket.Valid;
    BalancedByBase(Step(l, Timed(now, Reserve(cost))), since);
  }

  lemma StillValid(b: Bucket, now: real, cost: real)
    requires b.Valid() && b.lastUpdate <= now && cost >= 0.0
    ensures var r := Charged(b, now, cost); r.Valid() && r.burst == b.burst && r.rate == b.rate
  {
  }

  lemma CompleteBalanced(l: Ledger, since: real, id: nat)
    requires Balanced(l, since) && id < |l.grants|
    ensures Balanced(l.(grants := l.grants[id := l.grants[id].(released := true)]), since)
  {
    SumUpdate(ChargeOf, l.grants, id, l.grants[id].(released := true));
  }

  lemma SettledCharges(gs: seq<Grant>, id: nat, actual: int)
    requires id < |gs| && gs[id].charge == gs[id].cost && forall g <- gs :: !g.released ==> g.charge == g.cost
    ensures var gs' := gs[id := gs[id].(charge := actual, released := true)];
            NetCharge(gs') == NetCharge(gs) - (gs[id].cost - actual) && forall g <- gs' :: !g.released ==> g.charge == g.cost
  {
    SumUpdate(ChargeOf, gs, id, gs[id].(charge := actual, released := true));
  }

  lemma StepBalanced(l: Ledger, since: real, t: Timed)
    requires Balanced(l, since) && l.bucket.lastUpdate <= t.at
    requires t.op.Reserve? ==> t.op.cost >= 0
    ensures Balanced(Step(l, t), since)
    ensures Step(l, t).spilled >= l.spilled
  {
    hide Balanced, Settle, Charged;
    match t.op
    case Reserve(c) => ReserveBalanced(l, since, t.at, c);
    case Complete(id) =>
      if id < |l.grants| {
        CompleteBalanced(l, since, id);
      }
    case CompleteWithActual(id, actual) =>
      if id < |l.grants| {
        SettleBalanced(l, since, t.at, id, actual);
      }
    case Cancel(id) =>
      if id < |l.grants| {
        SettleBalanced(l, since, t.at, id, 0);
      }
  }

  ghost predicate InTimeOrder(since: real, ts: seq<Timed>)
    decreases ts
  {
    ts == [] || (since <= ts[0].at && (ts[0].op.Reserve? ==> ts[0].op.cost >= 0) && InTimeOrder(ts[0].at, ts[1..]))
  }

  lemma EarlierStart(t0: real, t1: real, ts: seq<Timed>)
    requires t0 <= t1 && InTimeOrder(t1, ts)
    ensures InTimeOrder(t0, ts)
  {
  }

  /**
   Conservation: after any run of reservations, completions, overdrafts and cancellations, the level, the charges
   still standing and the refill lost at the cap add up to the initial burst and the refill since.
   */
  lemma {:induction false} Conservation(l: Ledger, since: real, ts: seq<Timed>)
    requires Balanced(l, since) && InTimeOrder(l.bucket.lastUpdate, ts)
    ensures Balanced(Run(l, ts), since)
    ensures Run(l, ts).spilled >= l.spilled
    decreases ts
  {
    if ts != [] {
      StepBalanced(l, since, ts[0]);
      EarlierStart(Step(l, ts[0]).bucket.lastUpdate, ts[0].at, ts[1..]);
      Conservation(Step(l, ts[0]), since, ts[1..]);
    }
  }

  /** A settled reservation keeps the charge it was settled with: no later call on it changes anything. */
  lemma {:induction false} SettledOnce(l: Ledger, ts: seq<Timed>, id: nat)
    requires id < |l.grants| && l.grants[id].released
    ensures id < |Run(l, ts).grants| && Run(l, ts).grants[id] == l.grants[id]
    decreases ts
  {
    if ts != [] {
      SettledOnce(Step(l, ts[0]), ts[1..], id);
    }
  }

  // ----- Cancelling gives the quota back -----

  /** Traffic of others: charges and refunds, at given times. */
  datatype Move = Move(at: real, diff: real, capped: bool)

  function Apply(b: Bucket, m: Move): Bucket {
    if m.capped then Adjusted(b, m.at, m.diff) else Charged(b, m.at, -m.diff)
  }

  function ApplyAll(b: Bucket, ms: seq<Move>): Bucket
    decreases ms
  {
    if ms == [] then b else ApplyAll(Apply(b, ms[0]), ms[1..])
  }

  /** Charges take (an uncapped move never adds), and time does not run backwards. */
  ghost predicate Plausible(since: real, ms: seq<Move>)
    decreases ms
  {
    ms == [] || (since <= ms[0].at && (!ms[0].capped ==> ms[0].diff <= 0.0) && Plausible(ms[0].at, ms[1..]))
  }

  function LevelAt(b: Bucket, now: real): real {
    Filled(b, now).tokens
  }

  lemma FillTwice(b: Bucket, t0: real, t1: real)
    requires b.Valid() && b.lastUpdate <= t0 <= t1
    ensures Filled(Filled(b, t0), t1) == Filled(b, t1)
  {
    Earns(b.rate, t0, t1);
  }

  /** Two buckets of one limiter whose levels, brought to the same time, differ by something in [0, c]. */
  ghost predicate Gap(behind: Bucket, ahead: Bucket, c: real) {
    && behind.Valid() && ahead.Valid()
    && behind.rate == ahead.rate && behind.burst == ahead.burst
    && ahead.lastUpdate <= behind.lastUpdate
    && 0.0 <= LevelAt(ahead, behind.lastUpdate) - behind.tokens <= c
  }

  lemma GapAt(behind: Bucket, ahead: Bucket, c: real, now: real)
    requires Gap(behind, ahead, c) && behind.lastUpdate <= now
    ensures 0.0 <= LevelAt(ahead, now) - LevelAt(behind, now) <= c
  {
    FillTwice(ahead, behind.lastUpdate, now);
  }

  lemma GapAfterMove(behind: Bucket, ahead: Bucket, c: real, m: Move)
    requires Gap(behind, ahead, c) && behind.lastUpdate <= m.at && (!m.capped ==> m.diff <= 0.0)
    ensures Gap(Apply(behind, m), Apply(ahead, m), c) && Apply(behind, m).lastUpdate == m.at
  {
    GapAt(behind, ahead, c, m.at);
    GapSettled(behind, ahead, c, m.at, m.diff, m.capped, Filled(behind, m.at).tokens, Filled(ahead, m.at).tokens);
  }

  /** Both levels, at the same time, are moved by the same. */
  lemma GapSettled(behind: Bucket, ahead: Bucket, c: real, at: real, diff: real, capped: bool, low: real, high: real)
    requires behind.Valid() && ahead.Valid() && behind.rate == ahead.rate && behind.burst == ahead.burst
    requires 0.0 <= high - low <= c && high <= ahead.burst && (!capped ==> diff <= 0.0)
    ensures var x := behind.(tokens := if capped then MinReal(behind.burst, low + diff) else low + diff, lastUpdate := at);
            var y := ahead.(tokens := if capped then MinReal(ahead.burst, high + diff) else high + diff, lastUpdate := at);
            Gap(x, y, c)
  {
    var y := ahead.(tokens := if capped then MinReal(ahead.burst, high + diff) else high + diff, lastUpdate := at);
    FilledNow(y, at);
    hide Filled;
  }

  lemma FilledNow(b: Bucket, now: real)
    requires b.Valid() && now == b.lastUpdate
    ensures Filled(b, now) == b
  {
    hide Refill;
    NothingRefilled(b.rate, now, now);
  }

  lemma NothingRefilled(rate: real, from: real, to: real)
    requires from == to
    ensures Refill(rate, from, to) == 0.0
  {
    NoTime(to - from, rate);
  }

  lemma NoTime(elapsed: real, rate: real)
    requires elapsed == 0.0
    ensures elapsed * rate == 0.0
  {
  }

  lemma {:induction false} GapThroughTraffic(behind: Bucket, ahead: Bucket, c: real, ms: seq<Move>)
    requires Gap(behind, ahead, c) && Plausible(behind.lastUpdate, ms)
    ensures Gap(ApplyAll(behind, ms), ApplyAll(ahead, ms), c)
    decreases ms
  {
    hide Gap, Apply;
    if ms != [] {
      GapAfterMove(behind, ahead, c, ms[0]);
      GapThroughTraffic(Apply(behind, ms[0]), Apply(ahead, ms[0]), c, ms[1..]);
    }
  }

  /**
   Cancelling never loses quota. Compare a run in which a reservation of cost c is made at t0 and cancelled at t1,
   with the traffic ms in between, with the same run without that reservation. While the reservation stands the level
   is behind by at most c; after the cancellation it is ahead, by at most c and never above the burst, and if nothing
   came in between the two are the same.
   */
  lemma CancelNeverLosesQuota(b: Bucket, t0: real, c: real, ms: seq<Move>, t1: real)
    requires b.Valid() && c >= 0.0 && b.lastUpdate <= t0 && Plausible(t0, ms)
    requires t0 <= t1 && forall m <- ms :: m.at <= t1
    ensures var with := ApplyAll(Charged(b, t0, c), ms);
            var without := ApplyAll(b, ms);
            && 0.0 <= LevelAt(without, t1) - LevelAt(with, t1) <= c
            && var after := Adjusted(with, t1, c);
               && 0.0 <= after.tokens - LevelAt(without, t1) <= c
               && after.tokens <= b.burst
               && (ms == [] ==> after == Filled(without, t1))
  {
    var charged := Charged(b, t0, c);
    ChargedBehind(b, t0, c);
    if ms == [] {
      NothingBetween(b, t0, c, t1);
    }
    hide ApplyAll, Gap, Plausible, Bucket.Valid, Charged, Adjusted, LevelAt;
    GapThroughTraffic(charged, b, c, ms);
    LastUpdateBy(charged, ms, t1);
    SameShape(charged, ms);
    AfterCancel(ApplyAll(charged, ms), ApplyAll(b, ms), c, t1);
  }

  lemma ChargedBehind(b: Bucket, t0: real, c: real)
    requires b.Valid() && c >= 0.0 && b.lastUpdate <= t0
    ensures var charged := Charged(b, t0, c);
            Gap(charged, b, c) && charged.lastUpdate == t0 && charged.rate == b.rate && charged.burst == b.burst
  {
    FillTwice(b, t0, t0);
  }

  lemma AfterCancel(behind: Bucket, ahead: Bucket, c: real, t1: real)
    requires Gap(behind, ahead, c) && behind.lastUpdate <= t1 && c >= 0.0
    ensures 0.0 <= LevelAt(ahead, t1) - LevelAt(behind, t1) <= c
    ensures var after := Adjusted(behind, t1, c);
            0.0 <= after.tokens - LevelAt(ahead, t1) <= c && after.tokens <= behind.burst
  {
    GapAt(behind, ahead, c, t1);
  }

  lemma NothingBetween(b: Bucket, t0: real, c: real, t1: real)
    requires b.Valid() && c >= 0.0 && b.lastUpdate <= t0 <= t1
    ensures Adjusted(Charged(b, t0, c), t1, c) == Filled(b, t1)
  {
    FillTwice(b, t0, t1);
  }

  lemma {:induction false} LastUpdateBy(b: Bucket, ms: seq<Move>, t: real)
    requires b.lastUpdate <= t && forall m <- ms :: m.at <= t
    ensures ApplyAll(b, ms).lastUpdate <= t
    decreases ms
  {
    if ms != [] {
      LastUpdateBy(Apply(b, ms[0]), ms[1..], t);
    }
  }

  lemma {:induction false} SameShape(b: Bucket, ms: seq<Move>)
    ensures ApplyAll(b, ms).rate == b.rate && ApplyAll(b, ms).burst == b.burst
    decreases ms
  {
    if ms != [] {
      SameShape(Apply(b, ms[0]), ms[1..]);
    }
  }
}
