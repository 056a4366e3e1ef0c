/** The limiter of concurrent requests as an object: a semaphore, and an estimate of how long a permit takes to come free. */
module ConcurrencyLimiters {
  import opened Basics
  import opened Limiters

  const DEFAULT_DELAY := 10.0

  function Power(x: real, n: nat): real {
    if n == 0 then 1.0 else x * Power(x, n - 1)
  }

  /** The estimate after n waits of the same length. */
  function AfterWaits(estimate: real, waited: real, n: nat): real {
    if n == 0 then estimate else Smoothed(AfterWaits(estimate, waited, n - 1), waited)
  }

  /** The estimate forgets: of what it was off, seven parts in ten are left after each wait. */
  lemma {:induction false} EstimateForgets(estimate: real, waited: real, n: nat)
    ensures AfterWaits(estimate, waited, n) - waited == Power(0.7, n) * (estimate - waited)
  {
    if n > 0 {
      EstimateForgets(estimate, waited, n - 1);
      assert 0.7 * (Power(0.7, n - 1) * (estimate - waited)) == Power(0.7, n) * (estimate - waited);
    }
  }

  class ConcurrencyLimiter {
    const limit: nat
    var inUse: int
    var estimatedDelay: real

    ghost predicate Valid()
      reads this
    {
      WellFormed(Value())
    }

    ghost function Value(): Limiter
      reads this
    {
      Concurrency(limit, inUse, estimatedDelay)
    }

    constructor (limit: nat)
      requires limit > 0
      ensures Valid() && Value() == Concurrency(limit, 0, DEFAULT_DELAY)
    {
      this.limit, inUse, estimatedDelay := limit, 0, DEFAULT_DELAY;
    }

    method TryAcquire() returns (ok: bool)
      requires Valid()
      modifies `inUse
      ensures Valid() && ok == (old(inUse) < limit) && inUse == old(inUse) + if ok then 1 else 0
    {
      ok := inUse < limit;
      if ok {
        inUse := inUse + 1;
      }
    }

    method Release()
      requires Valid() && inUse > 0
      modifies `inUse
      ensures Valid() && inUse == old(inUse) - 1
    {
      inUse := inUse - 1;
    }

    /** Takes a permit and gives it back at once. */
    method Probe() returns (delay: Delay)
      requires Valid()
      modifies `inUse
      ensures Valid() && Value() == old(Value()) && forall now, units :: delay == Limiters.Probe(Value(), now, units)
      ensures delay == if inUse < limit then ZERO else After(estimatedDelay)
    {
      var ok := TryAcquire();
      if ok {
        Release();
        return ZERO;
      }
      delay := After(estimatedDelay);
    }

    method Reserve(ghost id: nat, ghost owner: nat, ghost now: real) returns (r: ConcurrencyReservation)
      requires Valid()
      modifies `inUse
      ensures Valid() && fresh(r) && r.limiter == this
      ensures Limiters.Reserve(old(Value()), now, 1) == Some((Value(), r.acquired))
      ensures r.Value(id, owner, now) == NewTicket(Value(), id, owner, now, 1, r.acquired)
    {
      var ok := TryAcquire();
      r := new ConcurrencyReservation(this, ok);
    }

    method RecordWaitTime(waited: real)
      requires Valid() && waited >= 0.0
      modifies `estimatedDelay
      ensures Valid() && estimatedDelay == Smoothed(old(estimatedDelay), waited)
      ensures MinReal(old(estimatedDelay), waited) <= estimatedDelay <= MaxReal(old(estimatedDelay), waited)
    {
      estimatedDelay := Smoothed(estimatedDelay, waited);
    }

    /** What other reservations of this limiter do meanwhile; `moved` is by how many permits more they now hold. */
    method OthersAct() returns (ghost moved: int)
      requires Valid()
      modifies `inUse, `estimatedDelay
      ensures Valid() && inUse == old(inUse) + moved
    {
      var steps: nat := *;
      moved := 0;
      while steps > 0
        invariant Valid() && inUse == old(inUse) + moved
      {
        var waited: real := *;
        if * {
          var ok := TryAcquire();
          moved := moved + if ok then 1 else 0;
        } else if inUse > 0 {
          Release();
          moved := moved - 1;
        }
        if waited >= 0.0 {
          RecordWaitTime(waited);
        }
        steps := steps - 1;
      }
    }
  }

  class ConcurrencyReservation {
    const limiter: ConcurrencyLimiter
    var acquired: bool
    var released: bool

    /** A permit is held from acquisition to release. */
    ghost function Value(id: nat, owner: nat, readyAt: real): Ticket
      reads this
    {
      Ticket(id, owner, 1, acquired, released, readyAt, if acquired && !released then 1 else 0)
    }

    /** What an unreleased acquisition relies on: its permit is among those in use. */
    ghost predicate Valid()
      reads this, limiter
    {
      limiter.Valid() && (acquired && !released ==> limiter.inUse > 0)
    }

    constructor (limiter: ConcurrencyLimiter, acquired: bool)
      ensures this.limiter == limiter && this.acquired == acquired && !released
    {
      this.limiter, this.acquired, released := limiter, acquired, false;
    }

    /**
     Blocks until a permit comes free, others taking and returning theirs meanwhile, or the caller gives up. What is
     held or settled already is let through at once; a success takes one permit besides what the others moved.
     */
    method Wait(waited: real) returns (ok: bool, ghost moved: int)
      requires Valid() && waited >= 0.0
      modifies this, limiter
      ensures Valid() && released == old(released) && (ok <==> acquired || released)
      ensures old(acquired || released) ==> acquired == old(acquired) && limiter.Value() == old(limiter.Value())
      ensures 0 <= old(limiter.inUse) + moved <= limiter.limit
      ensures limiter.inUse == old(limiter.inUse) + moved + if acquired && !old(acquired) then 1 else 0
    {
      moved := 0;
      if acquired || released {
        return true, 0;
      }
      var attempts: nat := *;
      ok := false;
      while attempts > 0 && !ok
        invariant Valid() && released == old(released) && !old(acquired || released) && (ok <==> acquired)
        invariant 0 <= old(limiter.inUse) + moved <= limiter.limit
        invariant limiter.inUse == old(limiter.inUse) + moved + if acquired then 1 else 0
        decreases attempts
      {
        ghost var more := limiter.OthersAct();
        moved := moved + more;
        ok := WaitOnce(waited, 0, 0, 0.0, 0.0);
        attempts := attempts - 1;
      }
    }

    /** One attempt of the blocking acquisition, after `waited`. */
    method WaitOnce(waited: real, ghost id: nat, ghost owner: nat, ghost readyAt: real, ghost now: real) returns (ok: bool)
      requires Valid() && waited >= 0.0
      modifies this, limiter
      ensures Valid() && released == old(released) && (ok <==> acquired || released)
      ensures var (l, t) := Limiters.Acquire(old(limiter.Value()), old(Value(id, owner, readyAt)), now);
              && Value(id, owner, readyAt) == t && limiter.inUse == l.inUse
              && limiter.estimatedDelay == if t == old(Value(id, owner, readyAt)) then l.estimate else Smoothed(l.estimate, waited)
    {
      if acquired || released {
        return true;
      }
      ok := limiter.TryAcquire();
      if ok {
        limiter.RecordWaitTime(waited);
        acquired := true;
      }
    }

    method Cancel(ghost id: nat, ghost owner: nat, ghost readyAt: real, ghost now: real)
      requires Valid()
      modifies this, limiter
      ensures Limiters.Settle(old(limiter.Value()), old(Value(id, owner, readyAt)), now, 0) == (limiter.Value(), Value(id, owner, readyAt))
      ensures limiter.Valid()
    {
      if acquired && !released {
        limiter.Release();
        released := true;
      }
    }
  }
}
