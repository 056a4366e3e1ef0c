/** Small shared vocabulary: optional values and delays with a top element. */
module Basics {

  datatype Option<+T> = None | Some(value: T)

  /** A Go time.Duration as the limiters use it: InfDuration is the value no finite delay reaches. */
  datatype Delay = After(seconds: real) | Inf {

    predicate Less(that: Delay) {
      After? && (that.Inf? || seconds < that.seconds)
    }

    /** Go's max on durations, and the "if d > m { m = d }" step of the probing loops. */
    function Max(that: Delay): Delay {
      if this.Less(that) then that else this
    }
  }

  const ZERO := After(0.0)

  function MaxReal(x: real, y: real): real {
    if x < y then y else x
  }

  function MinReal(x: real, y: real): real {
    if x < y then x else y
  }

  function MaxInt(x: int, y: int): int {
    if x < y then y else x
  }

  /** The sum of f over a sequence. */
  function SumOver<T>(f: T -> int, xs: seq<T>): int {
    if xs == [] then 0 else SumOver(f, xs[..|xs| - 1]) + f(xs[|xs| - 1])
  }

  lemma {:induction false} SumUpdate<T>(f: T -> int, xs: seq<T>, i: nat, x: T)
    requires i < |xs|
    ensures SumOver(f, xs[i := x]) == SumOver(f, xs) + f(x) - f(xs[i])
  {
    var last := |xs| - 1;
    if i == last {
      assert xs[i := x][..last] == xs[..last];
    } else {
      SumUpdate(f, xs[..last], i, x);
      assert xs[i := x][..last] == xs[..last][i := x];
    }
  }

  lemma SumAppend<T>(f: T -> int, xs: seq<T>, x: T)
    ensures SumOver(f, xs + [x]) == SumOver(f, xs) + f(x)
  {
    assert (xs + [x])[..|xs|] == xs;
  }

  /** Counting what is there. */
  lemma {:induction false} SumCounts<T>(f: T -> int, xs: seq<T>)
    requires forall x <- xs :: 0 <= f(x) <= 1
    ensures SumOver(f, xs) >= 0 && (SumOver(f, xs) > 0 <==> exists x <- xs :: f(x) == 1)
  {
    if xs != [] {
      var n := |xs| - 1;
      assert xs == xs[..n] + [xs[n]];
      SumCounts(f, xs[..n]);
    }
  }

  lemma {:induction false} SumZero<T>(f: T -> int, xs: seq<T>)
    requires forall x <- xs :: f(x) == 0
    ensures SumOver(f, xs) == 0
  {
    if xs != [] {
      SumZero(f, xs[..|xs| - 1]);
    }
  }

  lemma ConsAppend<T>(x: T, xs: seq<T>, ys: seq<T>)
    ensures [x] + (xs + ys) == ([x] + xs) + ys
  {
  }

  lemma AppendAssociates<T>(xs: seq<T>, ys: seq<T>, zs: seq<T>)
    ensures (xs + ys) + zs == xs + (ys + zs)
  {
  }
}
