/** Retrying with doubling delays: utils.Backoff, on which the end of every fetch rests. */
module Backoff {
  import opened Basics

  type I64 = x: int | -0x8000_0000_0000_0000 <= x < 0x8000_0000_0000_0000

  /** What int64 arithmetic leaves of a sum or a doubling. */
  function WrapI64(x: int): I64
    requires -0x1_0000_0000_0000_0000 <= x < 0x1_0000_0000_0000_0000
  {
    if x < -0x8000_0000_0000_0000 then x + 0x1_0000_0000_0000_0000
    else if x >= 0x8000_0000_0000_0000 then x - 0x1_0000_0000_0000_0000
    else x
  }

  datatype Outcome = Success | Retriable(error: string) | Fatal(error: string)

  /** One turn of the loop: whether the context is found cancelled, and else what the call gives. */
  datatype Turn = Turn(cancelled: bool, outcome: Outcome)

  /** Running: the script of turns ended before Backoff did. */
  datatype Result = Running | Nil | Failed(error: string)

  /** The next value of `wait`. */
  function Grow(wait: I64, maxwait: I64): I64 {
    if wait > 0 && maxwait > 0 then
      if WrapI64(wait * 2) > maxwait then maxwait else WrapI64(wait * 2)
    else wait
  }

  /** The value of `wait` after k retries; a positive one is slept. */
  function Delay(wait: I64, maxwait: I64, k: nat): I64 {
    if k == 0 then wait else Grow(Delay(wait, maxwait, k - 1), maxwait)
  }

  function Pow2(k: nat): (p: int)
    ensures p > 0
  {
    if k == 0 then 1 else 2 * Pow2(k - 1)
  }

  function Min(a: int, b: int): int {
    if a < b then a else b
  }

  function Sum(xs: seq<int>): int {
    if xs == [] then 0 else Sum(xs[..|xs| - 1]) + xs[|xs| - 1]
  }

  /** How often the int64 countdown of `tries` can go down before it reads 0. */
  function Limit(tries: I64): (n: int)
    ensures n > 0
  {
    if tries > 0 then tries else tries + TWO64
  }

  /** The k-th sleep lasts as long as `wait` says after k retries. */
  predicate Planned(sleeps: seq<int>, wait: I64, maxwait: I64) {
    forall k :: 0 <= k < |sleeps| ==> sleeps[k] == Delay(wait, maxwait, k) > 0
  }

  /** What the int64 countdown of `tries` reads after n failures. */
  function Left(tries: I64, n: nat): int {
    if tries - n < -0x8000_0000_0000_0000 then tries - n + TWO64 else tries - n
  }

  lemma LeftIsZeroAtLimit(tries: I64, n: nat)
    requires n < Limit(tries)
    ensures Left(tries, n + 1) == WrapI64(Left(tries, n) - 1)
    ensures Left(tries, n + 1) == 0 <==> n + 1 == Limit(tries)
  {
  }

  /** All calls so far ended in a retriable error, before any cancellation. */
  predicate Retried(script: seq<Turn>, calls: nat) {
    calls <= |script| && forall i :: 0 <= i < calls ==> !script[i].cancelled && script[i].outcome.Retriable?
  }

  /** One sleep for every call so far, unless the delay is not positive and so stays as it is. */
  predicate Slept(sleeps: seq<int>, calls: nat, wait: I64, maxwait: I64) {
    && |sleeps| <= calls && Planned(sleeps, wait, maxwait)
    && (|sleeps| == calls || (Delay(wait, maxwait, calls) <= 0 && Delay(wait, maxwait, |sleeps|) <= 0))
  }

  /** The backoff after a retriable error. */
  method Pause(w: I64, maxwait: I64, sleeps: seq<int>, ghost calls: nat, ghost wait: I64)
    returns (w': I64, sleeps': seq<int>)
    requires w == Delay(wait, maxwait, calls) && Slept(sleeps, calls, wait, maxwait)
    ensures w' == Delay(wait, maxwait, calls + 1) && Slept(sleeps', calls + 1, wait, maxwait)
  {
    w', sleeps' := w, sleeps;
    if w > 0 {
      PlannedExtends(sleeps, wait, maxwait);
      sleeps' := sleeps + [w];
      if maxwait > 0 {
        w' := WrapI64(w * 2);
        if w' > maxwait {
          w' := maxwait;
        }
      }
    }
  }

  /** The loop of Backoff against any script of turns. */
  method Retry(script: seq<Turn>, wait: I64, maxwait: I64, tries: I64)
    returns (result: Result, calls: nat, sleeps: seq<int>)
    ensures calls <= |script| && calls <= Limit(tries)
    // it calls on only after a retriable error, and never once cancelled
    ensures forall i :: 0 <= i < calls ==> !script[i].cancelled && (i < calls - 1 ==> script[i].outcome.Retriable?)
    // it returns nil exactly when its last call succeeded
    ensures result.Nil? <==> calls > 0 && script[calls - 1].outcome.Success?
    ensures calls > 0 && script[calls - 1].outcome.Fatal? ==> result == Failed(script[calls - 1].outcome.error)
    // it stops for no other reason than success, a fatal error, its limit or cancellation
    ensures result.Running? ==> calls == |script| < Limit(tries)
    ensures result.Failed? && (calls == 0 || script[calls - 1].outcome.Retriable?) ==>
      calls == Limit(tries) || (calls < |script| && script[calls].cancelled)
    // it plans one sleep between calls, each of the current delay
    ensures |sleeps| <= calls && |sleeps| <= Limit(tries) - 1
    ensures |sleeps| >= calls - 1 || Delay(wait, maxwait, |sleeps|) <= 0
    ensures Planned(sleeps, wait, maxwait)
  {
    result, calls, sleeps := Running, 0, [];
    var left: int, w: I64 := tries, wait;
    while calls < |script|
      invariant result.Running? && calls < Limit(tries) && left == Left(tries, calls)
      invariant Retried(script, calls)
      invariant w == Delay(wait, maxwait, calls) && Slept(sleeps, calls, wait, maxwait)
    {
      if script[calls].cancelled {
        return Failed("context cancelled"), calls, sleeps;
      }
      var outcome := script[calls].outcome;
      if outcome.Success? {
        return Nil, calls + 1, sleeps;
      }
      if outcome.Fatal? {
        return Failed(outcome.error), calls + 1, sleeps;
      }
      LeftIsZeroAtLimit(tries, calls);
      left := WrapI64(left - 1);
      if left == 0 {
        return Failed("Backoff limit reached"), calls + 1, sleeps;
      }
      w, sleeps := Pause(w, maxwait, sleeps, calls, wait);
      calls := calls + 1;
    }
  }

  lemma PlannedExtends(sleeps: seq<int>, wait: I64, maxwait: I64)
    requires Planned(sleeps, wait, maxwait) && Delay(wait, maxwait, |sleeps|) > 0
    ensures Planned(sleeps + [Delay(wait, maxwait, |sleeps|)], wait, maxwait)
  {
  }

  // ----- what the delays are

  lemma {:induction false} DelayIsCappedDoubling(wait: I64, maxwait: I64, k: nat)
    requires 0 < wait <= maxwait < 0x4000_0000_0000_0000
    ensures Delay(wait, maxwait, k) == Min(wait * Pow2(k), maxwait)
  {
    if k > 0 {
      DelayIsCappedDoubling(wait, maxwait, k - 1);
      GrowDoubles(Delay(wait, maxwait, k - 1), maxwait);
      TimesPow2(wait, k);
    }
  }

  lemma GrowDoubles(w: I64, maxwait: I64)
    requires 0 < w <= maxwait < 0x4000_0000_0000_0000
    ensures Grow(w, maxwait) == Min(2 * w, maxwait)
  {
  }

  lemma TimesPow2(wait: int, k: nat)
    requires k > 0 && wait > 0
    ensures wait * Pow2(k) == 2 * (wait * Pow2(k - 1))
    ensures wait * Pow2(k - 1) > 0
  {
    var p := Pow2(k - 1);
    assert wait * (2 * p) == 2 * (wait * p);
  }

  lemma {:induction false} Pow2Exceeds(n: nat)
    ensures Pow2(n) > n
  {
    if n > 0 {
      Pow2Exceeds(n - 1);
    }
  }

  /** The k-th delay is min(wait * 2^k, maxwait) for every k exactly if doubling maxwait fits in an int64. */
  lemma DelaysExact(wait: I64, maxwait: I64)
    requires 0 < wait <= maxwait
    ensures (forall k: nat :: Delay(wait, maxwait, k) == Min(wait * Pow2(k), maxwait))
            <==> 2 * maxwait < 0x8000_0000_0000_0000
  {
    if 2 * maxwait < 0x8000_0000_0000_0000 {
      forall k: nat ensures Delay(wait, maxwait, k) == Min(wait * Pow2(k), maxwait) {
        DelayIsCappedDoubling(wait, maxwait, k);
      }
    } else {
      CapIsReached(wait, maxwait, maxwait);
      CapIsReached(wait, maxwait, maxwait + 1);
      if Delay(wait, maxwait, maxwait) == Min(wait * Pow2(maxwait), maxwait) {
        GrowOverflows(maxwait);
        assert Delay(wait, maxwait, maxwait + 1) != Min(wait * Pow2(maxwait + 1), maxwait);
      }
    }
  }

  /** Doubling a delay of at least 2^62 turns it negative. */
  lemma GrowOverflows(maxwait: I64)
    requires 0x4000_0000_0000_0000 <= maxwait
    ensures Grow(maxwait, maxwait) < 0
  {
  }

  lemma CapIsReached(wait: I64, maxwait: I64, k: nat)
    requires 0 < wait <= maxwait <= k
    ensures Min(wait * Pow2(k), maxwait) == maxwait
  {
    Pow2Exceeds(k);
    MulMono(1, wait, Pow2(k));
  }

  lemma {:induction false} SumBound(xs: seq<int>, bound: int)
    requires forall i :: 0 <= i < |xs| ==> xs[i] <= bound
    ensures Sum(xs) <= |xs| * bound
  {
    if xs != [] {
      SumBound(xs[..|xs| - 1], bound);
      assert |xs| * bound == (|xs| - 1) * bound + bound;
    }
  }

  lemma {:induction false} DelayCapped(wait: I64, maxwait: I64, k: nat)
    requires wait <= maxwait && 0 < maxwait
    ensures Delay(wait, maxwait, k) <= maxwait
  {
    if k > 0 {
      DelayCapped(wait, maxwait, k - 1);
    }
  }

  /** The sleeps planned by at most n - 1 backoffs last at most (n - 1) * maxwait. */
  lemma SleepIsBounded(sleeps: seq<int>, wait: I64, maxwait: I64, n: nat)
    requires wait <= maxwait && 0 < maxwait && |sleeps| <= n - 1 && Planned(sleeps, wait, maxwait)
    ensures Sum(sleeps) <= (n - 1) * maxwait
  {
    forall k | 0 <= k < |sleeps| ensures sleeps[k] <= maxwait {
      DelayCapped(wait, maxwait, k);
    }
    SumBound(sleeps, maxwait);
    assert |sleeps| * maxwait <= (n - 1) * maxwait by {
      MulMono(|sleeps|, n - 1, maxwait);
    }
  }

  lemma MulMono(a: nat, b: nat, c: nat)
    requires a <= b
    ensures a * c <= b * c
  {
    assert b * c == a * c + (b - a) * c;
  }
}
