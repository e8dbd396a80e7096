// The two doubling backoffs: the pending-reference worker's and the outbox publisher's.
module Backoff {

  // The delay after a number of doublings, jumping to the ceiling once half of it is reached.
  function Ramp(delay: nat, max: nat, doublings: nat): nat
    decreases doublings
  {
    if doublings == 0 then delay
    else if delay >= max / 2 then max
    else Ramp(delay * 2, max, doublings - 1)
  }

  function Doublings(attempts: int): nat {
    if attempts < 1 then 0 else attempts - 1
  }

  function ReferenceDelay(attempts: int, base: nat, max: nat): nat {
    Ramp(base, max, Doublings(attempts))
  }

  function PublisherDelay(attempts: int, base: nat, max: nat): nat {
    var delay := Ramp(base, max, Doublings(attempts));
    if delay > max then max else delay
  }

  method ReferenceBackoff(attempts: int, base: nat, max: nat) returns (delay: nat)
    ensures delay == ReferenceDelay(attempts, base, max)
  {
    var n := if attempts < 1 then 1 else attempts;
    delay := base;
    var i := 1;
    while i < n
      invariant 1 <= i <= n
      invariant Ramp(delay, max, n - i) == Ramp(base, max, n - 1)
    {
      if delay >= max / 2 {
        return max;
      }
      delay := delay * 2;
      i := i + 1;
    }
  }

  method BackoffDuration(attempts: int, base: nat, max: nat) returns (delay: nat)
    ensures delay == PublisherDelay(attempts, base, max)
  {
    var n := if attempts < 1 then 1 else attempts;
    delay := base;
    var i := 1;
    while i < n
      invariant 1 <= i <= n
      invariant Ramp(delay, max, n - i) == Ramp(base, max, n - 1)
      invariant i < n || PublisherDelay(attempts, base, max) == if delay > max then max else delay
    {
      if delay >= max / 2 {
        return max;
      }
      delay := delay * 2;
      i := i + 1;
    }
    if delay > max {
      return max;
    }
  }

  function Pow2(n: nat): nat {
    if n == 0 then 1 else 2 * Pow2(n - 1)
  }

  // The base doubled n times; except that from the first doubling on every delay that reaches the
  // largest even number up to the ceiling is the ceiling itself.
  function DoubledUpTo(base: nat, max: nat, n: nat): nat {
    if n > 0 && base * Pow2(n) >= max - max % 2 then max else base * Pow2(n)
  }

  lemma {:induction false} RampClosedForm(base: nat, max: nat, n: nat)
    requires 0 < base
    ensures Ramp(base, max, n) == DoubledUpTo(base, max, n)
    decreases n
  {
    if n > 0 {
      OneDoubling(base, n);
      if base < max / 2 {
        RampClosedForm(base * 2, max, n - 1);
      }
    }
  }

  lemma OneDoubling(base: nat, n: nat)
    requires n > 0
    ensures base * Pow2(n) == (base * 2) * Pow2(n - 1) >= base * 2
  {
    PowAtLeastOne(n - 1);
    var x := Pow2(n - 1);
    assert base * (2 * x) == (base * 2) * x;
    assert (base * 2) * x == base * 2 + (base * 2) * (x - 1);
  }

  lemma {:induction false} PowAtLeastOne(n: nat)
    ensures Pow2(n) >= 1
  {
    if n > 0 {
      PowAtLeastOne(n - 1);
    }
  }

  // For a base up to the ceiling both backoffs agree, never shrink from one attempt to the
  // next, stay between base and ceiling, and miss the capped exponential by at most one tick.
  lemma BackoffsAgree(attempts: int, base: nat, max: nat)
    requires 0 < base <= max
    ensures ReferenceDelay(attempts, base, max) == PublisherDelay(attempts, base, max)
    ensures base <= ReferenceDelay(attempts, base, max) <= max
    ensures ReferenceDelay(attempts, base, max) <= ReferenceDelay(attempts + 1, base, max)
    ensures var exact := base * Pow2(Doublings(attempts));
            var capped := if exact > max then max else exact;
            capped <= ReferenceDelay(attempts, base, max) <= capped + max % 2
  {
    var n := Doublings(attempts);
    RampClosedForm(base, max, n);
    RampClosedForm(base, max, n + 1);
    PowDoubles(base, n);
  }

  lemma PowDoubles(base: nat, n: nat)
    ensures base * Pow2(n) >= base && base * Pow2(n + 1) == 2 * (base * Pow2(n))
  {
    PowAtLeastOne(n);
    assert base * Pow2(n) == base + base * (Pow2(n) - 1);
  }

  // The worker's copy has no final cap: with a base above the ceiling they differ exactly on
  // the first attempt.
  lemma BackoffsDiffer(attempts: int, base: nat, max: nat)
    requires base > max
    ensures ReferenceDelay(attempts, base, max) == PublisherDelay(attempts, base, max) <==> attempts > 1
  {
  }
}
