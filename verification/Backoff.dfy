/** The reconnect back-off counter of `backoff.rs`. */
module Backoff {
  import opened Sequences

  const U32_MAX: nat := 0xFFFF_FFFF
  const MAX_DELAY_SECS: nat := 30

  function Pow2(n: nat): (p: nat)
    ensures p >= 1
  {
    if n == 0 then 1 else 2 * Pow2(n - 1)
  }

  // Seconds waited when the counter stands at `attempts`: the shift is clamped at 5, its value at 30.
  function DelaySecs(attempts: nat): nat {
    if attempts <= 1 then 1 else Min(Pow2(Min(attempts - 1, 5)), MAX_DELAY_SECS)
  }

  // The saturating increment of the u32 counter.
  function Bump(attempts: nat): nat {
    if attempts < U32_MAX then attempts + 1 else attempts
  }

  // Seconds waited over `losses` consecutive losses that follow a reset.
  function TotalWait(losses: nat): nat {
    if losses == 0 then 0 else TotalWait(losses - 1) + DelaySecs(Min(losses - 1, U32_MAX))
  }

  lemma {:induction false} Pow2Monotone(a: nat, b: nat)
    requires a <= b
    ensures Pow2(a) <= Pow2(b)
    decreases b
  {
    if a < b {
      Pow2Monotone(a, b - 1);
    }
  }

  // The clamped shift is the unclamped power of two capped at thirty, for every attempt count.
  lemma DelayIsCappedPower(n: nat)
    ensures DelaySecs(n) == if n == 0 then 1 else Min(Pow2(n - 1), 30)
  {
    assert Pow2(5) == 32;
    if n > 6 {
      Pow2Monotone(5, n - 1);
    }
  }

  lemma {:induction false} DelayMonotone(a: nat, b: nat)
    requires a <= b
    ensures DelaySecs(a) <= DelaySecs(b)
  {
    if a > 1 {
      Pow2Monotone(Min(a - 1, 5), Min(b - 1, 5));
    }
  }

  // Saturation never shows in a delay: a counter stuck at its maximum still waits thirty seconds.
  lemma SaturationInvisible(losses: nat)
    ensures DelaySecs(Min(losses, U32_MAX)) == DelaySecs(losses)
  {
  }

  // Total wait in closed form: doubling up to the sixth loss, thirty seconds for each one after it.
  lemma {:induction false} TotalWaitClosedForm(k: nat)
    ensures 1 <= k <= 6 ==> TotalWait(k) == Pow2(k - 1)
    ensures k >= 6 ==> TotalWait(k) == 32 + 30 * (k - 6)
  {
    assert Pow2(5) == 32;
    if k > 0 {
      TotalWaitClosedForm(k - 1);
      SaturationInvisible(k - 1);
      DelayIsCappedPower(k - 1);
      if 2 <= k <= 6 {
        Pow2Monotone(k - 2, 4);
        assert Pow2(4) == 16;
        assert Pow2(k - 1) == 2 * Pow2(k - 2);
      } else if k > 6 {
        Pow2Monotone(5, k - 2);
      }
    }
  }

  class BackoffCounter {
    var attempts: nat

    // How many losses were counted since the last reset; the u32 counter saturates, this does not.
    ghost var losses: nat

    ghost predicate Valid()
      reads this
    {
      attempts == Min(losses, U32_MAX)
    }

    constructor ()
      ensures Valid() && attempts == 0 && losses == 0
    {
      attempts, losses := 0, 0;
    }

    method NextDelay() returns (secs: nat)
      requires Valid()
      modifies this
      ensures Valid() && losses == old(losses) + 1
      ensures attempts == Bump(old(attempts))
      ensures secs == DelaySecs(old(losses))
      ensures TotalWait(losses) == TotalWait(old(losses)) + secs
    {
      if attempts <= 1 {
        secs := 1;
      } else {
        var exp := if attempts - 1 < 5 then attempts - 1 else 5;
        var v := 1;
        v := ShiftLeft(v, exp);
        secs := if v < MAX_DELAY_SECS then v else MAX_DELAY_SECS;
      }
      attempts := if attempts == U32_MAX then attempts else attempts + 1;
      losses := losses + 1;
    }

    method Reset()
      modifies this
      ensures Valid() && attempts == 0 && losses == 0
    {
      attempts, losses := 0, 0;
    }

    function Attempt(): nat
      reads this
    {
      attempts
    }
  }

  function ShiftLeft(v: nat, places: nat): (r: nat)
    ensures r == v * Pow2(places)
  {
    if places == 0 then v else 2 * ShiftLeft(v, places - 1)
  }
}
