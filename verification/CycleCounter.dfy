/**
 The freshness check of cyclic frames: 16-bit cycle counters compared modulo 65536, as
 section 4.7.2.1.2 of the Profinet 2.4 specification asks for.
 */
module CycleCounter {
  const MODULUS: nat := 0x10000
  const MAX_AHEAD: nat := 61440

  /** pf_cpm_check_cycle; `prev` is -1 before the first frame. */
  function CheckCycle(prev: int, now: nat): bool {
    1 <= (now - prev % MODULUS) % MODULUS <= MAX_AHEAD
  }

  lemma DifferenceOnly(prev: int, now: int)
    ensures (now % MODULUS - (prev % MODULUS) % MODULUS) % MODULUS == (now - prev) % MODULUS
  {
    var a, b := now / MODULUS, prev / MODULUS;
    assert now == a * MODULUS + now % MODULUS && prev == b * MODULUS + prev % MODULUS;
    Shifted(now % MODULUS - prev % MODULUS, a - b);
  }

  lemma {:induction false} Shifted(x: int, k: int)
    ensures (x + k * MODULUS) % MODULUS == x % MODULUS
    decreases if k < 0 then -k else k
  {
    if k > 0 {
      Shifted(x, k - 1);
    } else if k < 0 {
      Shifted(x, k + 1);
    }
  }

  /** As long as a frame's true counter is at most 4095 behind and at most 61440 ahead of the last
      accepted one, the check on 16 bits accepts exactly the newer frames. */
  lemma FreshIffNewer(prev: int, now: int)
    requires prev - (MODULUS - MAX_AHEAD - 1) <= now <= prev + MAX_AHEAD
    ensures CheckCycle(prev % MODULUS, now % MODULUS) <==> now > prev
  {
    DifferenceOnly(prev, now);
    if now <= prev {
      Shifted(now - prev, 1);
    }
  }

  /** The window cannot be widened at either end. */
  lemma WindowIsMaximal(prev: int)
    ensures !CheckCycle(prev % MODULUS, (prev + MAX_AHEAD + 1) % MODULUS)
    ensures CheckCycle(prev % MODULUS, (prev - (MODULUS - MAX_AHEAD)) % MODULUS)
  {
    DifferenceOnly(prev, prev + MAX_AHEAD + 1);
    DifferenceOnly(prev, prev - (MODULUS - MAX_AHEAD));
  }

  /** The initial -1 acts as 65535. */
  lemma NeverActsAsLast(now: nat)
    requires now < MODULUS
    ensures CheckCycle(-1, now) == CheckCycle(MODULUS - 1, now)
    ensures CheckCycle(-1, now) <==> now < MAX_AHEAD
  {
    DifferenceOnly(-1, now);
  }
}
