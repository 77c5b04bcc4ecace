/** Fixed-width C integer types of the firmware and wrap-safe tick arithmetic.
    The millisecond tick (HAL_GetTick) is a 32-bit unsigned counter that wraps
    around; every elapsed time in the firmware is `now - last` computed in
    uint32_t, that is, modulo 2^32. */
module Ticks {

  const TWO32: int := 0x1_0000_0000

  type u8 = x: int | 0 <= x < 256
  type u16 = x: int | 0 <= x < 65536
  type u32 = x: int | 0 <= x < 0x1_0000_0000
  type i8 = x: int | -128 <= x < 128

  /** `now - since` evaluated in uint32_t arithmetic. */
  function Elapsed(now: u32, since: u32): (d: u32)
    ensures since <= now ==> d == now - since
    ensures now < since ==> d == now - since + TWO32
  {
    (now - since) % TWO32
  }

  /** The tick `d` milliseconds after `since`, wrapping past 2^32 - 1. */
  function After(since: u32, d: nat): (t: u32)
    ensures since + d < TWO32 ==> t == since + d
  {
    (since + d) % TWO32
  }

  /** Wrap-safety: the elapsed time from `since` to the tick `d` ms later is `d`,
      whether or not the counter wrapped in between. */
  lemma ElapsedAfter(since: u32, d: nat)
    requires d < TWO32
    ensures Elapsed(After(since, d), since) == d
  {
    if since + d >= TWO32 {
      assert After(since, d) == since + d - TWO32;
    }
  }

  /** An elapsed time of 0 means the same tick. */
  lemma ElapsedZero(now: u32, since: u32)
    ensures Elapsed(now, since) == 0 <==> now == since
  {
  }

  /** Integer division by a positive constant preserves order. */
  lemma DivMonotone(x: nat, y: nat, d: nat)
    requires x <= y && d > 0
    ensures x / d <= y / d
  {
    var qx, qy := x / d, y / d;
    assert qx * d <= x;
    assert y < qy * d + d;
    assert qx * d < (qy + 1) * d;
    MulStrict(qx, qy + 1, d);
  }

  lemma MulStrict(a: int, b: int, d: int)
    requires d > 0 && a * d < b * d
    ensures a < b
  {
    if a >= b {
      MulLeq(b, a, d);
    }
  }

  lemma MulLeq(a: int, b: int, d: int)
    requires d > 0 && a <= b
    ensures a * d <= b * d
  {
  }
}
