/** The firmware's `millis()` clock: a 32-bit `unsigned long` that wraps
    around after about 49.7 days. */
module Clock {

  const WRAP: int := 0x1_0000_0000

  /** C's `unsigned int` / `unsigned long` on the target: 32 bits. */
  type U32 = x: int | 0 <= x < WRAP

  /** A `millis()` value. */
  type Millis = U32

  /** `now - since` in unsigned 32-bit arithmetic: the time elapsed since
      `since`, correct across one wrap-around of the counter. */
  function Elapsed(now: Millis, since: Millis): (d: Millis)
    ensures now >= since ==> d == now - since
    ensures now < since ==> d == now + WRAP - since
    ensures (since + d) % WRAP == now
  {
    (now - since) % WRAP
  }
}
