/** The board's millisecond clock: a `uint32_t` counter that wraps, and the
  * unsigned difference `now - recorded` with which every dwell is measured. */
module Clock {

  const Modulus: int := 0x1_0000_0000

  /** A value of type `uint32_t`. */
  type U32 = x: int | 0 <= x < 0x1_0000_0000

  /** `now - rec` computed in unsigned 32-bit arithmetic: the milliseconds
    * that lead from `rec` to `now`, across at most one wrap of the counter. */
  function Elapsed(now: U32, rec: U32): (r: U32)
    ensures rec <= now ==> r == now - rec
    ensures now < rec ==> r == now + Modulus - rec
    ensures (rec + r) % Modulus == now
  {
    (now - rec) % Modulus
  }

  /** A record taken `d` milliseconds before `now` (the counter possibly having
    * wrapped in between) is exactly `d` milliseconds old. */
  lemma ElapsedAfter(rec: U32, d: U32)
    ensures Elapsed((rec + d) % Modulus, rec) == d
  {
  }
}
