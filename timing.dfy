/** Millisecond clock arithmetic of the scheduling loop, with the 32-bit wrap-around of
    `unsigned long` and `long` on the microcontroller targets. */
module Timing {
  import opened MachineInts

  const INT32_LIMIT: int := 0x8000_0000

  /** `currentTime - animFrameStartTime` in `unsigned long` arithmetic. */
  function Elapsed(now: u32, start: u32): (e: u32)
    ensures start <= now ==> e == now - start
    ensures now < start ==> e == now + U32_LIMIT - start
    ensures (start + e) % U32_LIMIT == now
  {
    (now - start) % U32_LIMIT
  }

  /** An `unsigned long` stored into a `long`: two's complement reinterpretation. */
  function ToSigned32(v: u32): (r: int)
    ensures -INT32_LIMIT <= r < INT32_LIMIT
    ensures r % U32_LIMIT == v
  {
    if v < INT32_LIMIT then v else v - U32_LIMIT
  }

  /** `long calcTime = msDuration - elapsed`: the `uint16_t` is promoted and the subtraction
      done in `unsigned long`, then stored in a `long`. It is the time left in the frame, and
      it is negative once the frame has overrun, unless it overran by more than 2^31 ms. */
  function CalcTime(msDuration: u16, elapsed: u32): (r: int)
    ensures elapsed <= msDuration + INT32_LIMIT ==> r == msDuration - elapsed
    ensures elapsed > msDuration + INT32_LIMIT ==> r == msDuration - elapsed + U32_LIMIT
    ensures r > 0 <==> (elapsed < msDuration || elapsed > msDuration + INT32_LIMIT)
    ensures -INT32_LIMIT <= r < INT32_LIMIT
  {
    ToSigned32((msDuration - elapsed) % U32_LIMIT)
  }

  /** `msToTick`: milliseconds to scheduler ticks, rounding down. */
  function MsToTick(ms: u32, tickPeriodMs: nat): (ticks: u32)
    requires tickPeriodMs > 0
    ensures ticks * tickPeriodMs <= ms < (ticks + 1) * tickPeriodMs
  {
    ms / tickPeriodMs
  }
}
