/** The scheduler the backoff pauses and the client's requests run in
    (src/api/rate-limiter.ts), kept only as far as the governor depends on it:
    its interval, how many units of work it has admitted, and the pauses it was
    asked for. When work starts and when a pause ends is not modelled. */
module RateLimiting {

  class RateLimiter {
    /** Minimum spacing between admissions, in milliseconds. */
    const interval: nat
    /** Every `pause(duration)` call, oldest first. Each one starts its own
        resume timer; none cancels an earlier one. */
    ghost var pauses: seq<nat>
    /** Units of work handed to `execute`. */
    ghost var admitted: nat

    constructor (interval: nat)
      ensures this.interval == interval && pauses == [] && admitted == 0
    {
      this.interval := interval;
      pauses := [];
      admitted := 0;
    }

    /** `pause(duration)`: records the pause. */
    method Pause(duration: nat)
      modifies this`pauses
      ensures pauses == old(pauses) + [duration]
    {
      pauses := pauses + [duration];
    }

    /** `execute(fn)`: takes one slot of the queue for `fn`; the caller then
        runs `fn` to completion inside that slot. */
    method Admit()
      modifies this`admitted
      ensures admitted == old(admitted) + 1
    {
      admitted := admitted + 1;
    }
  }
}
