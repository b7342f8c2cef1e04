/**
 * The integer arithmetic of lwt_sleep (src/lwthread.c): converting a
 * millisecond count into a (seconds, nanoseconds) pair, and adding it onto a
 * start time with one carry from nanoseconds into seconds. Reading the clock
 * and waiting are not modelled.
 */
module Timespec {

  const MS_PER_SEC: int := 1000
  const NS_PER_MS: int := 1000000
  const NS_PER_SEC: int := 1000000000

  /** C's `unsigned int`, the type of lwt_sleep's argument. */
  newtype uint32 = x: int | 0 <= x < 0x1_0000_0000

  /** struct timespec; `time_t` and `long` are wide enough that nothing here wraps. */
  datatype Timespec = Timespec(sec: int, nsec: int)

  /** The instant or duration a timespec denotes, in nanoseconds. */
  function Nanos(t: Timespec): int
  {
    t.sec * NS_PER_SEC + t.nsec
  }

  /** A timespec whose nanosecond part lies in [0, 10^9). */
  predicate Normalized(t: Timespec)
  {
    0 <= t.nsec < NS_PER_SEC
  }

  /**
   * The relative duration lwt_sleep waits outside a green thread: it is
   * normalised and denotes exactly `ms` milliseconds. The nanosecond product
   * is computed in `unsigned int` and stays below 2^32, so it does not wrap.
   */
  function FromMillis(ms: uint32): (d: Timespec)
    ensures Normalized(d)
    ensures Nanos(d) == ms as int * NS_PER_MS
    ensures d.nsec < 0x1_0000_0000
  {
    Timespec(ms as int / MS_PER_SEC, (ms as int % MS_PER_SEC) * NS_PER_MS)
  }

  /**
   * The wake time lwt_sleep computes inside a green thread: `ms`
   * milliseconds after `start`, whatever `start` is; normalised when `start`
   * is, with the intermediate nanosecond sum below 2^31, so a 32-bit `long`
   * would not overflow either.
   */
  function WakeTime(start: Timespec, ms: uint32): (wake: Timespec)
    ensures Nanos(wake) == Nanos(start) + ms as int * NS_PER_MS
    ensures Normalized(start) ==> Normalized(wake)
    ensures Normalized(start) ==> start.nsec + (ms as int % MS_PER_SEC) * NS_PER_MS < 0x8000_0000
    ensures Normalized(start) ==>
      start.sec + ms as int / MS_PER_SEC <= wake.sec <= start.sec + ms as int / MS_PER_SEC + 1
  {
    var sec := start.sec + ms as int / MS_PER_SEC;
    var nsec := start.nsec + (ms as int % MS_PER_SEC) * NS_PER_MS;
    if nsec >= NS_PER_SEC then Timespec(sec + 1, nsec - NS_PER_SEC) else Timespec(sec, nsec)
  }
}
