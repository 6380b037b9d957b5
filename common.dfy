/*
 * Shared vocabulary of the irrigation/fertiliser controller: optional values,
 * the 32-bit millisecond clock of the microcontroller and wall-clock time.
 */
module Common {

  datatype Option<T> = None | Some(value: T)

  /** `millis()` returns an `unsigned long`, which is 32 bits wide on the ESP32. */
  const MillisModulus: int := 0x1_0000_0000

  type Millis = t: int | 0 <= t < MillisModulus

  /**
   * `now - since` on two `unsigned long` values: the subtraction wraps around
   * modulo 2^32, so an interval measured across the 49.7-day roll-over of
   * `millis()` still comes out as the true distance.
   */
  function Elapsed(now: Millis, since: Millis): (d: Millis)
    ensures d == now - since || d == now - since + MillisModulus
  {
    if since <= now then now - since else now - since + MillisModulus
  }

  /** The elapsed time is the difference of the two readings modulo 2^32. */
  lemma ElapsedIsModular(now: Millis, since: Millis)
    ensures Elapsed(now, since) == (now - since) % MillisModulus
  {
  }

  type Hour = h: int | 0 <= h < 24
  type Minute = m: int | 0 <= m < 60

  /** Local wall-clock time as `getLocalTime` reports it once NTP has synchronised. */
  datatype Clock = Clock(hour: Hour, minute: Minute)

  predicate IsMinuteStart(clock: Clock, hour: Hour) {
    clock.hour == hour && clock.minute == 0
  }
}
