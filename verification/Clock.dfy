/** Times and durations, in nanoseconds. */
module Clock {
  type Time = int

  const SECOND: Time := 1_000_000_000
  const MINUTE: Time := 60 * SECOND
}
