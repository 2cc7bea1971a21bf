/** Durations, in nanoseconds as Go's time package counts them. */
module Clock {
  const SECOND := 1_000_000_000
}
