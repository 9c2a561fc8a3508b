/** Time: instants and durations are integer microseconds. */
module Clock {

  const SECOND: int := 1_000_000

  const DAY: int := 86_400_000_000

  /** Python's `int()` on a number of seconds: truncation toward zero. */
  function TruncatedSeconds(duration: int): int {
    if duration >= 0 then duration / SECOND else -((-duration) / SECOND)
  }
}
