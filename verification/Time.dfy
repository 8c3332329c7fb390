/** Wall-clock instants and Go durations, both counted in nanoseconds. */
module Time {
  const SECOND: int := 1_000_000_000
  const MAX_DURATION: int := 0x7FFF_FFFF_FFFF_FFFF
  const MIN_DURATION: int := -0x8000_0000_0000_0000

  // A Go time.Duration is a 64-bit signed count of nanoseconds.
  type Duration = d: int | MIN_DURATION <= d <= MAX_DURATION

  /** Time.Sub: the difference of two instants, saturating at the ends of the Duration range. */
  function Sub(t: int, u: int): Duration {
    if t - u < MIN_DURATION then MIN_DURATION
    else if t - u > MAX_DURATION then MAX_DURATION
    else t - u
  }

  /** The API server keeps timestamps in RFC 3339 text without a fraction, so it drops the part below a second. */
  function Truncated(t: int): int {
    t - t % SECOND
  }
}
