/** Go's `time` package as far as the rows use it: instants and saturating differences. */
module Clock {
  /** Nanoseconds since the zero time, 1 January of year 1 UTC. */
  type Time = int

  const ZERO_TIME: Time := 0

  const SECOND := 1_000_000_000
  const MINUTE := 60 * SECOND
  const HOUR := 60 * MINUTE

  const MAX_DURATION := 0x7fff_ffff_ffff_ffff
  const MIN_DURATION := -0x8000_0000_0000_0000

  /** `t.Sub(u)`: a 64-bit number of nanoseconds, about 292 years, that saturates. */
  function Sub(t: Time, u: Time): (d: int)
    ensures MIN_DURATION <= d <= MAX_DURATION
  {
    var d := t - u;
    if d < MIN_DURATION then MIN_DURATION else if d > MAX_DURATION then MAX_DURATION else d
  }

  /** Negation of a 64-bit duration: the least one is its own negation. */
  function Negate(d: int): int {
    if d == MIN_DURATION then MIN_DURATION else -d
  }
}
