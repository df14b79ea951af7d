/** Instants and durations, both in nanoseconds, as Go's time package counts them. */
module Clock {
  type Time = int
  type Duration = int

  const SECOND: Duration := 1_000_000_000

  /** `Time.Unix`: the whole seconds since the epoch, rounded down. */
  function Unix(t: Time): (s: int)
    ensures s * SECOND <= t < (s + 1) * SECOND
  {
    t / SECOND
  }

  /** `int64(d.Seconds())`: truncation toward zero. */
  function Seconds(d: Duration): (s: int)
    ensures 0 <= d ==> s * SECOND <= d < (s + 1) * SECOND
    ensures d < 0 ==> (s - 1) * SECOND < d <= s * SECOND
  {
    if d >= 0 then d / SECOND else -((-d) / SECOND)
  }
}
