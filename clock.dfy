/**
 * Time arithmetic of the pipeline: the reading of the clock, its truncation
 * to midnight, and the forecast horizon in whole days.
 */
module Clock {
  import opened Series

  /** A moment, in seconds since the epoch of `Day` (local, time-zone naive). */
  type Instant = int

  const SECONDS_PER_DAY: int := 86400

  /** The calendar date of a moment (`datetime.now().date()`). */
  function Today(now: Instant): (d: Day)
    ensures d * SECONDS_PER_DAY <= now < (d + 1) * SECONDS_PER_DAY
  {
    now / SECONDS_PER_DAY
  }

  /** The first moment of a date. */
  function Midnight(d: Day): Instant {
    d * SECONDS_PER_DAY
  }

  /** A moment truncated to the preceding midnight (`Timestamp.normalize()`). */
  function Normalize(t: Instant): (m: Instant)
    ensures m <= t < m + SECONDS_PER_DAY
    ensures m == Midnight(Today(t))
  {
    Midnight(Today(t))
  }

  /** Whole days from the date of `now` to the travel date; negative when it is past. */
  function Horizon(now: Instant, travel: Day): (h: int)
    ensures Normalize(now) + h * SECONDS_PER_DAY == Normalize(Midnight(travel))
  {
    travel - Today(now)
  }

  /** Truncating a midnight changes nothing. */
  lemma NormalizeMidnight(d: Day)
    ensures Normalize(Midnight(d)) == Midnight(d)
  {
  }
}
