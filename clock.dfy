// Instants are integer milliseconds since the Unix epoch (UTC), as `Date.valueOf()`.
// The browser's local clock is the instant shifted by a constant offset `tz`
// (milliseconds east of UTC); daylight-saving transitions are not modelled.
module Clock {
  const MsPerSecond := 1000
  const MsPerMinute := 60 * MsPerSecond
  const MsPerHour := 60 * MsPerMinute
  const MsPerDay := 24 * MsPerHour

  /** What `new Date(text)` produces: a valid instant, or an Invalid Date (NaN). */
  datatype Instant = InvalidDate | At(ms: int)

  /** The date part of `toISOString()`, as a day number since 1970-01-01. */
  function UtcDay(t: int): (d: int)
    ensures d * MsPerDay <= t < (d + 1) * MsPerDay
  {
    t / MsPerDay
  }

  /** The instant `new Date('YYYY-MM-DD')` denotes: midnight UTC of that day. */
  function UtcMidnight(day: int): (t: int)
    ensures UtcDay(t) == day
  {
    day * MsPerDay
  }

  /** The local calendar day of an instant, as a day number. */
  function LocalDay(t: int, tz: int): int
  {
    (t + tz) / MsPerDay
  }

  /** `d.setHours(0, 0, 0, 0)`: the start of the local day containing `t`. */
  function LocalMidnight(t: int, tz: int): (m: int)
    ensures m <= t < m + MsPerDay
    ensures LocalDay(m, tz) == LocalDay(t, tz)
    ensures (m + tz) % MsPerDay == 0
  {
    t - (t + tz) % MsPerDay
  }

  /** `d.setMinutes(0, 0, 0)`: the start of the local hour containing `t`. */
  function LocalHourStart(t: int, tz: int): (h: int)
    ensures h <= t < h + MsPerHour
    ensures (h + tz) % MsPerHour == 0
  {
    t - (t + tz) % MsPerHour
  }

  /** `d.getMinutes()`. */
  function MinuteOfHour(t: int, tz: int): (m: int)
    ensures 0 <= m < 60
  {
    ((t + tz) % MsPerHour) / MsPerMinute
  }

  /** `new Date(`${date}T${time}:00`)`: a local date and minute of the day. */
  function LocalDateTime(day: int, minuteOfDay: int, tz: int): (t: int)
    ensures t + tz == day * MsPerDay + minuteOfDay * MsPerMinute
  {
    day * MsPerDay + minuteOfDay * MsPerMinute - tz
  }

  lemma DayMultiplePlus(k: int, r: int)
    requires 0 <= r < MsPerDay
    ensures (k * MsPerDay + r) % MsPerDay == r
    ensures (k * MsPerDay + r) / MsPerDay == k
  {
  }

  /**
   * For a zone at or east of UTC (and less than a day ahead of it), the local
   * midnight at or before the UTC midnight that starts `day` is the local
   * midnight that starts the same calendar day.
   */
  lemma LocalMidnightOfUtcMidnight(day: int, tz: int)
    requires 0 <= tz < MsPerDay
    ensures LocalMidnight(UtcMidnight(day), tz) + tz == day * MsPerDay
    ensures LocalDay(LocalMidnight(UtcMidnight(day), tz), tz) == day
  {
    DayMultiplePlus(day, tz);
    DayMultiplePlus(day, 0);
  }
}
