// Timestamps are integers counting milliseconds. dayjs applies the local time
// zone before it sets a field; the zones involved are whole minutes away from
// UTC, so minute and second fields can be computed on the raw count.
module Clock {

  const SecondMs: int := 1000
  const MinuteMs: int := 60000
  const DayMs: int := 86400000

  /** `dayjs(t).second(0).millisecond(0)`: the start of the minute holding `t`. */
  function TruncateToMinute(t: int): (r: int)
    ensures r % MinuteMs == 0
    ensures r <= t < r + MinuteMs
  {
    t - t % MinuteMs
  }

  /**
   * `dayjs(t).second(0)`: the seconds field becomes 0 while the minute and the
   * milliseconds of `t` are kept.
   */
  function ZeroSeconds(t: int): (r: int)
    ensures r / MinuteMs == t / MinuteMs
    ensures r % MinuteMs == t % SecondMs
  {
    t - t % MinuteMs + t % SecondMs
  }

  lemma TruncateToMinuteMonotone(a: int, b: int)
    requires a <= b
    ensures TruncateToMinute(a) <= TruncateToMinute(b)
  {
  }

  /**
   * Zeroing only the seconds is not monotone: 10.5 s past a minute compares
   * later than 11.0 s past the same minute.
   */
  lemma ZeroSecondsNotMonotone()
    ensures 10500 < 11000 && ZeroSeconds(10500) > ZeroSeconds(11000)
  {
  }

  /** Two instants in the same minute and with the same milliseconds compare equal. */
  lemma ZeroSecondsSameMinute(a: int, b: int)
    requires a / MinuteMs == b / MinuteMs && a % SecondMs == b % SecondMs
    ensures ZeroSeconds(a) == ZeroSeconds(b)
  {
  }

  /** `dayjs(now).add(-n, 'days')` with days of fixed length. */
  function DaysBefore(now: int, n: nat): (r: int)
    ensures r <= now && now - r == n * DayMs
  {
    now - n * DayMs
  }
}
