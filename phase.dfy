/**
 * The sale calendar: the day number of a millisecond timestamp and the two
 * phase boundaries, all derived from the single START_TIME constant.
 */
module PhaseClock {

  /** Sale start, in seconds (as the presale contract stores it). */
  const START_TIME: int := 1659547199
  const START_MS: int := START_TIME * 1000
  const DAY_MS: int := 24 * 3600 * 1000

  /** From this instant on the per-day public schedule replaces the per-address table. */
  const PUBLIC_SALE: int := START_MS + 3 * DAY_MS
  /** From this instant on the whole ceiling is open to everyone. */
  const PUBLIC_TIME: int := START_MS + 5 * DAY_MS

  /**
   * The sale day of millisecond timestamp `time`: day 1 is the first 24 hours
   * from START_MS, and days <= 0 lie before the sale. `/` on int is floor
   * division for a positive divisor, which is Math.floor of the quotient.
   */
  function GetDay(time: int): (day: int)
    ensures (day - 1) * DAY_MS <= time - START_MS < day * DAY_MS
  {
    (time - START_MS) / DAY_MS + 1
  }

  /** The day is the only integer whose 24-hour window holds `time`. */
  lemma DayIsUnique(time: int, d: int)
    requires (d - 1) * DAY_MS <= time - START_MS < d * DAY_MS
    ensures GetDay(time) == d
  {
  }

  lemma DayAtStart()
    ensures GetDay(START_MS) == 1
    ensures GetDay(START_MS - 1) == 0
    ensures GetDay(PUBLIC_SALE) == 4
    ensures GetDay(PUBLIC_TIME) == 6
  {
    DayIsUnique(START_MS, 1);
    DayIsUnique(START_MS - 1, 0);
    DayIsUnique(PUBLIC_SALE, 4);
    DayIsUnique(PUBLIC_TIME, 6);
  }

  lemma DayMonotone(t1: int, t2: int)
    requires t1 <= t2
    ensures GetDay(t1) <= GetDay(t2)
  {
  }

  /** The allocation phase is exactly days 1 to 3 (and the days before the sale). */
  lemma BeforePublicSaleIffEarlyDay(t: int)
    ensures t < PUBLIC_SALE <==> GetDay(t) <= 3
  {
  }

  /** Everything before the public phase is day 5 or earlier. */
  lemma BeforePublicTimeIffDayAtMostFive(t: int)
    ensures t < PUBLIC_TIME <==> GetDay(t) <= 5
  {
  }
}
