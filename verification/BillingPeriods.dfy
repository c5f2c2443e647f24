// Monthly billing periods in Taipei time.
module BillingPeriods {
  import opened Gregorian
  import opened CalendarDates

  // Midnight in Taipei on 1 January 1980, the end of daylight saving there.
  const SINCE_1980 := 315_532_800_000 - TAIPEI_OFFSET

  // Both bounds are stored as midnight UTC of a first of the month; pricing takes effect
  // when that day begins in Taipei.
  datatype Period = Period(start: int, end: int, pricingEffectiveAt: int)

  function CurrentPeriod(now: int): Period {
    var year, month := Year(TaipeiDay(now)), Month(TaipeiDay(now)) + 1;
    var start := MakeDay(year, month - 1, 1) * DAY;
    Period(start, MakeDay(year, month, 1) * DAY, start - 8 * 60 * 60 * 1_000)
  }

  // The instants that belong to a period.
  predicate Covers(p: Period, t: int) { p.start - TAIPEI_OFFSET <= t < p.end - TAIPEI_OFFSET }

  // The first of the following month is one month length later, December included.
  lemma NextMonthStarts(y: int, m: int)
    requires 0 <= m < 12
    ensures MakeDay(y, m + 1, 1) == MakeDay(y, m, 1) + DaysInMonth(y, m)
  {
    MakeDayWithinYear(y, m, 1);
    if m < 11 {
      MakeDayWithinYear(y, m + 1, 1);
    } else {
      assert (m + 1) / 12 == 1 && (m + 1) % 12 == 0;
      YearLength(y);
    }
  }

  lemma PeriodDays(d: int)
    ensures MakeDay(Year(d), Month(d), 1) <= d < MakeDay(Year(d), Month(d) + 1, 1)
  {
    FieldsMakeTheDay(d, 1 - Date(d));
    FieldsMakeTheDay(d, 0);
    NextMonthStarts(Year(d), Month(d));
  }

  /** Every instant lies in its own period, from the moment its pricing takes effect. */
  lemma PeriodCoversNow(now: int)
    requires SINCE_1980 <= now
    ensures Covers(CurrentPeriod(now), now)
    ensures CurrentPeriod(now).pricingEffectiveAt <= now
  {
    PeriodDays(TaipeiDay(now));
  }

  lemma SameMonthSamePeriod(d: int, e: int)
    requires MakeDay(Year(d), Month(d), 1) <= e < MakeDay(Year(d), Month(d) + 1, 1)
    ensures Year(e) == Year(d) && Month(e) == Month(d)
  {
    hide MakeDay, Year, Month, Date;
    var first := MakeDay(Year(d), Month(d), 1);
    NextMonthStarts(Year(d), Month(d));
    MakeDayWithinYear(Year(d), Month(d), 1);
    MakeDayWithinYear(Year(d), Month(d), e - first + 1);
    DayHasItsFields(Year(d), Month(d), e - first + 1);
  }

  /** An instant covered by a period has that period: no instant lies in two. */
  lemma PeriodsDoNotOverlap(t: int, u: int)
    requires SINCE_1980 <= t && SINCE_1980 <= u && Covers(CurrentPeriod(u), t)
    ensures CurrentPeriod(t) == CurrentPeriod(u)
  {
    hide MakeDay, Year, Month;
    SameMonthSamePeriod(TaipeiDay(u), TaipeiDay(t));
  }

  lemma CarriedMonth(y: int, month: int)
    ensures MakeDay(y, month, 1) == MakeDay(y + month / 12, month % 12, 1)
  {
    hide DayFromYear, MonthStart, IsLeap;
    MakeDayWithinYear(y + month / 12, month % 12, 1);
  }

  lemma FirstOfMonthFields(y: int, month: int)
    ensures var first := MakeDay(y, month, 1);
      MakeDay(Year(first), Month(first), 1) == first
  {
    var y', m := y + month / 12, month % 12;
    CarriedMonth(y, month);
    hide Year, Month, Date, MakeDay;
    MonthFitsYear(y', m);
    DayHasItsFields(y', m, 1);
  }

  /** The next period starts where a period ends, in December as in any month. */
  lemma PeriodsFollowOnEachOther(now: int)
    requires SINCE_1980 <= now
    ensures CurrentPeriod(CurrentPeriod(now).end - TAIPEI_OFFSET).start == CurrentPeriod(now).end
    ensures now < CurrentPeriod(now).end - TAIPEI_OFFSET
  {
    hide MakeDay, Year, Month;
    var d := TaipeiDay(now);
    assert TaipeiDay(CurrentPeriod(now).end - TAIPEI_OFFSET) == MakeDay(Year(d), Month(d) + 1, 1);
    FirstOfMonthFields(Year(d), Month(d) + 1);
    PeriodDays(d);
  }
}
