// Calendar dates as strings: the day offset of the demonstration seed, the date ranges
// and comparison of the cash shift history, and Taipei billing periods.
module CalendarDates {
  import opened Prelude
  import opened Gregorian
  import opened DateText

  const DAY := 86_400_000
  const TAIPEI_OFFSET := 8 * 60 * 60 * 1_000   // no daylight saving since 1980

  // Days on which noon is a time value: at most 8.64e15 milliseconds from the epoch.
  predicate IsTimeDay(d: int) { -100_000_000 <= d < 100_000_000 }

  predicate IsFourDigitDay(d: int) { IsFourDigit(Year(d)) }

  function FieldsOf(d: int): Fields { Fields(Year(d), Month(d), Date(d)) }

  lemma YearBounds(d: int)
    ensures 365 * (Year(d) - 1970) - 1000 <= d + (if Year(d) < 1970 then 1970 - Year(d) else 0)
    ensures d <= 366 * (Year(d) + 1 - 1970) + 1000 + (if Year(d) < 1970 then 1970 - Year(d) else 0)
  {
    DayFromYearFormula(Year(d));
    DayFromYearFormula(Year(d) + 1);
  }

  lemma FourDigitDaysAreTimeDays(d: int)
    requires IsFourDigitDay(d)
    ensures -1_000_000 < d < 5_000_000
  {
    YearBounds(d);
  }

  lemma FieldsAreWritable(d: int)
    requires IsTimeDay(d)
    ensures Writable(FieldsOf(d)) && IsCalendarDate(FieldsOf(d))
  {
    YearBounds(d);
    FieldsMakeTheDay(d, 0);
  }

  predicate IsCalendarDate(f: Fields) { 0 <= f.month < 12 && 1 <= f.date <= DaysInMonth(f.year, f.month) }

  function DayOf(f: Fields): int { MakeDay(f.year, f.month, f.date) }

  // toISOString().slice(0, 10) of a time on day d; a RangeError beyond the time values.
  function Format(d: int): Option<string> {
    if IsTimeDay(d) then FieldsAreWritable(d); Some(Write(FieldsOf(d))) else None
  }

  // The day of new Date(s + "T12:00:00.000Z"); None for an Invalid Date.
  function Parse(s: string): Option<int> {
    match Read(s)
    case Some(f) => if IsCalendarDate(f) && IsTimeDay(DayOf(f)) then Some(DayOf(f)) else None
    case None => None
  }

  // What the string of a day stands for.
  function ReadBack(d: int): int { if IsFourDigitDay(d) then d else d - (Date(d) - 1) }

  /** A written day is read back; beyond the four-digit years only as the first of its month. */
  lemma WrittenDayIsRead(d: int)
    requires IsTimeDay(d)
    ensures Parse(Format(d).value) == if IsTimeDay(ReadBack(d)) then Some(ReadBack(d)) else None
    ensures ReadBack(d) <= d
  {
    FieldsAreWritable(d);
    WrittenFieldsAreRead(FieldsOf(d));
    FieldsMakeTheDay(d, 0);
    FieldsMakeTheDay(d, 1 - Date(d));
    hide Read, Write, Date, Year, Month, MakeDay;
  }

  lemma OnlyOneDayReadsAs(d: int, e: int)
    requires IsFourDigitDay(d) && IsTimeDay(d) && IsTimeDay(e) && Format(d).value == Format(e).value
    ensures d == ReadBack(e)
  {
    WrittenDayIsRead(d);
    WrittenDayIsRead(e);
  }

  /** Calendar dates of four-digit years compare as strings exactly as they follow in time. */
  lemma StringOrderIsTimeOrder(d: int, e: int)
    requires IsFourDigitDay(d) && IsFourDigitDay(e)
    ensures IsTimeDay(d) && IsTimeDay(e) && (Less(Format(d).value, Format(e).value) <==> d < e)
    ensures Format(d) == Format(e) <==> d == e
  {
    FourDigitDaysAreTimeDays(d);
    FourDigitDaysAreTimeDays(e);
    FieldsAreWritable(d);
    FieldsAreWritable(e);
    StringOrderIsFieldOrder(FieldsOf(d), FieldsOf(e));
    FieldOrderIsDayOrder(d, e);
    if Format(d) == Format(e) { OnlyOneDayReadsAs(d, e); }
  }

  // ---- Offsetting a calendar date ----

  function Offset(s: string, n: int): Option<string> {
    match Parse(s)
    case Some(d) => Format(d + n)
    case None => None
  }

  /** setUTCDate(getUTCDate() + n) moves the day by n, across months and years. */
  method OffsetCalendarDate(s: string, n: int) returns (shifted: Option<string>)
    ensures shifted == Offset(s, n)
  {
    var date := Parse(s);
    if date.None? { return None; }
    var day := date.value;
    FieldsMakeTheDay(day, n);
    day := MakeDay(Year(day), Month(day), Date(day) + n);
    return Format(day);
  }

  lemma OffsetOfWritten(d: int, n: int)
    requires IsTimeDay(d) && IsTimeDay(ReadBack(d))
    ensures Offset(Format(d).value, n) == Format(ReadBack(d) + n)
  {
    WrittenDayIsRead(d);
  }

  lemma OffsetTwice(d: int, n: int, k: int)
    requires IsFourDigitDay(d) && IsTimeDay(d + n)
    ensures IsTimeDay(d) && Offset(Format(d).value, n).Some?
    ensures Offset(Offset(Format(d).value, n).value, k) ==
              if IsTimeDay(ReadBack(d + n)) then Format(ReadBack(d + n) + k) else None
  {
    hide Read, Write, MakeDay, Date;
    FourDigitDaysAreTimeDays(d);
    OffsetOfWritten(d, n);
    WrittenDayIsRead(d + n);
    if IsTimeDay(ReadBack(d + n)) { OffsetOfWritten(d + n, k); }
  }

  // Two days that are written alike, or both are not time values.
  predicate WrittenAlike(d: int, e: int) {
    if IsTimeDay(d) && IsTimeDay(e) then d == e || (!IsFourDigitDay(d) && Year(d) == Year(e) && Month(d) == Month(e))
    else !IsTimeDay(d) && !IsTimeDay(e)
  }

  lemma SameTextExactly(d: int, e: int)
    ensures Format(d) == Format(e) <==> WrittenAlike(d, e)
  {
    if IsTimeDay(d) && IsTimeDay(e) {
      FieldsAreWritable(d);
      FieldsAreWritable(e);
      SameTextSameFields(FieldsOf(d), FieldsOf(e));
      FieldsMakeTheDay(d, 0);
      FieldsMakeTheDay(e, 0);
      hide Date, Year, Month, MakeDay, Write;
    }
  }

  /** Offsets by a and then b, against a + b at once, for every text that is read as a day d and
      every a within the time values: they agree exactly when the day that the text in between
      stands for, moved by b, is written like d + a + b. */
  lemma OffsetsAddUpExactly(s: string, d: int, a: int, b: int)
    requires Parse(s) == Some(d) && IsTimeDay(d + a)
    ensures Offset(s, a) == Format(d + a) && Format(d + a).Some?
    ensures Offset(Offset(s, a).value, b) == Offset(s, a + b) <==>
              if IsTimeDay(ReadBack(d + a)) then WrittenAlike(ReadBack(d + a) + b, d + a + b) else !IsTimeDay(d + a + b)
  {
    hide Parse, Format, Date, Year, Month, MakeDay;
    FormatFails(d + a);
    WrittenDayIsRead(d + a);
    assert d + (a + b) == d + a + b;
    SameTextExactly(ReadBack(d + a) + b, d + a + b);
    FormatFails(d + a + b);
  }

  lemma FormatFails(d: int)
    ensures Format(d) == None <==> !IsTimeDay(d)
  {
  }

  /** In particular, up to a date of a four-digit year offsets add up exactly when the date in
      between has a four-digit year or is the first of its month. */
  lemma OffsetsAddUp(d: int, a: int, b: int)
    requires IsFourDigitDay(d) && IsTimeDay(d + a) && IsFourDigitDay(d + a + b)
    ensures IsTimeDay(d) && Offset(Format(d).value, a).Some?
    ensures Offset(Offset(Format(d).value, a).value, b) == Offset(Format(d).value, a + b) <==>
              IsFourDigitDay(d + a) || Date(d + a) == 1
  {
    hide Offset, Parse, Format, Date, Year, Month, MakeDay;
    FourDigitDaysAreTimeDays(d);
    FormatFails(d);
    WrittenDayIsRead(d);
    OffsetsAddUpExactly(Format(d).value, d, a, b);
    ReadBackIsExact(d + a);
    FourDigitDaysAreTimeDays(d + a + b);
    AlikeIsSame(ReadBack(d + a) + b, d + a + b);
  }

  // What is written like a day of a four-digit year is that day.
  lemma AlikeIsSame(d: int, e: int)
    requires IsFourDigitDay(e)
    ensures WrittenAlike(d, e) ==> d == e
    ensures d == e ==> WrittenAlike(d, e)
  {
    FourDigitDaysAreTimeDays(e);
  }

  lemma EarlierDayReadsDifferently(d: int, e: int)
    requires IsFourDigitDay(d) && IsTimeDay(d) && e < d
    ensures Format(e) != Format(d)
  {
    if Format(e) == Format(d) {
      OnlyOneDayReadsAs(d, e);
      WrittenDayIsRead(e);
    }
  }

  lemma ReadBackIsExact(d: int)
    ensures ReadBack(d) <= d
    ensures ReadBack(d) == d <==> IsFourDigitDay(d) || Date(d) == 1
  {
    FieldsMakeTheDay(d, 0);
  }

  /** Going n days and back returns to the date exactly when the date in between has a
      four-digit year or is the first of its month. */
  lemma OffsetIsUndoneExactly(d: int, n: int)
    requires IsFourDigitDay(d) && IsTimeDay(d + n)
    ensures IsTimeDay(d) && Offset(Format(d).value, n).Some?
    ensures Offset(Offset(Format(d).value, n).value, -n) == Format(d) <==>
              IsFourDigitDay(d + n) || Date(d + n) == 1
  {
    hide Offset, Write, Date, Year, MakeDay;
    OffsetTwice(d, n, -n);
    ReadBackIsExact(d + n);
    if ReadBack(d + n) - n < d { EarlierDayReadsDifferently(d, ReadBack(d + n) - n); }
  }

  // ---- Cash shift history ----

  datatype Preset = Today | Yesterday | ThisWeek | ThisMonth

  // The day the range of a preset starts on.
  predicate StartsRange(preset: Preset, today: int, start: int) {
    match preset
    case Today => start == today
    case Yesterday => start == today - 1
    case ThisWeek => WeekDay(start) == 1 && today - 6 <= start <= today
    case ThisMonth => Date(start) == 1 && Year(start) == Year(today) && Month(start) == Month(today)
  }

  // The history filter: an empty bound does not bind.
  predicate IsShown(openedOn: string, dateFrom: string, dateTo: string) {
    && (dateFrom == "" || !Less(openedOn, dateFrom))
    && (dateTo == "" || !Less(dateTo, openedOn))
  }

  function TaipeiDay(ms: int): int { (ms + TAIPEI_OFFSET) / DAY }

  /** Comparing date strings keeps exactly the shifts opened from the first to the last
      day of the range. */
  lemma HistoryFilterIsChronological(openedAt: int, start: int, end: int)
    requires IsFourDigitDay(TaipeiDay(openedAt)) && IsFourDigitDay(start) && IsFourDigitDay(end)
    ensures IsTimeDay(TaipeiDay(openedAt)) && IsTimeDay(start) && IsTimeDay(end)
    ensures IsShown(Format(TaipeiDay(openedAt)).value, Format(start).value, Format(end).value) <==>
              start * DAY - TAIPEI_OFFSET <= openedAt < (end + 1) * DAY - TAIPEI_OFFSET
  {
    StringOrderIsTimeOrder(TaipeiDay(openedAt), start);
    StringOrderIsTimeOrder(end, TaipeiDay(openedAt));
  }

  lemma RecentDaysHaveFourDigits(day: int, today: int)
    requires -31 <= day <= today && IsFourDigitDay(today)
    ensures IsFourDigitDay(day)
  {
    YearBounds(day);
    if Year(today) < Year(day) { LaterYearIsLater(today, day); }
  }

  // The day each preset's date arithmetic arrives at.
  method MoveStart(today: int, preset: Preset) returns (start: int)
    ensures StartsRange(preset, today, start) && today - 31 <= start <= today
  {
    hide Date, Year, Month, MakeDay, DaysInMonth;
    start := today;
    FieldsMakeTheDay(today, 0);
    if preset == Yesterday {
      FieldsMakeTheDay(start, -1);
      start := MakeDay(Year(start), Month(start), Date(start) - 1);
    }
    if preset == ThisWeek {
      FieldsMakeTheDay(start, -((WeekDay(start) + 6) % 7));
      start := MakeDay(Year(start), Month(start), Date(start) - ((WeekDay(start) + 6) % 7));
    }
    if preset == ThisMonth {
      DayHasItsFields(Year(start), Month(start), 1);
      FieldsMakeTheDay(start, 1 - Date(start));
      start := MakeDay(Year(start), Month(start), 1);
    }
  }

  /** Each preset writes a range that starts where its name says and ends today, or
      yesterday; and the history filter then shows exactly the shifts opened in it. */
  method ApplyHistoryPreset(now: int, preset: Preset) returns (dateFrom: string, dateTo: string, ghost start: int)
    requires 0 <= now && IsFourDigitDay(TaipeiDay(now))
    ensures StartsRange(preset, TaipeiDay(now), start) && IsFourDigitDay(start)
    ensures Format(start) == Some(dateFrom)
    ensures Format(if preset == Yesterday then TaipeiDay(now) - 1 else TaipeiDay(now)) == Some(dateTo)
    ensures var end := if preset == Yesterday then TaipeiDay(now) - 1 else TaipeiDay(now);
      forall t :: IsFourDigitDay(TaipeiDay(t)) && IsTimeDay(TaipeiDay(t)) ==>
        (IsShown(Format(TaipeiDay(t)).value, dateFrom, dateTo) <==>
          start * DAY - TAIPEI_OFFSET <= t < (end + 1) * DAY - TAIPEI_OFFSET)
  {
    hide Parse, Write, Date, Year, Month, MakeDay, IsShown;
    var today := TaipeiDay(now);
    FourDigitDaysAreTimeDays(today);
    WrittenDayIsRead(today);
    var day := Parse(Format(today).value).value;
    var from := MoveStart(day, preset);
    var end := day;
    if preset == Yesterday {
      FieldsMakeTheDay(end, -1);
      end := MakeDay(Year(end), Month(end), Date(end) - 1);
    }
    start := from;
    RecentDaysHaveFourDigits(from, today);
    RecentDaysHaveFourDigits(end, today);
    FourDigitDaysAreTimeDays(from);
    FourDigitDaysAreTimeDays(end);
    dateFrom, dateTo := Format(from).value, Format(end).value;
    forall t | IsFourDigitDay(TaipeiDay(t)) && IsTimeDay(TaipeiDay(t))
      ensures IsShown(Format(TaipeiDay(t)).value, dateFrom, dateTo) <==>
                start * DAY - TAIPEI_OFFSET <= t < (end + 1) * DAY - TAIPEI_OFFSET
    {
      HistoryFilterIsChronological(t, from, end);
    }
  }
}
