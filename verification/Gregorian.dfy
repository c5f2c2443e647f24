// The proleptic Gregorian calendar of section 21.4.1 of ECMA-262: day numbers counted
// from 1 January 1970, months from 0, days of the month from 1.
module Gregorian {
  predicate IsLeap(y: int) { y % 4 == 0 && (y % 100 != 0 || y % 400 == 0) }

  function DaysInYear(y: int): int { if IsLeap(y) then 366 else 365 }

  // The day number of 1 January: the lengths of the years in between, added up.
  function DayFromYear(y: int): int
    decreases if y < 1970 then 1970 - y else y - 1970
  {
    if y == 1970 then 0
    else if y > 1970 then DayFromYear(y - 1) + DaysInYear(y - 1)
    else DayFromYear(y + 1) - DaysInYear(y)
  }

  // Days of the year before month m.
  function MonthStart(leap: bool, m: int): int
    requires 0 <= m <= 12
  {
    var march := if leap then 60 else 59;
    if m == 0 then 0 else if m == 1 then 31
    else if m == 2 then march else if m == 3 then march + 31 else if m == 4 then march + 61
    else if m == 5 then march + 92 else if m == 6 then march + 122 else if m == 7 then march + 153
    else if m == 8 then march + 184 else if m == 9 then march + 214 else if m == 10 then march + 245
    else if m == 11 then march + 275 else march + 306
  }

  function DaysInMonth(y: int, m: int): int
    requires 0 <= m < 12
  {
    MonthStart(IsLeap(y), m + 1) - MonthStart(IsLeap(y), m)
  }

  lemma YearLength(y: int)
    ensures DayFromYear(y + 1) == DayFromYear(y) + DaysInYear(y)
  {
  }

  function YearFormula(y: int): int {
    365 * (y - 1970) + (y - 1969) / 4 - (y - 1901) / 100 + (y - 1601) / 400
  }

  // A quotient grows where the divisor divides.
  lemma QuotientStep(x: int, k: int)
    requires k in {4, 100, 400}
    ensures (x + 1) / k == x / k + (if (x + 1) % k == 0 then 1 else 0)
  {
    if k == 4 { assert (x + 1) / 4 == x / 4 + (if (x + 1) % 4 == 0 then 1 else 0); }
    else if k == 100 { assert (x + 1) / 100 == x / 100 + (if (x + 1) % 100 == 0 then 1 else 0); }
    else { assert (x + 1) / 400 == x / 400 + (if (x + 1) % 400 == 0 then 1 else 0); }
  }

  lemma FormulaAddsUp(y: int)
    ensures YearFormula(y + 1) == YearFormula(y) + DaysInYear(y)
  {
    QuotientStep(y - 1969, 4);
    QuotientStep(y - 1901, 100);
    QuotientStep(y - 1601, 400);
    assert (y - 1968) % 4 == y % 4;
    assert (y - 1900) % 100 == y % 100;
    assert (y - 1600) % 400 == y % 400;
  }

  /** The closed formula of the standard counts those days. */
  lemma {:induction false} DayFromYearFormula(y: int)
    ensures DayFromYear(y) == YearFormula(y)
    decreases if y < 1970 then 1970 - y else y - 1970
  {
    if y > 1970 {
      DayFromYearFormula(y - 1);
      FormulaAddsUp(y - 1);
    } else if y < 1970 {
      DayFromYearFormula(y + 1);
      FormulaAddsUp(y);
    }
  }

  lemma {:induction false} YearsAreOrdered(y: int, z: int)
    requires y < z
    ensures DayFromYear(y + 1) <= DayFromYear(z)
    decreases z - y
  {
    if y + 1 < z {
      YearLength(y + 1);
      YearsAreOrdered(y + 1, z);
    }
  }

  // YearFromTime: the largest year that has begun by the day.
  function YearFrom(d: int, guess: int): (y: int)
    ensures DayFromYear(y) <= d < DayFromYear(y + 1)
    decreases if d < DayFromYear(guess) then DayFromYear(guess) - d else d - DayFromYear(guess),
              if d < DayFromYear(guess) then 1 else 0
  {
    YearLength(guess);
    YearLength(guess - 1);
    if d < DayFromYear(guess) then
      if DayFromYear(guess - 1) <= d then guess - 1 else YearFrom(d, guess - 1)
    else if DayFromYear(guess + 1) <= d then YearFrom(d, guess + 1)
    else guess
  }

  function Year(d: int): (y: int)
    ensures DayFromYear(y) <= d < DayFromYear(y + 1)
  {
    YearFrom(d, 1970)
  }

  lemma YearIsUnique(d: int, y: int)
    requires DayFromYear(y) <= d < DayFromYear(y + 1)
    ensures y == Year(d)
  {
    if y < Year(d) { YearsAreOrdered(y, Year(d)); }
    if Year(d) < y { YearsAreOrdered(Year(d), y); }
  }

  function DayWithinYear(d: int): int { d - DayFromYear(Year(d)) }

  function MonthWithin(leap: bool, day: int, m: int): (month: int)
    requires 0 <= m < 12 && MonthStart(leap, m) <= day < MonthStart(leap, 12)
    ensures 0 <= month < 12 && MonthStart(leap, month) <= day < MonthStart(leap, month + 1)
    decreases 12 - m
  {
    if day < MonthStart(leap, m + 1) then m else MonthWithin(leap, day, m + 1)
  }

  function Month(d: int): (m: int)
    ensures 0 <= m < 12
    ensures MonthStart(IsLeap(Year(d)), m) <= DayWithinYear(d) < MonthStart(IsLeap(Year(d)), m + 1)
  {
    YearLength(Year(d));
    MonthWithin(IsLeap(Year(d)), DayWithinYear(d), 0)
  }

  function Date(d: int): int { DayWithinYear(d) - MonthStart(IsLeap(Year(d)), Month(d)) + 1 }

  // MakeDay carries months beyond the year and days beyond the month.
  function MakeDay(year: int, month: int, date: int): int {
    var y := year + month / 12;
    DayFromYear(y) + MonthStart(IsLeap(y), month % 12) + date - 1
  }

  function WeekDay(d: int): int { (d + 4) % 7 }

  lemma MonthsAreOrdered(leap: bool, m: int, n: int)
    requires 0 <= m < n <= 12
    ensures MonthStart(leap, m + 1) <= MonthStart(leap, n)
  {
  }

  lemma MakeDayWithinYear(y: int, m: int, date: int)
    requires 0 <= m < 12
    ensures MakeDay(y, m, date) == DayFromYear(y) + MonthStart(IsLeap(y), m) + date - 1
  {
    assert m / 12 == 0 && m % 12 == m;
  }

  lemma MonthFitsYear(y: int, m: int)
    requires 0 <= m < 12
    ensures 0 <= MonthStart(IsLeap(y), m) && MonthStart(IsLeap(y), m + 1) <= DaysInYear(y)
    ensures 28 <= DaysInMonth(y, m) <= 31
  {
  }

  /** The fields of a day make that day again, and an offset of the date carries over. */
  lemma FieldsMakeTheDay(d: int, n: int)
    ensures MakeDay(Year(d), Month(d), Date(d) + n) == d + n
    ensures 1 <= Date(d) <= DaysInMonth(Year(d), Month(d)) <= 31
  {
    hide DayFromYear, MonthStart, Year, Month, IsLeap;
    MakeDayWithinYear(Year(d), Month(d), Date(d) + n);
    MonthFitsYear(Year(d), Month(d));
  }

  lemma MonthIsUnique(d: int, m: int)
    requires 0 <= m < 12 && MonthStart(IsLeap(Year(d)), m) <= DayWithinYear(d) < MonthStart(IsLeap(Year(d)), m + 1)
    ensures m == Month(d)
  {
    hide DayFromYear, MonthStart, Year, Month, IsLeap;
    if m < Month(d) { MonthsAreOrdered(IsLeap(Year(d)), m, Month(d)); }
    if Month(d) < m { MonthsAreOrdered(IsLeap(Year(d)), Month(d), m); }
  }

  /** The day made of valid fields has those fields. */
  lemma DayHasItsFields(y: int, m: int, date: int)
    requires 0 <= m < 12 && 1 <= date <= DaysInMonth(y, m)
    ensures var d := MakeDay(y, m, date); Year(d) == y && Month(d) == m && Date(d) == date
  {
    hide DayFromYear, MonthStart, Year, Month, IsLeap;
    var d := MakeDay(y, m, date);
    MakeDayWithinYear(y, m, date);
    MonthFitsYear(y, m);
    YearLength(y);
    YearIsUnique(d, y);
    MonthIsUnique(d, m);
  }

  lemma LaterMonthIsLater(d: int, e: int)
    requires Year(d) == Year(e) && Month(d) < Month(e)
    ensures d < e
  {
    MonthsAreOrdered(IsLeap(Year(d)), Month(d), Month(e));
  }

  lemma LaterYearIsLater(d: int, e: int)
    requires Year(d) < Year(e)
    ensures d < e
  {
    YearsAreOrdered(Year(d), Year(e));
  }

  predicate FieldsBefore(d: int, e: int) {
    || Year(d) < Year(e)
    || (Year(d) == Year(e) && (Month(d) < Month(e) || (Month(d) == Month(e) && Date(d) < Date(e))))
  }

  /** Days are ordered as their fields are, year first. */
  lemma FieldOrderIsDayOrder(d: int, e: int)
    ensures FieldsBefore(d, e) <==> d < e
  {
    if Year(d) < Year(e) { LaterYearIsLater(d, e); }
    else if Year(e) < Year(d) { LaterYearIsLater(e, d); }
    else if Month(d) < Month(e) { LaterMonthIsLater(d, e); }
    else if Month(e) < Month(d) { LaterMonthIsLater(e, d); }
  }
}
