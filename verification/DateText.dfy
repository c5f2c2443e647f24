// The date part of an ISO timestamp as text: writing and reading its fields, and
// comparing such strings by code units.
module DateText {
  import opened Prelude

  // ---- Zero-padded numbers and the comparison of strings by code units ----

  function Digit(n: int): char
    requires 0 <= n <= 9
  {
    '0' + (n as char)
  }

  predicate IsDigit(c: char) { '0' <= c <= '9' }

  function Power10(width: nat): int { if width == 0 then 1 else 10 * Power10(width - 1) }

  function Pad(n: nat, width: nat): (s: string)
    ensures |s| == width
    ensures forall i :: 0 <= i < width ==> IsDigit(s[i])
  {
    if width == 0 then "" else Pad(n / 10, width - 1) + [Digit(n % 10)]
  }

  function NumberOf(s: string): nat
    requires forall i :: 0 <= i < |s| ==> IsDigit(s[i])
  {
    if s == "" then 0
    else
      assert IsDigit(s[|s| - 1]);
      10 * NumberOf(s[..|s| - 1]) + (s[|s| - 1] as int - '0' as int)
  }

  lemma {:induction false} PadHasItsNumber(n: nat, width: nat)
    requires n < Power10(width)
    ensures NumberOf(Pad(n, width)) == n
  {
    if width > 0 {
      PadHasItsNumber(n / 10, width - 1);
      var s := Pad(n, width);
      assert s[..|s| - 1] == Pad(n / 10, width - 1) && s[|s| - 1] == Digit(n % 10);
    }
  }

  predicate Less(a: string, b: string) {
    if b == "" then false
    else if a == "" then true
    else a[0] < b[0] || (a[0] == b[0] && Less(a[1..], b[1..]))
  }

  lemma {:induction false} LessByParts(a: string, b: string, u: string, v: string)
    requires |a| == |b|
    ensures Less(a + u, b + v) <==> Less(a, b) || (a == b && Less(u, v))
  {
    if a == "" {
      assert a + u == u && b + v == v;
    } else {
      LessByParts(a[1..], b[1..], u, v);
      assert (a + u)[1..] == a[1..] + u && (b + v)[1..] == b[1..] + v;
      assert a == b <==> a[0] == b[0] && a[1..] == b[1..];
    }
  }

  lemma {:induction false} PadOrder(n: nat, m: nat, width: nat)
    requires n < Power10(width) && m < Power10(width)
    ensures Less(Pad(n, width), Pad(m, width)) <==> n < m
    ensures Pad(n, width) == Pad(m, width) <==> n == m
  {
    PadHasItsNumber(n, width);
    PadHasItsNumber(m, width);
    if width > 0 {
      PadOrder(n / 10, m / 10, width - 1);
      LessByParts(Pad(n / 10, width - 1), Pad(m / 10, width - 1), [Digit(n % 10)], [Digit(m % 10)]);
    }
  }

  lemma Powers()
    ensures Power10(2) == 100 && Power10(4) == 10_000 && Power10(6) == 1_000_000
  {
    assert Power10(1) == 10 && Power10(3) == 1000 && Power10(5) == 100_000;
  }

  // ---- The first ten characters of an ISO timestamp ----

  // Months count from 0, as in a Date.
  datatype Fields = Fields(year: int, month: int, date: int)

  predicate IsFourDigit(y: int) { 0 <= y <= 9999 }

  predicate Writable(f: Fields) { -999_999 <= f.year <= 999_999 && 0 <= f.month < 12 && 1 <= f.date <= 31 }

  // toISOString().slice(0, 10): years outside 0000-9999 are written with a sign and six
  // digits, which cuts the day of the month off.
  function Write(f: Fields): (s: string)
    requires Writable(f)
    ensures |s| == 10
  {
    if IsFourDigit(f.year) then Pad(f.year, 4) + "-" + Pad(f.month + 1, 2) + "-" + Pad(f.date, 2)
    else (if f.year < 0 then "-" + Pad(-f.year, 6) else "+" + Pad(f.year, 6)) + "-" + Pad(f.month + 1, 2)
  }

  predicate DigitsAt(s: string, lo: nat, hi: nat)
    requires lo <= hi <= |s|
  {
    forall i :: lo <= i < hi ==> IsDigit(s[i])
  }

  predicate IsFullDate(s: string) {
    |s| == 10 && s[4] == '-' && s[7] == '-' && DigitsAt(s, 0, 4) && DigitsAt(s, 5, 7) && DigitsAt(s, 8, 10)
  }

  predicate IsExpandedMonth(s: string) {
    |s| == 10 && s[0] in "+-" && s[7] == '-' && DigitsAt(s, 1, 7) && DigitsAt(s, 8, 10)
  }

  // What s names in front of a time: a full date YYYY-MM-DD, or a month of an expanded
  // year, which stands for the first of that month.
  function Read(s: string): Option<Fields> {
    if IsFullDate(s) then Some(Fields(NumberOf(s[..4]), NumberOf(s[5..7]) - 1, NumberOf(s[8..])))
    else if IsExpandedMonth(s) then
      var y: int, m := NumberOf(s[1..7]), NumberOf(s[8..]) - 1;
      if s[0] == '-' && y == 0 then None else Some(Fields(if s[0] == '-' then -y else y, m, 1))
    else None
  }

  lemma WrittenMonth(m: int)
    requires 0 <= m < 31
    ensures NumberOf(Pad(m + 1, 2)) == m + 1
  {
    Powers();
    PadHasItsNumber(m + 1, 2);
  }

  lemma FullDateIsRead(f: Fields)
    requires Writable(f) && IsFourDigit(f.year)
    ensures Read(Write(f)) == Some(f)
  {
    hide Pad, NumberOf, Power10;
    var s := Write(f);
    Powers();
    PadHasItsNumber(f.year, 4);
    WrittenMonth(f.month);
    WrittenMonth(f.date - 1);
    assert s[..4] == Pad(f.year, 4) && s[5..7] == Pad(f.month + 1, 2) && s[8..] == Pad(f.date, 2);
  }

  lemma CutDateIsRead(f: Fields)
    requires Writable(f) && !IsFourDigit(f.year)
    ensures Read(Write(f)) == Some(f.(date := 1))
  {
    hide Pad, NumberOf, Power10;
    var s := Write(f);
    var magnitude := if f.year < 0 then -f.year else f.year;
    Powers();
    PadHasItsNumber(magnitude, 6);
    WrittenMonth(f.month);
    assert s[1..7] == Pad(magnitude, 6) && s[8..] == Pad(f.month + 1, 2);
    assert s[4] == Pad(magnitude, 6)[3];
  }

  /** Fields of a four-digit year are read back; of another year the date is lost and the
      first of the month is read. */
  lemma WrittenFieldsAreRead(f: Fields)
    requires Writable(f)
    ensures Read(Write(f)) == Some(if IsFourDigit(f.year) then f else f.(date := 1))
  {
    hide Read, Write;
    if IsFourDigit(f.year) { FullDateIsRead(f); } else { CutDateIsRead(f); }
  }

  /** Written text tells year and month apart, and within a four-digit year the date. */
  lemma SameTextSameFields(f: Fields, g: Fields)
    requires Writable(f) && Writable(g)
    ensures Write(f) == Write(g) <==> f.year == g.year && f.month == g.month && (IsFourDigit(f.year) ==> f.date == g.date)
  {
    WrittenFieldsAreRead(f);
    WrittenFieldsAreRead(g);
    hide Read, Pad;
  }

  predicate Before(f: Fields, g: Fields) {
    || f.year < g.year
    || (f.year == g.year && (f.month < g.month || (f.month == g.month && f.date < g.date)))
  }

  // Two parts with a dash between them compare part by part.
  lemma LessAcrossDash(a: string, b: string, u: string, v: string)
    requires |a| == |b|
    ensures Less(a + ("-" + u), b + ("-" + v)) <==> Less(a, b) || (a == b && Less(u, v))
  {
    LessByParts("-", "-", u, v);
    LessByParts(a, b, "-" + u, "-" + v);
    assert !Less("-", "-");
  }

  lemma WrittenInParts(f: Fields)
    requires Writable(f) && IsFourDigit(f.year)
    ensures Write(f) == Pad(f.year, 4) + ("-" + (Pad(f.month + 1, 2) + ("-" + Pad(f.date, 2))))
  {
    hide Pad;
  }

  /** Full dates compare as strings exactly as their fields do. */
  lemma StringOrderIsFieldOrder(f: Fields, g: Fields)
    requires Writable(f) && Writable(g) && IsFourDigit(f.year) && IsFourDigit(g.year)
    ensures Less(Write(f), Write(g)) <==> Before(f, g)
  {
    Powers();
    PadOrder(f.year, g.year, 4);
    PadOrder(f.month + 1, g.month + 1, 2);
    PadOrder(f.date, g.date, 2);
    hide Less, Pad, Write, Power10;
    var fm, fd, gm, gd := Pad(f.month + 1, 2), Pad(f.date, 2), Pad(g.month + 1, 2), Pad(g.date, 2);
    LessAcrossDash(fm, gm, fd, gd);
    LessAcrossDash(Pad(f.year, 4), Pad(g.year, 4), fm + ("-" + fd), gm + ("-" + gd));
    WrittenInParts(f);
    WrittenInParts(g);
    assert |fm + ("-" + fd)| == |gm + ("-" + gd)|;
    assert fm + ("-" + fd) == gm + ("-" + gd) <==> fm == gm && fd == gd by {
      assert (fm + ("-" + fd))[..2] == fm && (gm + ("-" + gd))[..2] == gm;
      assert (fm + ("-" + fd))[3..] == fd && (gm + ("-" + gd))[3..] == gd;
    }
  }
}
