/**
  * Gregorian calendar arithmetic that the pages get from JavaScript's `Date`:
  * month lengths with leap years, the day before and after a date (how
  * `new Date(y, m, d)` normalises an out-of-range day), the ISO date strings
  * `toISOString().slice(0, 10)` produces, and the "YYYY-MM" month-picker value.
  * Months are numbered 1 to 12 here (JavaScript's `getMonth` counts from 0).
  */
module Calendar {
  import opened Wrappers
  import opened Text

  datatype Date = Date(year: int, month: int, day: int)

  /** A calendar month, as the "YYYY-MM" month picker selects it. */
  datatype Month = Month(year: int, month: int)

  predicate IsLeapYear(y: int) {
    y % 4 == 0 && (y % 100 != 0 || y % 400 == 0)
  }

  function DaysInMonth(y: int, m: int): (n: int)
    requires 1 <= m <= 12
    ensures 28 <= n <= 31
    ensures m == 2 ==> (n == 29 <==> IsLeapYear(y))
    ensures m != 2 ==> (n == 30 <==> m in {4, 6, 9, 11})
  {
    if m == 2 then (if IsLeapYear(y) then 29 else 28)
    else if m == 4 || m == 6 || m == 9 || m == 11 then 30
    else 31
  }

  predicate ValidDate(d: Date) {
    1 <= d.month <= 12 && 1 <= d.day <= DaysInMonth(d.year, d.month)
  }

  /** The following calendar day (`new Date(y, m, d + 1)`). */
  function NextDay(d: Date): (r: Date)
    requires ValidDate(d)
    ensures ValidDate(r)
  {
    if d.day < DaysInMonth(d.year, d.month) then Date(d.year, d.month, d.day + 1)
    else if d.month < 12 then Date(d.year, d.month + 1, 1)
    else Date(d.year + 1, 1, 1)
  }

  /** The previous calendar day (`new Date(y, m, d - 1)`, day 0 being the last day of the month before). */
  function DayBefore(d: Date): (r: Date)
    requires ValidDate(d)
    ensures ValidDate(r)
  {
    if d.day > 1 then Date(d.year, d.month, d.day - 1)
    else if d.month > 1 then Date(d.year, d.month - 1, DaysInMonth(d.year, d.month - 1))
    else Date(d.year - 1, 12, 31)
  }

  /** Stepping back a day and forward again, or forward and back, returns to the same date. */
  lemma DayStepsCancel(d: Date)
    requires ValidDate(d)
    ensures NextDay(DayBefore(d)) == d
    ensures DayBefore(NextDay(d)) == d
  {
  }

  /** The first day of the month after `m`, with the year rolling over after December. */
  function FirstOfNextMonth(m: Month): (d: Date)
    requires 1 <= m.month <= 12
    ensures ValidDate(d) && d.day == 1
  {
    if m.month < 12 then Date(m.year, m.month + 1, 1) else Date(m.year + 1, 1, 1)
  }

  /**
    * `new Date(y, monthIndex + 1, 0)`: day 0 of the following month, which is
    * the last day of month `m`, leap years included.
    */
  function EndOfMonth(m: Month): (d: Date)
    requires 1 <= m.month <= 12
    ensures ValidDate(d)
    ensures d == Date(m.year, m.month, DaysInMonth(m.year, m.month))
    ensures NextDay(d) == FirstOfNextMonth(m)
  {
    DayBefore(FirstOfNextMonth(m))
  }

  /** A key that orders dates as their `Date` time values do (used by the date sorts). */
  function Ordinal(d: Date): int {
    d.year * 512 + d.month * 32 + d.day
  }

  /** On valid dates, `Ordinal` is the chronological (year, month, day) order. */
  lemma OrdinalIsChronological(a: Date, b: Date)
    requires ValidDate(a) && ValidDate(b)
    ensures Ordinal(a) < Ordinal(b) <==>
      a.year < b.year || (a.year == b.year && (a.month < b.month || (a.month == b.month && a.day < b.day)))
    ensures Ordinal(a) == Ordinal(b) <==> a == b
  {
    var ra := a.month * 32 + a.day;
    var rb := b.month * 32 + b.day;
    assert 33 <= ra < 512 && 33 <= rb < 512;
    if a.year < b.year {
      assert a.year * 512 + 512 <= b.year * 512;
    } else if a.year > b.year {
      assert b.year * 512 + 512 <= a.year * 512;
    }
  }

  /** Later days have larger keys. */
  lemma OrdinalOfNextDay(d: Date)
    requires ValidDate(d)
    ensures Ordinal(d) < Ordinal(NextDay(d))
  {
    OrdinalIsChronological(d, NextDay(d));
  }

  predicate IsoYear(d: Date) {
    0 <= d.year <= 9999
  }

  /** `toISOString().slice(0, 10)` of UTC midnight of `d`: "YYYY-MM-DD". */
  function IsoDate(d: Date): (s: string)
    requires ValidDate(d) && IsoYear(d)
    ensures |s| == 10 && s[4] == '-' && s[7] == '-'
    ensures forall i | 0 <= i < 10 && i != 4 && i != 7 :: IsDigit(s[i])
  {
    Pad(d.year, 4) + "-" + Pad(d.month, 2) + "-" + Pad(d.day, 2)
  }

  /**
    * `new Date(s)` for a date-only string "YYYY-MM-DD", read back as a calendar
    * date; a malformed string or an impossible date gives None (an Invalid Date).
    */
  function ParseIsoDate(s: string): (r: Option<Date>)
    ensures r.Some? ==> ValidDate(r.value) && IsoYear(r.value)
    ensures r.Some? ==> |s| == 10 && s[4] == '-' && s[7] == '-'
  {
    if |s| == 10 && s[4] == '-' && s[7] == '-'
       && (forall i | 0 <= i < 10 && i != 4 && i != 7 :: IsDigit(s[i]))
    then
      var d := Date(ParseDigits(s[..4]), ParseDigits(s[5..7]), ParseDigits(s[8..]));
      if ValidDate(d) then Some(d) else None
    else None
  }

  /** Reading an ISO date string gives back the date it was made from. */
  lemma ParseIsoDateOfIsoDate(d: Date)
    requires ValidDate(d) && IsoYear(d)
    ensures ParseIsoDate(IsoDate(d)) == Some(d)
  {
    var y, m, dd := Pad(d.year, 4), Pad(d.month, 2), Pad(d.day, 2);
    var s := IsoDate(d);
    assert s[..4] == y && s[5..7] == m && s[8..] == dd;
    assert forall i | 0 <= i < 10 && i != 4 && i != 7 :: IsDigit(s[i]) by {
      forall i | 0 <= i < 10 && i != 4 && i != 7 ensures IsDigit(s[i]) {
        if i < 4 { assert s[i] == y[i]; }
        else if i < 7 { assert s[i] == m[i - 5]; }
        else { assert s[i] == dd[i - 8]; }
      }
    }
    ParsePad(d.year, 4);
    ParsePad(d.month, 2);
    ParsePad(d.day, 2);
  }

  /**
    * The month picker's default value, `${year}-${String(month).padStart(2, '0')}`
    * (the year is not padded, so it has four digits only from 1000 to 9999).
    */
  function MonthInput(m: Month): (s: string)
    requires 1000 <= m.year <= 9999 && 1 <= m.month <= 12
    ensures |s| == 7
  {
    Pad(m.year, 4) + "-" + Pad(m.month, 2)
  }

  /** `new Date(input.value + '-01')` on the default value is UTC midnight of the 1st of that month. */
  lemma ParseMonthInput(m: Month)
    requires 1000 <= m.year <= 9999 && 1 <= m.month <= 12
    ensures ParseIsoDate(MonthInput(m) + "-01") == Some(Date(m.year, m.month, 1))
  {
    var d := Date(m.year, m.month, 1);
    assert MonthInput(m) + "-01" == IsoDate(d);
    ParseIsoDateOfIsoDate(d);
  }
}
