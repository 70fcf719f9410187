/**
  * `getFilterDates`, shared by the dashboard and the statistics page: the
  * first and last day, as "YYYY-MM-DD", of the month the month picker
  * selects (or of the current month when it is empty), which every
  * transaction and statistics request sends.
  *
  * The host's time zone is a fixed offset in minutes, `getTimezoneOffset()`
  * (UTC minus local time), smaller than a day; daylight saving time is not
  * modelled. `FilterDates` is the function as written; `IntendedFilterDates`
  * is the window the comments and the picker promise, used by the requests.
  */
module MonthWindow {
  import opened Wrappers
  import opened Js
  import opened Calendar
  import opened Text
  import Gateway

  /** A moment to the minute: a calendar date and the minutes since its midnight. */
  datatype Instant = Instant(date: Date, minute: int)

  predicate ValidInstant(i: Instant) {
    ValidDate(i.date) && 0 <= i.minute < 1440
  }

  /** `getTimezoneOffset()`, without daylight saving time. */
  predicate ValidOffset(offset: int) {
    -1440 < offset < 1440
  }

  /** `i` moved by `delta` minutes, crossing at most one midnight. */
  function Shift(i: Instant, delta: int): (r: Instant)
    requires ValidInstant(i) && -1440 < delta < 1440
    ensures ValidInstant(r)
    ensures i.minute + delta < 0 ==> r.date == DayBefore(i.date)
    ensures 0 <= i.minute + delta < 1440 ==> r.date == i.date
    ensures i.minute + delta >= 1440 ==> r.date == NextDay(i.date)
  {
    var m := i.minute + delta;
    if m < 0 then Instant(DayBefore(i.date), m + 1440)
    else if m >= 1440 then Instant(NextDay(i.date), m - 1440)
    else Instant(i.date, m)
  }

  /** Moving forth and back by the same amount returns to the same moment. */
  lemma ShiftBack(i: Instant, delta: int)
    requires ValidInstant(i) && -1440 < delta < 1440
    ensures Shift(Shift(i, delta), -delta) == i
  {
    DayStepsCancel(i.date);
  }

  /** The wall-clock time a UTC moment shows on the host. */
  function ToLocal(utc: Instant, offset: int): (local: Instant)
    requires ValidInstant(utc) && ValidOffset(offset)
    ensures ValidInstant(local)
  {
    Shift(utc, -offset)
  }

  /** `new Date(y, m, d)`: the UTC moment of a local wall-clock time. */
  function ToUtc(local: Instant, offset: int): (utc: Instant)
    requires ValidInstant(local) && ValidOffset(offset)
    ensures ValidInstant(utc)
    ensures ToLocal(utc, offset) == local
  {
    ShiftBack(local, offset);
    Shift(local, offset)
  }

  /** A month the picker can hold: years 1 to 9999. */
  predicate PickerMonth(m: Month) {
    1 <= m.year <= 9999 && 1 <= m.month <= 12
  }

  /** A month whose days all have a four-digit ISO year. */
  predicate IsoMonth(m: Month) {
    0 <= m.year <= 9999 && 1 <= m.month <= 12
  }

  /** The picker's value, "YYYY-MM". */
  function MonthValue(m: Month): (s: string)
    requires PickerMonth(m)
    ensures |s| == 7
  {
    Pad(m.year, 4) + "-" + Pad(m.month, 2)
  }

  /** `new Date(value + '-01')` is UTC midnight of the 1st of the picked month. */
  lemma MonthValueParses(m: Month)
    requires PickerMonth(m)
    ensures ParseIsoDate(MonthValue(m) + "-01") == Some(Date(m.year, m.month, 1))
  {
    var first := Date(m.year, m.month, 1);
    assert MonthValue(m) + "-01" == IsoDate(first);
    ParseIsoDateOfIsoDate(first);
  }

  /** The month `d` falls in. */
  function MonthOf(d: Date): Month {
    Month(d.year, d.month)
  }

  function PreviousMonth(m: Month): (p: Month)
    requires IsoMonth(m) && m.year >= 1
    ensures IsoMonth(p)
  {
    if m.month > 1 then Month(m.year, m.month - 1) else Month(m.year - 1, 12)
  }

  /** The start and end strings of a month window. */
  datatype Window = Window(start: string, end: string)

  /**
    * The date `getFullYear` and `getMonth` read: the host's local date of the
    * parsed picker value, or today's local date when the picker is empty.
    */
  function ReferenceDate(selected: Option<Month>, today: Date, offset: int): (d: Date)
    requires selected.Some? ==> PickerMonth(selected.value)
    requires ValidDate(today) && IsoYear(today)
    requires ValidOffset(offset)
    ensures ValidDate(d) && IsoYear(d)
    ensures selected.None? ==> d == today
    ensures selected.Some? && offset <= 0 ==> MonthOf(d) == selected.value
    ensures selected.Some? && offset > 0 ==> MonthOf(d) == PreviousMonth(selected.value)
  {
    match selected
    case None => today
    case Some(m) =>
      MonthValueParses(m);
      var parsed := ParseIsoDate(MonthValue(m) + "-01").value;
      ToLocal(Instant(parsed, 0), offset).date
  }

  /**
    * The year `new Date(year, month, day)` builds: the constructor takes
    * years 0 to 99 as 1900 to 1999.
    */
  function FullYear(year: int): int {
    if 0 <= year <= 99 then 1900 + year else year
  }

  /**
    * The month of `new Date(date.getFullYear(), date.getMonth(), 1)` and of
    * `new Date(date.getFullYear(), date.getMonth() + 1, 0)`: the reference
    * date's month, in year 1900 + y for a year y below 100.
    */
  function BuiltMonth(d: Date): (m: Month)
    requires ValidDate(d) && IsoYear(d)
    ensures IsoMonth(m) && m.month == d.month
    ensures d.year >= 100 ==> m == MonthOf(d)
    ensures d.year < 100 ==> m.year == 1900 + d.year
  {
    Month(FullYear(d.year), d.month)
  }

  /**
    * `getFilterDates` as written: local midnight of the first and of the last
    * day of the built month, moved back by the offset and printed with
    * `toISOString().slice(0, 10)`. The offset step undoes the local-to-UTC
    * conversion exactly, so the strings are the bounds of the built month.
    */
  function FilterDates(selected: Option<Month>, today: Date, offset: int): (w: Window)
    requires selected.Some? ==> PickerMonth(selected.value)
    requires ValidDate(today) && IsoYear(today)
    requires ValidOffset(offset)
    ensures w == MonthBounds(BuiltMonth(ReferenceDate(selected, today, offset)))
  {
    var date := ReferenceDate(selected, today, offset);
    var built := BuiltMonth(date);
    var startLocal := Instant(Date(built.year, built.month, 1), 0);
    var endLocal := Instant(EndOfMonth(built), 0);
    var startOfMonth := ToUtc(startLocal, offset);
    var endOfMonth := ToUtc(endLocal, offset);
    ShiftBack(startLocal, offset);
    ShiftBack(endLocal, offset);
    var startStr := Shift(startOfMonth, -offset).date;
    var endStr := Shift(endOfMonth, -offset).date;
    Window(IsoDate(startStr), IsoDate(endStr))
  }

  /** The window of month `m`: its first and its last day. */
  function MonthBounds(m: Month): (w: Window)
    requires IsoMonth(m)
    ensures ParseIsoDate(w.start) == Some(Date(m.year, m.month, 1))
    ensures ParseIsoDate(w.end) == Some(EndOfMonth(m))
  {
    ParseIsoDateOfIsoDate(Date(m.year, m.month, 1));
    ParseIsoDateOfIsoDate(EndOfMonth(m));
    Window(IsoDate(Date(m.year, m.month, 1)), IsoDate(EndOfMonth(m)))
  }

  /** The month the picker shows: the picked one, or the current one when it is empty. */
  function ShownMonth(selected: Option<Month>, today: Date): (m: Month)
    requires selected.Some? ==> PickerMonth(selected.value)
    requires ValidDate(today) && IsoYear(today)
    ensures IsoMonth(m)
  {
    if selected.Some? then selected.value else MonthOf(today)
  }

  /**
    * The corrected window: the bounds of the month the picker shows, on every
    * host, whatever its time zone.
    */
  function IntendedFilterDates(selected: Option<Month>, today: Date): (w: Window)
    requires selected.Some? ==> PickerMonth(selected.value)
    requires ValidDate(today) && IsoYear(today)
    ensures var m := if selected.Some? then selected.value else MonthOf(today);
      ParseIsoDate(w.start) == Some(Date(m.year, m.month, 1)) && ParseIsoDate(w.end) == Some(EndOfMonth(m))
  {
    MonthBounds(ShownMonth(selected, today))
  }

  /**
    * The corrected window covers exactly the shown month: it starts on its 1st,
    * ends on its last day (the next day is the 1st of the following month),
    * and every day of the month lies between the two.
    */
  lemma IntendedWindowIsTheMonth(selected: Option<Month>, today: Date, d: Date)
    requires selected.Some? ==> PickerMonth(selected.value)
    requires ValidDate(today) && IsoYear(today)
    requires ValidDate(d) && MonthOf(d) == ShownMonth(selected, today)
    ensures var m := ShownMonth(selected, today);
      var w := IntendedFilterDates(selected, today);
      ParseIsoDate(w.start).Some? && ParseIsoDate(w.end).Some?
      && ParseIsoDate(w.start).value.day == 1
      && NextDay(ParseIsoDate(w.end).value) == FirstOfNextMonth(m)
      && Ordinal(ParseIsoDate(w.start).value) <= Ordinal(d) <= Ordinal(ParseIsoDate(w.end).value)
  {
  }

  /** With the picker empty, the window as written is the current month, in every time zone. */
  lemma CurrentMonthIsRight(today: Date, offset: int)
    requires ValidDate(today) && IsoYear(today) && today.year >= 100 && ValidOffset(offset)
    ensures FilterDates(None, today, offset) == IntendedFilterDates(None, today)
  {
  }

  /** On hosts at or east of UTC the window as written is the picked month. */
  lemma PickedMonthEastOfUtc(m: Month, today: Date, offset: int)
    requires PickerMonth(m) && m.year >= 100 && ValidDate(today) && IsoYear(today)
    requires ValidOffset(offset) && offset <= 0
    ensures FilterDates(Some(m), today, offset) == IntendedFilterDates(Some(m), today)
  {
  }

  /**
    * On hosts west of UTC the picked month's UTC midnight is still the
    * previous day locally, so the window as written is the month BEFORE the
    * picked one.
    */
  lemma PickedMonthWestOfUtc(m: Month, today: Date, offset: int)
    requires PickerMonth(m) && PreviousMonth(m).year >= 100 && ValidDate(today) && IsoYear(today)
    requires ValidOffset(offset) && offset > 0
    ensures FilterDates(Some(m), today, offset) == MonthBounds(PreviousMonth(m))
    ensures FilterDates(Some(m), today, offset) != IntendedFilterDates(Some(m), today)
  {
    var shown := MonthBounds(m);
    var got := MonthBounds(PreviousMonth(m));
    assert ParseIsoDate(got.start) != ParseIsoDate(shown.start);
  }

  /**
    * A month of a year below 100 is sent as the same month of 1900 + year:
    * "0050-03" picked at UTC gives 1 to 31 March 1950.
    */
  lemma TwoDigitYearsShift(today: Date)
    requires ValidDate(today) && IsoYear(today)
    ensures var w := FilterDates(Some(Month(50, 3)), today, 0);
      ParseIsoDate(w.start) == Some(Date(1950, 3, 1)) && ParseIsoDate(w.end) == Some(Date(1950, 3, 31))
    ensures FilterDates(Some(Month(50, 3)), today, 0) != IntendedFilterDates(Some(Month(50, 3)), today)
  {
    var w := FilterDates(Some(Month(50, 3)), today, 0);
    assert BuiltMonth(ReferenceDate(Some(Month(50, 3)), today, 0)) == Month(1950, 3);
    assert ParseIsoDate(IntendedFilterDates(Some(Month(50, 3)), today).start) == Some(Date(50, 3, 1));
  }

  /**
    * March 2024 picked on a host five hours behind UTC (offset 300): the
    * window sent is 1 to 29 February 2024 instead of 1 to 31 March.
    */
  lemma MarchBecomesFebruary(today: Date)
    requires ValidDate(today) && IsoYear(today)
    ensures FilterDates(Some(Month(2024, 3)), today, 300)
      == Window(IsoDate(Date(2024, 2, 1)), IsoDate(Date(2024, 2, 29)))
    ensures IntendedFilterDates(Some(Month(2024, 3)), today)
      == Window(IsoDate(Date(2024, 3, 1)), IsoDate(Date(2024, 3, 31)))
  {
    PickedMonthWestOfUtc(Month(2024, 3), today, 300);
    assert PreviousMonth(Month(2024, 3)) == Month(2024, 2);
    MonthEnds2024();
    assert ShownMonth(Some(Month(2024, 3)), today) == Month(2024, 3);
  }

  /** 2024 is a leap year: February ends on the 29th, March on the 31st. */
  lemma MonthEnds2024()
    ensures EndOfMonth(Month(2024, 2)) == Date(2024, 2, 29)
    ensures EndOfMonth(Month(2024, 3)) == Date(2024, 3, 31)
  {
    assert IsLeapYear(2024);
  }

  // The requests that carry the window.

  /** `?start=…&end=…` of the transaction list requests. */
  function ListQuery(w: Window): map<string, Value> {
    map["start" := Str(w.start), "end" := Str(w.end)]
  }

  /** `?startDate=…&endDate=…` of the category breakdown request. */
  function CategoryStatsQuery(w: Window): map<string, Value> {
    map["startDate" := Str(w.start), "endDate" := Str(w.end)]
  }

  /** `?startDate=…&mode=dashboard` of the dashboard's figures request. */
  function DashboardStatsQuery(w: Window): map<string, Value> {
    map["startDate" := Str(w.start), "mode" := Str("dashboard")]
  }

  /**
    * The corrected window reaches the gateway's upstream payloads unchanged:
    * the list request's payload carries the window's two dates, which read back
    * as the first and the last day of the shown month, and the dashboard's
    * figures request asks for the dashboard stats from the first day.
    * `Gateway.Delivers` shows that these payloads are what the webhook receives.
    */
  lemma WindowReachesUpstream(selected: Option<Month>, today: Date, userId: string, auth: Option<string>)
    requires selected.Some? ==> PickerMonth(selected.value)
    requires ValidDate(today) && IsoYear(today)
    ensures var m, w := ShownMonth(selected, today), IntendedFilterDates(selected, today);
      ParseIsoDate(w.start) == Some(Date(m.year, m.month, 1)) && ParseIsoDate(w.end) == Some(EndOfMonth(m))
    ensures var w := IntendedFilterDates(selected, today);
      var p := Gateway.BuildPayload(Gateway.Request(Gateway.ListTransactions, auth, ListQuery(w), map[]), userId);
      p.Success? && Get(p.value, "startDate") == Str(w.start) && Get(p.value, "endDate") == Str(w.end)
    ensures var w := IntendedFilterDates(selected, today);
      var p := Gateway.BuildPayload(Gateway.Request(Gateway.GetStats, auth, DashboardStatsQuery(w), map[]), userId);
      p.Success? && Get(p.value, "startDate") == Str(w.start) && Get(p.value, "action") == Str("get_dashboard_stats")
  {
    PayloadsCarry(IntendedFilterDates(selected, today), userId, auth);
  }

  /** The list and dashboard-figures payloads carry whatever window their queries hold. */
  lemma PayloadsCarry(w: Window, userId: string, auth: Option<string>)
    ensures var p := Gateway.BuildPayload(Gateway.Request(Gateway.ListTransactions, auth, ListQuery(w), map[]), userId);
      p.Success? && Get(p.value, "startDate") == Str(w.start) && Get(p.value, "endDate") == Str(w.end)
    ensures var p := Gateway.BuildPayload(Gateway.Request(Gateway.GetStats, auth, DashboardStatsQuery(w), map[]), userId);
      p.Success? && Get(p.value, "startDate") == Str(w.start) && Get(p.value, "action") == Str("get_dashboard_stats")
  {
    assert Param(DashboardStatsQuery(w), "mode") == Str("dashboard");
  }
}
