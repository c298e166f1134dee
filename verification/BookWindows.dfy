/** The month windows of scripts/book-sales/collect.py (lines 30-41) and the guard parse_report puts on them. */
module BookWindows {
  import opened Options

  datatype Month = Month(year: int, month: int)

  datatype Date = Date(year: int, month: int, day: int)

  /** One request: the month and the last day asked for. */
  datatype Window = Window(month: Month, end: Date)

  /** `PeriodInvalid` is the collector's own error; `OutOfCalendar` is Python's date arithmetic failing. */
  datatype Windows = Windows(list: seq<Window>) | PeriodInvalid | OutOfCalendar

  const FIRST_YEAR := 2020
  const MAX_YEAR := 9999
  const MAX_WINDOWS := 120

  predicate ValidMonth(m: Month) {
    1 <= m.year <= MAX_YEAR && 1 <= m.month <= 12
  }

  predicate Leap(year: int) {
    year % 4 == 0 && (year % 100 != 0 || year % 400 == 0)
  }

  function DaysIn(m: Month): int {
    if m.month == 2 then (if Leap(m.year) then 29 else 28)
    else if m.month in {4, 6, 9, 11} then 30
    else 31
  }

  predicate ValidDate(d: Date) {
    ValidMonth(MonthOf(d)) && 1 <= d.day <= DaysIn(MonthOf(d))
  }

  function MonthOf(d: Date): Month {
    Month(d.year, d.month)
  }

  /** Dates compare field by field. */
  predicate AtMost(a: Date, b: Date) {
    a.year < b.year || (a.year == b.year && (a.month < b.month || (a.month == b.month && a.day <= b.day)))
  }

  /** Months numbered through. */
  function Index(m: Month): int {
    12 * m.year + m.month - 1
  }

  function MonthAt(i: int): Month {
    Month(i / 12, i % 12 + 1)
  }

  function First(m: Month): Date {
    Date(m.year, m.month, 1)
  }

  function Last(m: Month): Date {
    Date(m.year, m.month, DaysIn(m))
  }

  function NextDay(d: Date): Date {
    if d.day < DaysIn(MonthOf(d)) then Date(d.year, d.month, d.day + 1)
    else if d.month < 12 then Date(d.year, d.month + 1, 1)
    else Date(d.year + 1, 1, 1)
  }

  // ------------------------------------------------------ the calendar itself

  /** The days of the years before this one, as in Python's date.toordinal. */
  function DaysBeforeYear(year: int): int {
    365 * (year - 1) + (year - 1) / 4 - (year - 1) / 100 + (year - 1) / 400
  }

  const DAYS_BEFORE_MONTH: seq<int> := [0, 31, 59, 90, 120, 151, 181, 212, 243, 273, 304, 334]

  /** Days numbered through from the first of January of year 1. */
  function Ordinal(d: Date): int
    requires 1 <= d.month <= 12
  {
    var leapDay := DaysBeforeYear(d.year + 1) - DaysBeforeYear(d.year) - 365;
    DaysBeforeYear(d.year) + DAYS_BEFORE_MONTH[d.month - 1] + (if d.month > 2 then leapDay else 0) + d.day
  }

  lemma YearLength(year: int)
    ensures DaysBeforeYear(year + 1) - DaysBeforeYear(year) == if Leap(year) then 366 else 365
  {
    FourthYear(year);
    HundredthYear(year);
    FourHundredthYear(year);
    assert year % 400 == 0 ==> year % 100 == 0;
    assert year % 100 == 0 ==> year % 4 == 0;
  }

  lemma FourthYear(year: int)
    ensures year / 4 - (year - 1) / 4 == if year % 4 == 0 then 1 else 0
  {
  }

  lemma HundredthYear(year: int)
    ensures year / 100 - (year - 1) / 100 == if year % 100 == 0 then 1 else 0
  {
  }

  lemma FourHundredthYear(year: int)
    ensures year / 400 - (year - 1) / 400 == if year % 400 == 0 then 1 else 0
  {
  }

  /** The next day has the next number: years and months are as long as the calendar says. */
  lemma NextDayIsNext(d: Date)
    requires ValidDate(d)
    ensures Ordinal(NextDay(d)) == Ordinal(d) + 1
  {
    YearLength(d.year);
  }

  lemma YearsAreOrdered(a: int, b: int)
    requires a < b
    ensures DaysBeforeYear(a + 1) <= DaysBeforeYear(b)
  {
  }

  /** Comparing dates is comparing their numbers. */
  lemma OrdinalsAreOrdered(a: Date, b: Date)
    requires ValidDate(a) && ValidDate(b)
    ensures AtMost(a, b) <==> Ordinal(a) <= Ordinal(b)
  {
    YearLength(a.year);
    YearLength(b.year);
    if a.year < b.year {
      YearsAreOrdered(a.year, b.year);
    } else if b.year < a.year {
      YearsAreOrdered(b.year, a.year);
    }
  }

  /** Where the numbers stand: 1 March 2000 is day 730180, and February 2024 has a 29th. */
  lemma CalendarIsAnchored()
    ensures Ordinal(Date(1, 1, 1)) == 1 && Ordinal(Date(2000, 3, 1)) == 730180
    ensures DaysIn(Month(2024, 2)) == 29 && DaysIn(Month(2023, 2)) == 28 && DaysIn(Month(2100, 2)) == 28
  {
  }

  lemma IndexRoundTrip(m: Month)
    requires 1 <= m.month <= 12
    ensures MonthAt(Index(m)) == m
  {
  }

  /** The window of the month with index `i`. */
  function WindowAt(i: int, today: Date): Window {
    Window(MonthAt(i), if AtMost(today, Last(MonthAt(i))) then today else Last(MonthAt(i)))
  }

  /** The windows of the months from `from` to the month of today. */
  function WindowsFrom(from: int, today: Date): seq<Window> {
    WindowsBetween(from, Index(MonthOf(today)) + 1, today)
  }

  function WindowsBetween(from: int, to: int, today: Date): seq<Window> {
    if to <= from then [] else seq(to - from, k requires 0 <= k => WindowAt(from + k, today))
  }

  lemma WindowsGrow(from: int, m: Month, today: Date)
    requires from <= Index(m) && ValidMonth(m)
    ensures WindowsBetween(from, Index(m) + 1, today)
         == WindowsBetween(from, Index(m), today) + [Window(m, if AtMost(today, Last(m)) then today else Last(m))]
  {
    IndexRoundTrip(m);
    var w := WindowAt(Index(m), today);
    assert WindowsBetween(from, Index(m) + 1, today) == WindowsBetween(from, Index(m), today) + [w];
  }

  /** The month two months before, if the calendar reaches that far. */
  function DefaultStart(today: Date): Option<Month> {
    var i := Index(MonthOf(today)) - 2;
    if i < 12 then None else Some(MonthAt(i))
  }

  function Start(today: Date, since: Option<Month>): Option<Month> {
    match since
    case None => DefaultStart(today)
    case Some(m) => if ValidMonth(m) then Some(m) else None
  }

  /** What month_windows answers. */
  function Expected(today: Date, since: Option<Month>): Windows {
    match Start(today, since)
    case None => OutOfCalendar
    case Some(m) =>
      if !AtMost(First(m), today) || m.year < FIRST_YEAR then PeriodInvalid
      else if MonthOf(today) == Month(MAX_YEAR, 12) then OutOfCalendar
      else if |WindowsFrom(Index(m), today)| > MAX_WINDOWS then PeriodInvalid
      else Windows(WindowsFrom(Index(m), today))
  }

  /**
   month_windows answers windows for a start month exactly if it is 2020 or later, not after
   today, at most 119 months ago, and the calendar goes on after this month.
   */
  lemma AnswersWindowsIff(today: Date, m: Month)
    requires ValidDate(today) && ValidMonth(m)
    ensures Expected(today, Some(m)).Windows? <==>
      && m.year >= 2020 && Ordinal(First(m)) <= Ordinal(today)
      && 12 * (today.year - m.year) + today.month - m.month <= 119 && !(today.year == 9999 && today.month == 12)
    ensures Expected(today, Some(m)).OutOfCalendar? <==>
      m.year >= 2020 && Ordinal(First(m)) <= Ordinal(today) && today.year == 9999 && today.month == 12
  {
    OrdinalsAreOrdered(First(m), today);
  }

  /** (month - timedelta(days=1)).replace(day=1). */
  function MonthBefore(m: Month): Option<Month> {
    if m.month > 1 then Some(Month(m.year, m.month - 1))
    else if m.year > 1 then Some(Month(m.year - 1, 12))
    else None
  }

  /** The default start: the first of this month, moved back two months (lines 31-33). */
  method TwoMonthsBack(today: Date) returns (r: Option<Month>)
    requires ValidDate(today)
    ensures r == DefaultStart(today)
  {
    var month := MonthOf(today);
    for step := 0 to 2
      invariant ValidMonth(month) && Index(month) == Index(MonthOf(today)) - step
    {
      var earlier := MonthBefore(month);
      if earlier.None? {
        return None;
      }
      month := earlier.value;
    }
    IndexRoundTrip(month);
    return Some(month);
  }

  /** The loop (lines 35-39); None is the year after 9999. */
  method ListWindows(start: Month, today: Date) returns (r: Option<seq<Window>>)
    requires ValidMonth(start) && ValidDate(today)
    ensures r.None? <==> AtMost(First(start), today) && MonthOf(today) == Month(MAX_YEAR, 12)
    ensures r.Some? ==> r.value == WindowsFrom(Index(start), today)
  {
    var month := start;
    var result: seq<Window> := [];
    MonthOrder(start, today);
    while AtMost(First(month), today)
      invariant ValidMonth(month) && Index(start) <= Index(month)
      invariant result == WindowsBetween(Index(start), Index(month), today)
      invariant Index(month) <= Index(MonthOf(today)) + 1 || month == start
      decreases Index(MonthOf(today)) + 1 - Index(month)
    {
      MonthOrder(month, today);
      WindowsGrow(Index(start), month, today);
      result := result + [Window(month, if AtMost(today, Last(month)) then today else Last(month))];
      var year := month.year + (if month.month == 12 then 1 else 0);
      if year > MAX_YEAR {
        return None;
      }
      month := Month(year, month.month % 12 + 1);
    }
    MonthOrder(month, today);
    return Some(result);
  }

  lemma MonthOrder(m: Month, d: Date)
    requires ValidMonth(m) && ValidDate(d)
    ensures AtMost(First(m), d) <==> Index(m) <= Index(MonthOf(d))
    ensures AtMost(d, Last(m)) <==> Index(MonthOf(d)) <= Index(m)
  {
  }

  /** month_windows. */
  method MonthWindows(today: Date, since: Option<Month>) returns (r: Windows)
    requires ValidDate(today)
    ensures r == Expected(today, since)
  {
    var start: Option<Month>;
    if since.Some? {
      start := if ValidMonth(since.value) then since else None;
    } else {
      start := TwoMonthsBack(today);
    }
    if start.None? {
      return OutOfCalendar;
    }
    StartIsValid(today, since);
    if !AtMost(First(start.value), today) || start.value.year < FIRST_YEAR {
      return PeriodInvalid;
    }
    var list := ListWindows(start.value, today);
    if list.None? {
      return OutOfCalendar;
    }
    if |list.value| > MAX_WINDOWS {
      return PeriodInvalid;
    }
    return Windows(list.value);
  }

  lemma StartIsValid(today: Date, since: Option<Month>)
    requires ValidDate(today) && Start(today, since).Some?
    ensures ValidMonth(Start(today, since).value)
  {
    if since.None? {
      MonthWithin(Month(1, 1), MonthOf(today), Index(MonthOf(today)) - 2);
    }
  }

  /** The window of a past month ends with the month, that of the present month today. */
  lemma WindowEnd(i: int, today: Date)
    requires ValidDate(today) && ValidMonth(MonthAt(i)) && i <= Index(MonthOf(today))
    ensures WindowAt(i, today).end == if i == Index(MonthOf(today)) then today else Last(MonthAt(i))
    ensures i == Index(MonthOf(today)) ==> MonthAt(i) == MonthOf(today)
    ensures ValidDate(WindowAt(i, today).end) && Guard(WindowAt(i, today))
  {
    MonthOrder(MonthAt(i), today);
    IndexRoundTrip(MonthOf(today));
  }

  predicate InWindow(d: Date, w: Window) {
    AtMost(First(w.month), d) && AtMost(d, w.end)
  }

  /** The check of parse_report on the month and the period end (lines 105-108). */
  predicate Guard(w: Window) {
    AtMost(First(w.month), w.end) && MonthOf(w.end) == w.month
  }

  /** Any window between a valid start month and this month passes the guard. */
  lemma WindowIsGuarded(start: Month, today: Date, i: int)
    requires ValidMonth(start) && ValidDate(today) && Index(start) <= i <= Index(MonthOf(today))
    ensures ValidDate(WindowAt(i, today).end) && Guard(WindowAt(i, today))
    ensures i == Index(MonthOf(today)) ==> WindowAt(i, today).end == today
  {
    MonthWithin(start, MonthOf(today), i);
    WindowEnd(i, today);
  }

  lemma WindowsAreListed(from: int, today: Date, k: int)
    requires from <= Index(MonthOf(today)) && 0 <= k < |WindowsFrom(from, today)|
    ensures |WindowsFrom(from, today)| == Index(MonthOf(today)) + 1 - from
    ensures WindowsFrom(from, today)[k] == WindowAt(from + k, today)
  {
  }

  lemma ExpectedList(today: Date, since: Option<Month>)
    requires ValidDate(today) && Expected(today, since).Windows?
    ensures
      var start := Start(today, since).value;
      && Start(today, since).Some? && ValidMonth(start) && Index(start) <= Index(MonthOf(today))
      && Expected(today, since).list == WindowsFrom(Index(start), today)
      && 1 <= |Expected(today, since).list| == Index(MonthOf(today)) + 1 - Index(start) <= MAX_WINDOWS
  {
    StartIsValid(today, since);
    MonthOrder(Start(today, since).value, today);
  }

  /** Every window is a month to its last day, or to today in the last one, and passes the guard. */
  lemma WindowsPassGuard(today: Date, since: Option<Month>)
    requires ValidDate(today) && Expected(today, since).Windows?
    ensures
      var list := Expected(today, since).list;
      && 1 <= |list| <= MAX_WINDOWS
      && list[|list| - 1].end == today
      && (forall k :: 0 <= k < |list| ==> ValidDate(list[k].end) && Guard(list[k]))
  {
    ExpectedList(today, since);
    var from := Index(Start(today, since).value);
    forall k | 0 <= k < |WindowsFrom(from, today)|
      ensures
        var w := WindowsFrom(from, today)[k];
        ValidDate(w.end) && Guard(w) && (k == |WindowsFrom(from, today)| - 1 ==> w.end == today)
    {
      WindowsAreListed(from, today, k);
      WindowIsGuarded(Start(today, since).value, today, from + k);
    }
  }

  lemma MonthWithin(a: Month, b: Month, i: int)
    requires ValidMonth(a) && ValidMonth(b) && Index(a) <= i <= Index(b)
    ensures ValidMonth(MonthAt(i)) && Index(MonthAt(i)) == i
  {
  }

  /** The day after a window is the first day of the next one. */
  lemma WindowsAreContiguous(today: Date, since: Option<Month>)
    requires ValidDate(today) && Expected(today, since).Windows?
    ensures
      var list := Expected(today, since).list;
      && First(list[0].month) == First(Start(today, since).value)
      && forall k :: 0 <= k < |list| - 1 ==> NextDay(list[k].end) == First(list[k + 1].month)
  {
    var start := Start(today, since).value;
    var list := Expected(today, since).list;
    StartIsValid(today, since);
    IndexRoundTrip(start);
    MonthOrder(start, today);
    assert list[0] == WindowAt(Index(start), today);
    forall k | 0 <= k < |list| - 1
      ensures NextDay(list[k].end) == First(list[k + 1].month)
    {
      var i := Index(start) + k;
      MonthWithin(start, MonthOf(today), i);
      WindowEnd(i, today);
      DayAfterMonth(MonthAt(i));
      assert list[k] == WindowAt(i, today) && list[k + 1] == WindowAt(i + 1, today);
    }
  }

  lemma DayAfterMonth(m: Month)
    requires ValidMonth(m)
    ensures NextDay(Last(m)) == First(MonthAt(Index(m) + 1))
  {
  }

  /** A day is asked for exactly when it lies between the first of the start month and today, and only once. */
  lemma WindowsPartitionTheDays(today: Date, since: Option<Month>, d: Date)
    requires ValidDate(today) && ValidDate(d) && Expected(today, since).Windows?
    ensures
      var list := Expected(today, since).list;
      && ((exists k :: 0 <= k < |list| && InWindow(d, list[k])) <==>
           AtMost(First(Start(today, since).value), d) && AtMost(d, today))
      && forall j, k :: 0 <= j < |list| && 0 <= k < |list| && InWindow(d, list[j]) && InWindow(d, list[k]) ==> j == k
  {
    ExpectedList(today, since);
    var start := Start(today, since).value;
    var list := WindowsFrom(Index(start), today);
    forall k | 0 <= k < |list|
      ensures InWindow(d, list[k]) <==> Index(MonthOf(d)) == Index(start) + k && AtMost(d, today)
    {
      WindowsAreListed(Index(start), today, k);
      MonthWithin(start, MonthOf(today), Index(start) + k);
      DayInWindow(d, Index(start) + k, today);
    }
    MonthOrder(start, d);
    if AtMost(d, today) {
      MonthsNotAfter(d, today);
    }
    if AtMost(First(start), d) && AtMost(d, today) {
      assert InWindow(d, list[Index(MonthOf(d)) - Index(start)]);
    }
  }

  lemma MonthsNotAfter(a: Date, b: Date)
    requires ValidDate(a) && ValidDate(b) && AtMost(a, b)
    ensures Index(MonthOf(a)) <= Index(MonthOf(b))
  {
  }

  lemma DayInWindow(d: Date, i: int, today: Date)
    requires ValidDate(d) && ValidDate(today) && ValidMonth(MonthAt(i)) && i <= Index(MonthOf(today))
    ensures InWindow(d, WindowAt(i, today)) <==> Index(MonthOf(d)) == i && AtMost(d, today)
  {
    IndexRoundTrip(MonthOf(d));
    if Index(MonthOf(d)) == i {
      assert MonthAt(i) == MonthOf(d);
    }
  }

  /** Without a start month the collector asks for three windows: this month and the two before. */
  lemma DefaultIsThreeMonths(today: Date)
    requires ValidDate(today)
    ensures Expected(today, None).Windows? <==>
      DefaultStart(today).Some? && DefaultStart(today).value.year >= FIRST_YEAR && MonthOf(today) != Month(MAX_YEAR, 12)
    ensures Expected(today, None).Windows? ==> |Expected(today, None).list| == 3
  {
    if DefaultStart(today).Some? {
      StartIsValid(today, None);
      MonthWithin(Month(1, 1), MonthOf(today), Index(MonthOf(today)) - 2);
      MonthOrder(DefaultStart(today).value, today);
    }
  }
}
