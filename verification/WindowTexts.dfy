/**
 How collect.py writes the dates of a window (scripts/book-sales/collect.py, line 38) and how
 parse_report reads them (scripts/book-sales/kdp_report.py, lines 38-40 and 104-108).
 */
module WindowTexts {
  import opened Options
  import opened BookWindows
  import opened RoyaltyReport

  function Digit(n: nat): char
    requires n < 10
  {
    ('0' as int + n) as char
  }

  /** The last `width` digits of a number. */
  function Padded(n: nat, width: nat): string {
    if width == 0 then "" else Padded(n / 10, width - 1) + [Digit(n % 10)]
  }

  function PowerOfTen(width: nat): nat {
    if width == 0 then 1 else 10 * PowerOfTen(width - 1)
  }

  predicate AreDigits(s: string) {
    forall i :: 0 <= i < |s| ==> '0' <= s[i] <= '9'
  }

  lemma DigitIsAppended(s: string, k: nat)
    requires k < 10 && AreDigits(s)
    ensures AreDigits(s + [Digit(k)]) && Digits(s + [Digit(k)]) == Digits(s) * 10 + k
  {
    assert (s + [Digit(k)])[..|s|] == s;
  }

  lemma {:induction false} DigitsOfPadded(n: nat, width: nat)
    requires n < PowerOfTen(width)
    ensures |Padded(n, width)| == width && AreDigits(Padded(n, width)) && Digits(Padded(n, width)) == n
  {
    if width > 0 {
      assert n / 10 < PowerOfTen(width - 1);
      DigitsOfPadded(n / 10, width - 1);
      DigitIsAppended(Padded(n / 10, width - 1), n % 10);
    }
  }

  /** Digits of a given length are what their number is written as. */
  lemma {:induction false} PaddedOfDigits(s: string)
    requires forall i :: 0 <= i < |s| ==> '0' <= s[i] <= '9'
    ensures Padded(Digits(s), |s|) == s && Digits(s) < PowerOfTen(|s|)
  {
    if s != "" {
      var n := |s| - 1;
      PaddedOfDigits(s[..n]);
      assert s == s[..n] + [s[n]];
    }
  }

  /** date.isoformat. */
  function DateText(d: Date): string
    requires ValidDate(d)
  {
    Padded(d.year, 4) + "-" + Padded(d.month, 2) + "-" + Padded(d.day, 2)
  }

  /** strftime('%Y-%m') where it pads the year. */
  function MonthText(m: Month): string
    requires ValidMonth(m)
  {
    Padded(m.year, 4) + "-" + Padded(m.month, 2)
  }

  lemma FourDigits()
    ensures PowerOfTen(2) == 100 && PowerOfTen(4) == 10000
  {
    assert PowerOfTen(1) == 10 && PowerOfTen(2) == 100 && PowerOfTen(3) == 1000;
  }

  /** A day is read as the date it is written for, and no other text is read as that date. */
  lemma DateTextIsRead(d: Date)
    requires ValidDate(d)
    ensures ParseDay(DateText(d)) == Some(d)
  {
    FourDigits();
    DigitsOfPadded(d.year, 4);
    DigitsOfPadded(d.month, 2);
    DigitsOfPadded(d.day, 2);
    PartsAreRead(Padded(d.year, 4), Padded(d.month, 2), Padded(d.day, 2), d);
  }

  lemma PartsAreRead(year: string, month: string, day: string, d: Date)
    requires |year| == 4 && |month| == 2 && |day| == 2 && AreDigits(year) && AreDigits(month) && AreDigits(day)
    requires ValidDate(d) && Digits(year) == d.year && Digits(month) == d.month && Digits(day) == d.day
    ensures ParseDay(year + "-" + month + "-" + day) == Some(d)
  {
    PartsAreSlices(year, month, day, year + "-" + month + "-" + day);
  }

  lemma PartsAreSlices(year: string, month: string, day: string, s: string)
    requires |year| == 4 && |month| == 2 && |day| == 2 && s == year + "-" + month + "-" + day
    ensures |s| == 10 && s[..4] == year && s[4] == '-' && s[5..7] == month && s[7] == '-' && s[8..] == day
  {
  }

  lemma ReadDateIsText(s: string)
    requires ParseDay(s).Some?
    ensures ValidDate(ParseDay(s).value) && s == DateText(ParseDay(s).value)
  {
    PaddedOfDigits(s[..4]);
    PaddedOfDigits(s[5..7]);
    PaddedOfDigits(s[8..]);
    SlicesAreParts(s);
  }

  lemma SlicesAreParts(s: string)
    requires |s| == 10 && s[4] == '-' && s[7] == '-'
    ensures s == s[..4] + "-" + s[5..7] + "-" + s[8..]
  {
    assert s[4..5] == "-" && s[7..8] == "-";
    assert s == s[..4] + s[4..5] + s[5..7] + s[7..8] + s[8..];
  }

  lemma FirstOfMonthText(m: Month)
    requires ValidMonth(m)
    ensures MonthText(m) + "-01" == DateText(First(m)) && |MonthText(m)| == 7
  {
    FourDigits();
    DigitsOfPadded(m.year, 4);
    DigitsOfPadded(m.month, 2);
    FirstDayText();
    FirstIsAppended(Padded(m.year, 4), Padded(m.month, 2));
  }

  lemma FirstDayText()
    ensures Padded(1, 2) == "01"
  {
    assert Padded(0, 1) == "0";
  }

  lemma FirstIsAppended(year: string, month: string)
    ensures (year + "-" + month) + "-01" == year + "-" + month + "-" + "01"
  {
  }

  /** parse_report reads a window that passes its guard as the month and the last day it was written for. */
  lemma WindowIsRead(pads: bool, w: Window)
    requires ValidMonth(w.month) && ValidDate(w.end) && (pads || w.month.year >= 1000)
    ensures Guard(w) ==>
      ParsePeriod(pads, MonthText(w.month), DateText(w.end)) == Some(Period(MonthText(w.month), First(w.month), w.end))
    ensures !Guard(w) ==> ParsePeriod(pads, MonthText(w.month), DateText(w.end)).None?
  {
    FirstOfMonthText(w.month);
    DateTextIsRead(First(w.month));
    DateTextIsRead(w.end);
  }

  /** So it reads every window month_windows answers. */
  lemma EveryWindowIsRead(pads: bool, today: Date, since: Option<Month>, k: nat)
    requires ValidDate(today) && Expected(today, since).Windows? && k < |Expected(today, since).list|
    ensures
      var w := Expected(today, since).list[k];
      && ValidMonth(w.month) && ValidDate(w.end)
      && ParsePeriod(pads, MonthText(w.month), DateText(w.end)) == Some(Period(MonthText(w.month), First(w.month), w.end))
  {
    WindowsPassGuard(today, since);
    ExpectedList(today, since);
    var start := Start(today, since).value;
    WindowsAreListed(Index(start), today, k);
    MonthWithin(start, MonthOf(today), Index(start) + k);
    WindowIsRead(pads, Expected(today, since).list[k]);
  }

  lemma {:induction false} NumberIsRead(n: nat)
    ensures |NumberText(n)| > 0 && AreDigits(NumberText(n)) && Digits(NumberText(n)) == n
  {
    LastDigit(n);
    if n >= 10 {
      NumberIsRead(n / 10);
      DigitIsAppended(NumberText(n / 10), n % 10);
    } else {
      DigitIsAppended("", n);
    }
  }

  lemma LastDigit(n: nat)
    ensures n < 10 ==> NumberText(n) == "" + [Digit(n)]
    ensures n >= 10 ==> NumberText(n) == NumberText(n / 10) + [Digit(n % 10)]
  {
    DigitCharacters(n % 10);
  }

  lemma DigitCharacters(k: nat)
    requires k < 10
    ensures "0123456789"[k] == Digit(k)
  {
  }

  /** And it is written without leading zeros. */
  lemma {:induction false} NoLeadingZero(n: nat)
    ensures |NumberText(n)| > 1 ==> NumberText(n)[0] != '0'
  {
    LastDigit(n);
    if n >= 10 {
      NoLeadingZero(n / 10);
      LastDigit(n / 10);
    }
  }
}
