/**
 What parse_report (scripts/book-sales/kdp_report.py, lines 118-153) makes of the lines of a
 report: which lines it reads, and what stands in the row of each, told from the cells.
 */
module RoyaltyRows {
  import opened Options
  import opened BookWindows
  import opened Decimals
  import opened SheetDecode
  import opened RoyaltyReport

  // ----------------------------------------------------------------- cells

  /** A cell with a whole number below the limit. */
  predicate IsCount(cell: string, k: int) {
    Written(cell) == Some(k as real) && 0 <= k && k as real < NUMBER_LIMIT
  }

  lemma UnitsAreCounts(fix: Arithmetic, cell: string, k: int)
    requires Faithful(fix)
    ensures Units(fix, cell) == Some(k) <==> IsCount(cell, k)
  {
    if Units(fix, cell) == Some(k) {
      UnitsAreBelowLimit(fix, cell);
    }
    if IsCount(cell, k) {
      IsIntIf(k as real, k);
      assert fix(k as real) == k as real;
    }
  }

  const CAPITALS := "ABCDEFGHIJKLMNOPQRSTUVWXYZ"

  lemma CapitalIs(c: char)
    ensures 'A' <= c <= 'Z' <==> c in CAPITALS
  {
    assert 'A' <= c <= 'Z' ==> CAPITALS[c as int - 65] == c;
  }

  /** A currency is three capital letters. */
  lemma CurrencyIs(s: string)
    ensures ThreeCapitals(s) <==> |s| == 3 && s[0] in CAPITALS && s[1] in CAPITALS && s[2] in CAPITALS
  {
    if |s| == 3 {
      CapitalIs(s[0]);
      CapitalIs(s[1]);
      CapitalIs(s[2]);
    }
  }

  lemma DigitIs(c: char)
    ensures '0' <= c <= '9' <==> c in "0123456789"
  {
    assert '0' <= c <= '9' ==> "0123456789"[c as int - 48] == c;
  }

  /** Digits are what a number is written with. */
  lemma DigitsAre(s: string)
    ensures IsDigits(s) <==> |s| > 0 && forall i :: 0 <= i < |s| ==> s[i] in "0123456789"
  {
    forall i | 0 <= i < |s|
      ensures '0' <= s[i] <= '9' <==> s[i] in "0123456789"
    {
      DigitIs(s[i]);
    }
  }

  /** What parse_report has made sure of: one month up to one of its days. */
  predicate IsPeriod(period: Period) {
    && ValidDate(period.start) && ValidDate(period.end) && period.start.day == 1
    && period.end.year == period.start.year && period.end.month == period.start.month
  }

  lemma GuardedPeriodIs(pads: bool, month: string, end: string)
    requires ParsePeriod(pads, month, end).Some?
    ensures
      var period := ParsePeriod(pads, month, end).value;
      IsPeriod(period) && period.text == month && ParseDay(month + "-01") == Some(period.start) && ParseDay(end) == Some(period.end)
  {
    var day := month + "-01";
    assert day[8..] == "01" && "01"[..1] == "0";
    assert Digits("01") == 1;
  }

  /** The whole month, or a day of it that is not after the period's end. */
  predicate InPeriod(day: string, period: Period) {
    || day == period.text
    || (ParseDay(day).Some? && ParseDay(day).value.year == period.start.year
        && ParseDay(day).value.month == period.start.month && ParseDay(day).value.day <= period.end.day)
  }

  lemma DayWithinIsInPeriod(day: string, period: Period)
    requires IsPeriod(period)
    ensures DayWithin(day, period) <==> InPeriod(day, period)
  {
  }

  // ----------------------------------------------------------------- lines

  datatype Line = Line(kind: LineKind, record: Record)

  predicate IsBase(base: Base, record: Record, dayColumn: string, identifier: string, format: string, period: Period) {
    && dayColumn in record && base.date == record[dayColumn] && InPeriod(base.date, period)
    && identifier in record && base.identifier == record[identifier] != ""
    && "Title" in record && base.title == record["Title"] != ""
    && "Marketplace" in record && base.marketplace == record["Marketplace"] != ""
    && base.format == format
  }

  predicate IsRoyaltyOf(fix: Arithmetic, row: Row, record: Record, identifier: string, format: string, period: Period) {
    && row.Royalty? && IsBase(row.base, record, "Royalty Date", identifier, format, period)
    && IsCount(Field(record, "Units Sold"), row.sold)
    && IsCount(Field(record, "Units Refunded"), row.refunds)
    && Written(Field(record, "Net Units Sold")) == Some(row.net as real) && row.net == row.sold - row.refunds
    && Written(Field(record, "Royalty")) == Some(row.amount) && fix(Absolute(row.amount)) < NUMBER_LIMIT
    && row.currency == Field(record, "Currency") && ThreeCapitals(row.currency)
    && row.transactionType == Field(record, "Transaction Type")
  }

  predicate IsOrdersOf(row: Row, record: Record, period: Period) {
    && row.Orders? && IsBase(row.base, record, "Date", "ASIN", "unknown", period)
    && IsCount(Field(record, "Paid Units"), row.paid)
    && IsCount(Field(record, "Free Units"), row.free)
  }

  predicate IsPagesOf(row: Row, record: Record, period: Period) {
    && row.PagesRead? && IsBase(row.base, record, "Date", "eBook ASIN", "ebook", period)
    && IsCount(Field(record, "Kindle+ Pages Read"), row.read)
    && IsCount(Field(record, "Kindle+ Pages Listened"), row.listened)
    && IsCount(Field(record, "Total Kindle+ Pages Read and Listened"), row.read + row.listened)
  }

  /** The row says what the cells of the line say. */
  predicate IsRowOf(fix: Arithmetic, row: Row, line: Line, period: Period) {
    match line.kind
    case RoyaltyLine(identifier, format) => IsRoyaltyOf(fix, row, line.record, identifier, format, period)
    case OrdersLine => IsOrdersOf(row, line.record, period)
    case PagesLine => IsPagesOf(row, line.record, period)
  }

  lemma BaseIsRead(record: Record, dayColumn: string, identifier: string, format: string, period: Period, base: Base)
    requires IsPeriod(period)
    ensures BaseOf(record, dayColumn, identifier, format, period) == Some(base)
       <==> IsBase(base, record, dayColumn, identifier, format, period)
  {
    if dayColumn in record {
      DayWithinIsInPeriod(record[dayColumn], period);
    }
  }

  lemma OrdersAreRead(fix: Arithmetic, record: Record, period: Period, row: Row)
    requires Faithful(fix) && IsPeriod(period)
    ensures OrdersRow(fix, record, period) == Some(row) <==> IsOrdersOf(row, record, period)
  {
    if row.Orders? {
      UnitsAreCounts(fix, Field(record, "Paid Units"), row.paid);
      UnitsAreCounts(fix, Field(record, "Free Units"), row.free);
      BaseIsRead(record, "Date", "ASIN", "unknown", period, row.base);
    }
  }

  lemma PagesAreRead(fix: Arithmetic, record: Record, period: Period, row: Row)
    requires Faithful(fix) && IsPeriod(period)
    ensures PagesRow(fix, record, period) == Some(row) <==> IsPagesOf(row, record, period)
  {
    PagesFromCells(fix, Field(record, "Kindle+ Pages Read"), Field(record, "Kindle+ Pages Listened"),
                   Field(record, "Total Kindle+ Pages Read and Listened"),
                   BaseOf(record, "Date", "eBook ASIN", "ebook", period), row);
    if row.PagesRead? {
      BaseIsRead(record, "Date", "eBook ASIN", "ebook", period, row.base);
    }
  }

  lemma PagesFromCells(fix: Arithmetic, read: string, listened: string, total: string, base: Option<Base>, row: Row)
    requires Faithful(fix)
    ensures PagesFrom(Units(fix, read), Units(fix, listened), Units(fix, total), base) == Some(row) <==>
      && row.PagesRead? && base == Some(row.base)
      && IsCount(read, row.read) && IsCount(listened, row.listened) && IsCount(total, row.read + row.listened)
  {
    PagesFromIs(Units(fix, read), Units(fix, listened), Units(fix, total), base, row);
    if row.PagesRead? {
      UnitsAreCounts(fix, read, row.read);
      UnitsAreCounts(fix, listened, row.listened);
      UnitsAreCounts(fix, total, row.read + row.listened);
    }
  }

  lemma PagesFromIs(read: Option<int>, listened: Option<int>, total: Option<int>, base: Option<Base>, row: Row)
    ensures PagesFrom(read, listened, total, base) == Some(row) <==>
      && row.PagesRead? && base == Some(row.base) && read == Some(row.read) && listened == Some(row.listened)
      && total == Some(row.read + row.listened)
  {
  }

  /** The unit cells of a royalty line. */
  predicate AreUnits(sold: string, refunds: string, net: string, s: int, r: int, n: int) {
    IsCount(sold, s) && IsCount(refunds, r) && Written(net) == Some(n as real) && n == s - r
  }

  lemma UnitsAreReadIff(fix: Arithmetic, sold: string, refunds: string, net: string, s: int, r: int, n: int)
    requires Faithful(fix)
    ensures AreUnits(sold, refunds, net, s, r, n) <==>
      && UnitsAreRead(fix, Number(fix, sold), Units(fix, refunds), Number(fix, net))
      && Number(fix, sold).value.Floor == s && Units(fix, refunds).value == r && Number(fix, net).value.Floor == n
  {
    if AreUnits(sold, refunds, net, s, r, n) {
      UnitsAreKept(fix, sold, refunds, net, s, r, n);
    }
    if UnitsAreRead(fix, Number(fix, sold), Units(fix, refunds), Number(fix, net)) {
      NumberIsBelowLimit(fix, sold);
      UnitsAreBelowLimit(fix, refunds);
      UnitsAreCounts(fix, refunds, Units(fix, refunds).value);
      UnitsAreIntegers(fix, Number(fix, sold), Units(fix, refunds), Number(fix, net));
    }
  }

  lemma UnitsAreKept(fix: Arithmetic, sold: string, refunds: string, net: string, s: int, r: int, n: int)
    requires Faithful(fix) && AreUnits(sold, refunds, net, s, r, n)
    ensures Number(fix, sold) == Some(s as real) && Units(fix, refunds) == Some(r) && Number(fix, net) == Some(n as real)
    ensures UnitsAreRead(fix, Some(s as real), Some(r), Some(n as real))
  {
    UnitsAreCounts(fix, refunds, r);
    WholeNumberIsKept(fix, sold, s);
    WholeNumberIsKept(fix, net, n);
    IsIntIf(s as real, s);
    NetIsNotRounded(fix, s as real, r);
  }

  lemma WholeNumberIsKept(fix: Arithmetic, cell: string, k: int)
    requires Faithful(fix) && Written(cell) == Some(k as real) && -NUMBER_LIMIT < k as real < NUMBER_LIMIT
    ensures Number(fix, cell) == Some(k as real)
  {
    var x := Absolute(k as real);
    IsIntIf(x, if k < 0 then -k else k);
    assert fix(x) == x;
  }

  lemma RoyaltiesAreRead(fix: Arithmetic, record: Record, identifier: string, format: string, period: Period, row: Row)
    requires Faithful(fix) && IsPeriod(period)
    ensures RoyaltyRow(fix, record, identifier, format, period) == Some(row)
       <==> IsRoyaltyOf(fix, row, record, identifier, format, period)
  {
    if row.Royalty? {
      UnitsAreReadIff(fix, Field(record, "Units Sold"), Field(record, "Units Refunded"), Field(record, "Net Units Sold"),
                      row.sold, row.refunds, row.net);
      BaseIsRead(record, "Royalty Date", identifier, format, period, row.base);
    }
  }

  lemma LineIsRead(fix: Arithmetic, line: Line, period: Period, row: Row)
    requires Faithful(fix) && IsPeriod(period)
    ensures ParseLine(fix, line.kind, line.record, period) == Some(row) <==> IsRowOf(fix, row, line, period)
  {
    match line.kind
    case RoyaltyLine(identifier, format) => RoyaltiesAreRead(fix, line.record, identifier, format, period, row);
    case OrdersLine => OrdersAreRead(fix, line.record, period, row);
    case PagesLine => PagesAreRead(fix, line.record, period, row);
  }

  // ---------------------------------------------------------------- reports

  /** The lines of one sheet, each with the way it is read. */
  function LinesOf(kind: LineKind, records: Option<seq<Record>>): Option<seq<Line>> {
    match records
    case None => None
    case Some(list) => Some(seq(|list|, i requires 0 <= i < |list| => Line(kind, list[i])))
  }

  function Followed(before: Option<seq<Line>>, after: Option<seq<Line>>): Option<seq<Line>> {
    if before.Some? && after.Some? then Some(before.value + after.value) else None
  }

  /** One row for every line, in the order of the lines. */
  ghost predicate AreRowsOf(fix: Arithmetic, rows: Option<seq<Row>>, lines: Option<seq<Line>>, period: Period) {
    && (rows.Some? <==> lines.Some? && AllRead(fix, lines.value, period))
    && (rows.Some? ==> RowByRow(fix, rows.value, lines.value, period))
  }

  ghost predicate AllRead(fix: Arithmetic, lines: seq<Line>, period: Period) {
    forall line :: line in lines ==> IsRead(fix, line, period)
  }

  predicate RowByRow(fix: Arithmetic, rows: seq<Row>, lines: seq<Line>, period: Period) {
    |rows| == |lines| && forall i :: 0 <= i < |rows| ==> IsRowOf(fix, rows[i], lines[i], period)
  }

  ghost predicate IsRead(fix: Arithmetic, line: Line, period: Period) {
    exists row :: IsRowOf(fix, row, line, period)
  }

  lemma {:induction false} CollectedInOrder(results: seq<Option<Row>>)
    ensures Collect(results).Some? <==> forall i :: 0 <= i < |results| ==> results[i].Some?
    ensures Collect(results).Some? ==>
      && |Collect(results).value| == |results|
      && forall i :: 0 <= i < |results| ==> results[i] == Some(Collect(results).value[i])
  {
    if results != [] {
      var n := |results| - 1;
      CollectedInOrder(results[..n]);
      if Collect(results[..n]).Some? {
        assert forall i :: 0 <= i < n ==> results[i] == results[..n][i];
      } else {
        var i :| 0 <= i < n && results[..n][i].None?;
        assert results[i].None?;
      }
    }
  }

  lemma SheetIsRead(fix: Arithmetic, kind: LineKind, records: Option<seq<Record>>, period: Period)
    requires Faithful(fix) && IsPeriod(period)
    ensures AreRowsOf(fix, RowsOf(fix, kind, records, period), LinesOf(kind, records), period)
  {
    if records.Some? {
      var lines, results := LinesOf(kind, records).value, ReadEach(fix, kind, records.value, period);
      forall i | 0 <= i < |lines|
        ensures results[i].Some? <==> IsRead(fix, lines[i], period)
        ensures results[i].Some? ==> IsRowOf(fix, results[i].value, lines[i], period)
      {
        OneIsRead(fix, lines[i], period);
      }
      CollectedAreRows(fix, results, lines, period);
    }
  }

  lemma CollectedAreRows(fix: Arithmetic, results: seq<Option<Row>>, lines: seq<Line>, period: Period)
    requires |results| == |lines|
    requires forall i :: 0 <= i < |lines| ==> (results[i].Some? <==> IsRead(fix, lines[i], period))
    requires forall i :: 0 <= i < |lines| && results[i].Some? ==> IsRowOf(fix, results[i].value, lines[i], period)
    ensures AreRowsOf(fix, Collect(results), Some(lines), period)
  {
    CollectedInOrder(results);
    if AllRead(fix, lines, period) {
      assert forall i :: 0 <= i < |lines| ==> lines[i] in lines;
    } else {
      var line :| line in lines && !IsRead(fix, line, period);
      var i :| 0 <= i < |lines| && lines[i] == line;
      assert results[i].None?;
    }
  }

  lemma OneIsRead(fix: Arithmetic, line: Line, period: Period)
    requires Faithful(fix) && IsPeriod(period)
    ensures
      var result := ParseLine(fix, line.kind, line.record, period);
      && (result.Some? <==> IsRead(fix, line, period))
      && (result.Some? ==> IsRowOf(fix, result.value, line, period))
  {
    var result := ParseLine(fix, line.kind, line.record, period);
    if result.Some? {
      LineIsRead(fix, line, period, result.value);
    }
    if IsRead(fix, line, period) {
      var row :| IsRowOf(fix, row, line, period);
      LineIsRead(fix, line, period, row);
    }
  }

  lemma SheetsAreRead(fix: Arithmetic, before: Option<seq<Row>>, after: Option<seq<Row>>, first: Option<seq<Line>>,
                      second: Option<seq<Line>>, period: Period)
    requires AreRowsOf(fix, before, first, period) && AreRowsOf(fix, after, second, period)
    ensures AreRowsOf(fix, Append(before, after), Followed(first, second), period)
  {
    if first.Some? && second.Some? {
      var a, b := first.value, second.value;
      assert forall line :: line in a + b <==> line in a || line in b;
      if before.Some? && after.Some? {
        RowsFollow(fix, before.value, after.value, a, b, period);
      }
    }
  }

  lemma RowsFollow(fix: Arithmetic, rows: seq<Row>, rows': seq<Row>, lines: seq<Line>, lines': seq<Line>, period: Period)
    requires RowByRow(fix, rows, lines, period) && RowByRow(fix, rows', lines', period)
    ensures RowByRow(fix, rows + rows', lines + lines', period)
  {
    forall i | 0 <= i < |rows + rows'|
      ensures IsRowOf(fix, (rows + rows')[i], (lines + lines')[i], period)
    {
      if i < |rows| {
        assert (rows + rows')[i] == rows[i] && (lines + lines')[i] == lines[i];
      } else {
        assert (rows + rows')[i] == rows'[i - |rows|] && (lines + lines')[i] == lines'[i - |rows|];
      }
    }
  }

  /** The lines of a report: three royalty sheets, orders, and pages read. */
  function ReportLines(sheets: Sheets): Option<seq<Line>> {
    var royalties := Followed(Followed(RoyaltySheet(sheets, "eBook Royalty", "ebook"),
                                       RoyaltySheet(sheets, "Paperback Royalty", "paperback")),
                              RoyaltySheet(sheets, "Hardcover Royalty", "hardcover"));
    Followed(Followed(royalties, LinesOf(OrdersLine, OrderLines(sheets))), LinesOf(PagesLine, PageLines(sheets)))
  }

  function RoyaltySheet(sheets: Sheets, sheet: string, format: string): Option<seq<Line>> {
    var identifier := IdentifierOf(sheets, sheet);
    LinesOf(RoyaltyLine(identifier, format), SheetRecords(sheets, sheet, RoyaltyColumns(identifier)))
  }

  /**
   A report has rows exactly if its sheets have their columns and every line can be read, and
   then row after row says what its line says.
   */
  lemma RowsAreTheLines(fix: Arithmetic, sheets: Sheets, period: Period)
    requires Faithful(fix) && IsPeriod(period)
    ensures AreRowsOf(fix, AllRows(fix, sheets, period), ReportLines(sheets), period)
  {
    RoyaltyRowsAreTheLines(fix, sheets, period);
    SheetIsRead(fix, OrdersLine, OrderLines(sheets), period);
    SheetIsRead(fix, PagesLine, PageLines(sheets), period);
    var royalties := Followed(Followed(RoyaltySheet(sheets, "eBook Royalty", "ebook"),
                                       RoyaltySheet(sheets, "Paperback Royalty", "paperback")),
                              RoyaltySheet(sheets, "Hardcover Royalty", "hardcover"));
    var orders := LinesOf(OrdersLine, OrderLines(sheets));
    SheetsAreRead(fix, Royalties(fix, sheets, period), RowsOf(fix, OrdersLine, OrderLines(sheets), period), royalties,
                  orders, period);
    SheetsAreRead(fix, Append(Royalties(fix, sheets, period), RowsOf(fix, OrdersLine, OrderLines(sheets), period)),
                  RowsOf(fix, PagesLine, PageLines(sheets), period), Followed(royalties, orders),
                  LinesOf(PagesLine, PageLines(sheets)), period);
  }

  lemma RoyaltyRowsAreTheLines(fix: Arithmetic, sheets: Sheets, period: Period)
    requires Faithful(fix) && IsPeriod(period)
    ensures
      AreRowsOf(fix, Royalties(fix, sheets, period),
                Followed(Followed(RoyaltySheet(sheets, "eBook Royalty", "ebook"),
                                  RoyaltySheet(sheets, "Paperback Royalty", "paperback")),
                         RoyaltySheet(sheets, "Hardcover Royalty", "hardcover")), period)
  {
    var ebook := RoyaltySheet(sheets, "eBook Royalty", "ebook");
    var paperback := RoyaltySheet(sheets, "Paperback Royalty", "paperback");
    var hardcover := RoyaltySheet(sheets, "Hardcover Royalty", "hardcover");
    NothingIsRead(fix, period);
    RoyaltySheetFollows(fix, sheets, 0, period, Some([]), ebook);
    RoyaltySheetFollows(fix, sheets, 1, period, Followed(Some([]), ebook), paperback);
    RoyaltySheetFollows(fix, sheets, 2, period, Followed(Followed(Some([]), ebook), paperback), hardcover);
    assert ebook.Some? ==> [] + ebook.value == ebook.value;
  }

  lemma NothingIsRead(fix: Arithmetic, period: Period)
    ensures AreRowsOf(fix, Some([]), Some([]), period)
  {
  }

  lemma RoyaltySheetFollows(fix: Arithmetic, sheets: Sheets, k: nat, period: Period, before: Option<seq<Line>>,
                            lines: Option<seq<Line>>)
    requires Faithful(fix) && IsPeriod(period) && k < |ROYALTY_SHEETS|
    requires AreRowsOf(fix, RoyaltiesTo(fix, sheets, k, period), before, period)
    requires lines == RoyaltySheet(sheets, ROYALTY_SHEETS[k].0, ROYALTY_SHEETS[k].1)
    ensures AreRowsOf(fix, RoyaltiesTo(fix, sheets, k + 1, period), Followed(before, lines), period)
  {
    SheetIsRead(fix, RoyaltyKind(sheets, k), RoyaltyLines(sheets, k), period);
    SheetsAreRead(fix, RoyaltiesTo(fix, sheets, k, period),
                  RowsOf(fix, RoyaltyKind(sheets, k), RoyaltyLines(sheets, k), period), before, lines, period);
  }

  // ----------------------------------------------------- columns and cells

  /** Every record has the required columns, and no other than those of the header. */
  lemma RecordsHaveColumns(sheet: seq<seq<string>>, required: set<string>)
    requires Records(sheet, required).Some?
    ensures forall record :: record in Records(sheet, required).value ==>
      (forall name :: name in required ==> name in record) && (forall name :: name in record <==> name in sheet[0])
  {
    var records := Records(sheet, required).value;
    forall record | record in records
      ensures (forall name :: name in required ==> name in record) && (forall name :: name in record <==> name in sheet[0])
    {
      var i :| 0 <= i < |records| && records[i] == record;
      forall name | name in sheet[0]
        ensures name in record
      {
        var c :| 0 <= c < |sheet[0]| && sheet[0][c] == name;
        RecordIsCellUnderHeader(sheet, required, i, c);
      }
      ZipHasOnlyHeaders(sheet[0], sheet[i + 1], |sheet[0]|);
    }
  }

  /** A book is identified by its ASIN if its sheet has one, else by its ISBN. */
  predicate HasRoyaltyColumns(record: Record, identifier: string) {
    && identifier == (if "ASIN" in record then "ASIN" else "ISBN") && identifier in record
    && "Royalty Date" in record && "Title" in record && "Marketplace" in record && "Units Sold" in record
    && "Units Refunded" in record && "Net Units Sold" in record && "Royalty" in record && "Currency" in record
    && "Transaction Type" in record
  }

  lemma RoyaltyLinesHaveColumns(sheets: Sheets, sheet: string, format: string)
    requires RoyaltySheet(sheets, sheet, format).Some?
    ensures forall line :: line in RoyaltySheet(sheets, sheet, format).value ==>
      line.kind.RoyaltyLine? && line.kind.format == format && HasRoyaltyColumns(line.record, line.kind.identifier)
  {
    var required := RoyaltyColumns(IdentifierOf(sheets, sheet));
    RecordsHaveColumns(sheets[sheet], required);
    forall line | line in RoyaltySheet(sheets, sheet, format).value
      ensures HasRoyaltyColumns(line.record, IdentifierOf(sheets, sheet))
    {
      assert line.record in SheetRecords(sheets, sheet, required).value;
    }
  }

  // ------------------------------------------------------- the Summary line

  function EnglishMonth(month: nat): string {
    match month
    case 1 => "January"
    case 2 => "February"
    case 3 => "March"
    case 4 => "April"
    case 5 => "May"
    case 6 => "June"
    case 7 => "July"
    case 8 => "August"
    case 9 => "September"
    case 10 => "October"
    case 11 => "November"
    case _ => "December"
  }

  lemma MonthIsNamed(month: nat)
    requires 1 <= month <= 12
    ensures MONTH_NAMES[month - 1] == EnglishMonth(month)
  {
  }

  lemma IsTheOnly(lines: seq<Record>, line: Record)
    ensures |lines| == 1 && lines[0] == line <==> lines == [line]
  {
  }

  /** The Summary is its only line, and that line is dated with the name of the month and the year's digits. */
  lemma SummaryIsOfTheMonth(sheets: Sheets, period: Period, line: Record)
    requires ValidDate(period.start)
    ensures SummaryOf(sheets, period) == Some(line) <==>
              && SheetRecords(sheets, "Summary", SUMMARY_COLUMNS) == Some([line])
              && Field(line, "Date") == EnglishMonth(period.start.month) + " " + NumberText(period.start.year)
  {
    MonthIsNamed(period.start.month);
    var lines := SheetRecords(sheets, "Summary", SUMMARY_COLUMNS);
    if lines.Some? {
      IsTheOnly(lines.value, line);
    }
  }
}
