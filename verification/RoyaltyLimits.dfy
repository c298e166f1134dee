/**
 Reports that show where the reconciliation of parse_report (scripts/book-sales/kdp_report.py,
 lines 132-141) leaves exact arithmetic: twelve fraction digits are the most that are safe.

 Each report has a list of e-book royalties in USD, nothing else, and a Summary of zero.
 */
module RoyaltyLimits {
  import opened Options
  import opened BookWindows
  import opened Decimals
  import opened SheetDecode
  import opened RoyaltyReport
  import opened RoyaltyRounding

  // ------------------------------------------------------------ the reports

  const JANUARY := Period("2026-01", Date(2026, 1, 1), Date(2026, 1, 31))

  const ROYALTY_HEADER: seq<string> :=
    ["Royalty Date", "Title", "ASIN", "Marketplace", "Units Sold", "Units Refunded", "Net Units Sold", "Royalty",
     "Currency", "Transaction Type"]
  const ORDERS_HEADER: seq<string> := ["Date", "Title", "ASIN", "Marketplace", "Paid Units", "Free Units"]
  const PAGES_HEADER: seq<string> :=
    ["Date", "Title", "eBook ASIN", "Marketplace", "Kindle+ Pages Read", "Kindle+ Pages Listened",
     "Total Kindle+ Pages Read and Listened"]
  const SUMMARY_HEADER: seq<string> := ["Date", "Royalty (USD)", "Net Units Sold (Paperback)"]
  const SUMMARY_ROW: seq<string> := ["January 2026", "0", "0"]

  function LineOf(royalty: string): seq<string> {
    ["2026-01", "Title", "A", "M", "0", "0", "0", royalty, "USD", "Sale"]
  }

  function LinesOf(royalties: seq<string>): seq<seq<string>> {
    seq(|royalties|, i requires 0 <= i < |royalties| => LineOf(royalties[i]))
  }

  function ReportOf(royalties: seq<string>): Sheets {
    map["Combined Sales" := [], "Summary" := [SUMMARY_HEADER, SUMMARY_ROW],
        "eBook Royalty" := [ROYALTY_HEADER] + LinesOf(royalties),
        "Paperback Royalty" := [ROYALTY_HEADER], "Hardcover Royalty" := [ROYALTY_HEADER],
        "Orders Processed" := [ORDERS_HEADER], "KENP" := [PAGES_HEADER]]
  }

  predicate IsReport(sheets: Sheets, royalties: seq<string>) {
    && "Combined Sales" in sheets
    && "Summary" in sheets && sheets["Summary"] == [SUMMARY_HEADER, SUMMARY_ROW]
    && "eBook Royalty" in sheets && sheets["eBook Royalty"] == [ROYALTY_HEADER] + LinesOf(royalties)
    && "Paperback Royalty" in sheets && sheets["Paperback Royalty"] == [ROYALTY_HEADER]
    && "Hardcover Royalty" in sheets && sheets["Hardcover Royalty"] == [ROYALTY_HEADER]
    && "Orders Processed" in sheets && sheets["Orders Processed"] == [ORDERS_HEADER]
    && "KENP" in sheets && sheets["KENP"] == [PAGES_HEADER]
  }

  lemma ReportOfIsReport(royalties: seq<string>)
    ensures IsReport(ReportOf(royalties), royalties)
  {
  }

  function RowOf(amount: real): Row {
    Royalty(Base("2026-01", "Title", "A", "M", "ebook"), 0, 0, 0, amount, "USD", "Sale")
  }

  function RowsFor(amounts: seq<real>): seq<Row> {
    seq(|amounts|, i requires 0 <= i < |amounts| => RowOf(amounts[i]))
  }

  /** The running total of a list of amounts. */
  function Sum(fix: Arithmetic, amounts: seq<real>): real {
    if amounts == [] then 0.0 else fix(Sum(fix, amounts[..|amounts| - 1]) + amounts[|amounts| - 1])
  }

  /** `amounts` are what the cells are read as. */
  predicate AreRead(fix: Arithmetic, royalties: seq<string>, amounts: seq<real>) {
    |royalties| == |amounts| && forall i :: 0 <= i < |amounts| ==> Number(fix, royalties[i]) == Some(amounts[i])
  }

  lemma ZeroIsRead(fix: Arithmetic)
    requires Faithful(fix)
    ensures Written("0") == Some(0.0) && Number(fix, "0") == Some(0.0) && Units(fix, "0") == Some(0)
  {
    assert "0"[..1] == "0";
    IntegersAreRead(fix, "0");
  }

  lemma RecordsOf(header: seq<string>, lines: seq<seq<string>>, required: set<string>)
    requires Distinct(header) && forall name :: name in required ==> name in header
    requires forall line :: line in lines ==> |line| == |header|
    ensures Records([header] + lines, required).Some?
    ensures |Records([header] + lines, required).value| == |lines|
    ensures forall i :: 0 <= i < |lines| ==> Records([header] + lines, required).value[i] == ZipTo(header, lines[i], |header|)
  {
    assert ([header] + lines)[1..] == lines;
  }

  lemma HeaderAlone(header: seq<string>, required: set<string>)
    requires Distinct(header) && forall name :: name in required ==> name in header
    ensures Records([header], required) == Some([])
  {
    RecordsOf(header, [], required);
    assert [header] + [] == [header];
  }

  lemma RoyaltyHeaderFits()
    ensures Distinct(ROYALTY_HEADER) && forall name :: name in RoyaltyColumns("ASIN") ==> name in ROYALTY_HEADER
  {
  }

  function LineRecord(royalty: string): Record {
    ZipTo(ROYALTY_HEADER, LineOf(royalty), 10)
  }

  lemma LineCell(royalty: string, c: nat)
    requires c < 10
    ensures Field(LineRecord(royalty), ROYALTY_HEADER[c]) == LineOf(royalty)[c]
    ensures ROYALTY_HEADER[c] in LineRecord(royalty)
  {
    RoyaltyHeaderFits();
    ZipFindsColumn(ROYALTY_HEADER, LineOf(royalty), 10, c);
  }

  lemma LineIsRead(fix: Arithmetic, royalty: string)
    requires Faithful(fix) && Number(fix, royalty).Some?
    ensures RoyaltyRow(fix, LineRecord(royalty), "ASIN", "ebook", JANUARY) == Some(RowOf(Number(fix, royalty).value))
  {
    var record := LineRecord(royalty);
    LineCell(royalty, 0);
    LineCell(royalty, 1);
    LineCell(royalty, 2);
    LineCell(royalty, 3);
    LineCell(royalty, 4);
    LineCell(royalty, 5);
    LineCell(royalty, 6);
    LineCell(royalty, 7);
    LineCell(royalty, 8);
    LineCell(royalty, 9);
    ZeroIsRead(fix);
    NetIsNotRounded(fix, 0.0, 0);
    assert BaseOf(record, "Royalty Date", "ASIN", "ebook", JANUARY) == Some(Base("2026-01", "Title", "A", "M", "ebook"));
  }

  lemma EbookRecords(royalties: seq<string>)
    ensures
      var records := Records([ROYALTY_HEADER] + LinesOf(royalties), RoyaltyColumns("ASIN"));
      && records.Some? && |records.value| == |royalties|
      && forall i :: 0 <= i < |royalties| ==> records.value[i] == LineRecord(royalties[i])
  {
    RoyaltyHeaderFits();
    RecordsOf(ROYALTY_HEADER, LinesOf(royalties), RoyaltyColumns("ASIN"));
  }

  lemma RoyaltySheetIsAsin(sheets: Sheets, k: nat)
    requires k < |ROYALTY_SHEETS| && ROYALTY_SHEETS[k].0 in sheets
    requires sheets[ROYALTY_SHEETS[k].0] != [] && sheets[ROYALTY_SHEETS[k].0][0] == ROYALTY_HEADER
    ensures RoyaltyKind(sheets, k) == RoyaltyLine("ASIN", ROYALTY_SHEETS[k].1)
    ensures RoyaltyLines(sheets, k) == Records(sheets[ROYALTY_SHEETS[k].0], RoyaltyColumns("ASIN"))
  {
    assert ROYALTY_HEADER[2] == "ASIN";
  }

  lemma EbookLines(sheets: Sheets, royalties: seq<string>)
    requires IsReport(sheets, royalties)
    ensures RoyaltyKind(sheets, 0) == RoyaltyLine("ASIN", "ebook")
    ensures RoyaltyLines(sheets, 0).Some?
    ensures
      var lines := RoyaltyLines(sheets, 0).value;
      |lines| == |royalties| && forall i :: 0 <= i < |royalties| ==> lines[i] == LineRecord(royalties[i])
  {
    EbookRecords(royalties);
    RoyaltySheetIsAsin(sheets, 0);
  }

  lemma OtherLines(sheets: Sheets, royalties: seq<string>, k: nat)
    requires IsReport(sheets, royalties) && 1 <= k < |ROYALTY_SHEETS|
    ensures RoyaltyLines(sheets, k) == Some([])
  {
    RoyaltyHeaderFits();
    HeaderAlone(ROYALTY_HEADER, RoyaltyColumns("ASIN"));
    RoyaltySheetIsAsin(sheets, k);
  }

  lemma OrdersHeaderFits()
    ensures Records([ORDERS_HEADER], {"Date", "Title", "ASIN", "Marketplace", "Paid Units", "Free Units"}) == Some([])
  {
    assert Distinct(ORDERS_HEADER);
    HeaderAlone(ORDERS_HEADER, {"Date", "Title", "ASIN", "Marketplace", "Paid Units", "Free Units"});
  }

  lemma PagesHeaderFits()
    ensures Records([PAGES_HEADER], {"Date", "Title", "eBook ASIN", "Marketplace", "Kindle+ Pages Read",
                                     "Kindle+ Pages Listened", "Total Kindle+ Pages Read and Listened"}) == Some([])
  {
    assert Distinct(PAGES_HEADER);
    HeaderAlone(PAGES_HEADER, {"Date", "Title", "eBook ASIN", "Marketplace", "Kindle+ Pages Read",
                               "Kindle+ Pages Listened", "Total Kindle+ Pages Read and Listened"});
  }

  lemma NoActivity(sheets: Sheets, royalties: seq<string>)
    requires IsReport(sheets, royalties)
    ensures OrderLines(sheets) == Some([]) && PageLines(sheets) == Some([])
  {
    OrdersHeaderFits();
    PagesHeaderFits();
  }

  lemma {:induction false} CollectAll(results: seq<Option<Row>>, rows: seq<Row>)
    requires |results| == |rows| && forall i :: 0 <= i < |rows| ==> results[i] == Some(rows[i])
    ensures Collect(results) == Some(rows)
  {
    if rows != [] {
      var n := |rows| - 1;
      CollectAll(results[..n], rows[..n]);
      assert rows == rows[..n] + [rows[n]];
    }
  }

  lemma NothingToRead(fix: Arithmetic, kind: LineKind)
    ensures RowsOf(fix, kind, Some([]), JANUARY) == Some([])
  {
    assert ReadEach(fix, kind, [], JANUARY) == [];
  }

  lemma EbookRows(fix: Arithmetic, lines: seq<Record>, royalties: seq<string>, amounts: seq<real>)
    requires Faithful(fix) && AreRead(fix, royalties, amounts)
    requires |lines| == |royalties| && forall i :: 0 <= i < |royalties| ==> lines[i] == LineRecord(royalties[i])
    ensures ParseLines(fix, RoyaltyLine("ASIN", "ebook"), lines, JANUARY) == Some(RowsFor(amounts))
  {
    var kind := RoyaltyLine("ASIN", "ebook");
    forall i | 0 <= i < |lines|
      ensures ParseLine(fix, kind, lines[i], JANUARY) == Some(RowOf(amounts[i]))
    {
      LineIsRead(fix, royalties[i]);
    }
    CollectAll(ReadEach(fix, kind, lines, JANUARY), RowsFor(amounts));
  }

  lemma NothingAdded(fix: Arithmetic, sheets: Sheets, k: nat, rows: seq<Row>)
    requires k < |ROYALTY_SHEETS| && RoyaltyLines(sheets, k) == Some([])
    requires RoyaltiesTo(fix, sheets, k, JANUARY) == Some(rows)
    ensures RoyaltiesTo(fix, sheets, k + 1, JANUARY) == Some(rows)
  {
    RoyaltiesStep(fix, sheets, k, JANUARY);
    NothingToRead(fix, RoyaltyKind(sheets, k));
    assert rows + [] == rows;
  }

  lemma RowsOfReport(fix: Arithmetic, sheets: Sheets, royalties: seq<string>, amounts: seq<real>)
    requires Faithful(fix) && AreRead(fix, royalties, amounts) && IsReport(sheets, royalties)
    ensures Royalties(fix, sheets, JANUARY) == Some(RowsFor(amounts))
    ensures AllRows(fix, sheets, JANUARY) == Some(RowsFor(amounts))
  {
    EbookLines(sheets, royalties);
    EbookRows(fix, RoyaltyLines(sheets, 0).value, royalties, amounts);
    RoyaltiesStep(fix, sheets, 0, JANUARY);
    assert [] + RowsFor(amounts) == RowsFor(amounts) && RowsFor(amounts) + [] == RowsFor(amounts);
    OtherLines(sheets, royalties, 1);
    NothingAdded(fix, sheets, 1, RowsFor(amounts));
    OtherLines(sheets, royalties, 2);
    NothingAdded(fix, sheets, 2, RowsFor(amounts));
    NoActivity(sheets, royalties);
    NothingToRead(fix, OrdersLine);
    NothingToRead(fix, PagesLine);
  }

  function SummaryRecord(): Record {
    ZipTo(SUMMARY_HEADER, SUMMARY_ROW, 3)
  }

  lemma SummaryCells()
    ensures SummaryRecord().Keys == {"Date", "Royalty (USD)", "Net Units Sold (Paperback)"}
    ensures SummaryRecord()["Date"] == "January 2026"
    ensures SummaryRecord()["Royalty (USD)"] == "0" && SummaryRecord()["Net Units Sold (Paperback)"] == "0"
  {
    assert Distinct(SUMMARY_HEADER);
    ZipFindsColumn(SUMMARY_HEADER, SUMMARY_ROW, 3, 0);
    ZipFindsColumn(SUMMARY_HEADER, SUMMARY_ROW, 3, 1);
    ZipFindsColumn(SUMMARY_HEADER, SUMMARY_ROW, 3, 2);
    ZipHasOnlyHeaders(SUMMARY_HEADER, SUMMARY_ROW, 3);
  }

  lemma SummaryLine()
    ensures Records([SUMMARY_HEADER, SUMMARY_ROW], SUMMARY_COLUMNS) == Some([SummaryRecord()])
  {
    assert Distinct(SUMMARY_HEADER) && forall name :: name in SUMMARY_COLUMNS ==> name in SUMMARY_HEADER;
    RecordsOf(SUMMARY_HEADER, [SUMMARY_ROW], SUMMARY_COLUMNS);
    assert [SUMMARY_HEADER] + [SUMMARY_ROW] == [SUMMARY_HEADER, SUMMARY_ROW];
    var lines := Records([SUMMARY_HEADER, SUMMARY_ROW], SUMMARY_COLUMNS).value;
    assert lines == [lines[0]];
  }

  lemma NamesJanuary()
    ensures NamesPeriod("January 2026", JANUARY)
  {
    assert NumberText(2) == "2";
    assert NumberText(20) == "20";
    assert NumberText(202) == "202";
    assert NumberText(2026) == "2026";
  }

  lemma SummaryOfReport(sheets: Sheets, royalties: seq<string>)
    requires IsReport(sheets, royalties)
    ensures SheetRecords(sheets, "Summary", SUMMARY_COLUMNS) == Some([SummaryRecord()])
    ensures SummaryOf(sheets, JANUARY) == Some(SummaryRecord())
  {
    SummaryLine();
    SummaryCells();
    NamesJanuary();
  }

  // ------------------------------------------------------------- acceptance

  lemma {:induction false} TotalOfReport(fix: Arithmetic, amounts: seq<real>)
    ensures Total(fix, RowsFor(amounts), "USD") == Sum(fix, amounts)
  {
    if amounts != [] {
      var n := |amounts| - 1;
      TotalOfReport(fix, amounts[..n]);
      assert RowsFor(amounts)[..n] == RowsFor(amounts[..n]);
    }
  }

  lemma {:induction false} NoUnitsInReport(amounts: seq<real>, format: string)
    ensures UnitTotal(RowsFor(amounts), format, NetUnits) == 0
  {
    if amounts != [] {
      var n := |amounts| - 1;
      NoUnitsInReport(amounts[..n], format);
      assert RowsFor(amounts)[..n] == RowsFor(amounts[..n]);
    }
  }

  lemma OnlyDollars(column: string)
    requires column in SummaryRecord()
    ensures CurrencyOf(column).Some? ==> column == "Royalty (USD)" && CurrencyOf(column) == Some("USD")
  {
    SummaryCells();
    assert |"Date"| != 13 && |"Net Units Sold (Paperback)"| != 13;
    assert "Royalty (USD)"[9..12] == "USD";
  }

  lemma DollarColumn()
    ensures RoyaltyColumn("USD") == "Royalty (USD)" && CurrencyOf("Royalty (USD)") == Some("USD")
  {
    assert "Royalty (" + "USD" + ")" == "Royalty (USD)";
    ColumnNamesItsCurrency("USD", "");
    assert ThreeCapitals("USD");
  }

  lemma UnitsReconciled(fix: Arithmetic, summary: Record, amounts: seq<real>)
    requires Faithful(fix) && summary == SummaryRecord()
    ensures forall k :: 0 <= k < |UNIT_COLUMNS| && UNIT_COLUMNS[k].0 in summary ==>
              Number(fix, summary[UNIT_COLUMNS[k].0]) == Some(UnitTotal(RowsFor(amounts), UNIT_COLUMNS[k].1, NetUnits) as real)
  {
    SummaryCells();
    NoUnitsInReport(amounts, "paperback");
    ZeroIsRead(fix);
  }

  lemma ReconciledReport(fix: Arithmetic, amounts: seq<real>)
    requires Faithful(fix)
    ensures Reconciled(fix, SummaryRecord(), RowsFor(amounts)) <==> Near(fix, "0", Sum(fix, amounts))
  {
    var summary, rows := SummaryRecord(), RowsFor(amounts);
    SummaryCells();
    DollarColumn();
    TotalOfReport(fix, amounts);
    UnitsReconciled(fix, summary, amounts);
    forall column | column in summary && CurrencyOf(column).Some?
      ensures column == "Royalty (USD)" && CurrencyOf(column).value == "USD"
    {
      OnlyDollars(column);
    }
    forall currency | Emitted(rows, currency)
      ensures currency == "USD"
    {
    }
  }

  /** A report is accepted exactly if the running total of its cells is within the tolerance of zero. */
  lemma ReportIsAccepted(fix: Arithmetic, sheets: Sheets, royalties: seq<string>, amounts: seq<real>)
    requires Faithful(fix) && AreRead(fix, royalties, amounts) && |royalties| <= RESULT_LIMIT && IsReport(sheets, royalties)
    ensures SummaryOf(sheets, JANUARY) == Some(SummaryRecord())
    ensures AllRows(fix, sheets, JANUARY) == Some(RowsFor(amounts))
    ensures Acceptable(fix, sheets, JANUARY) <==> Near(fix, "0", Sum(fix, amounts))
  {
    RowsOfReport(fix, sheets, royalties, amounts);
    SummaryOfReport(sheets, royalties);
    ReconciledReport(fix, amounts);
  }

  lemma LinesFit(lines: seq<Record>, royalties: seq<string>, d: nat)
    requires forall royalty :: royalty in royalties ==> FractionDigits(royalty) <= d
    requires |lines| == |royalties| && forall i :: 0 <= i < |royalties| ==> lines[i] == LineRecord(royalties[i])
    ensures forall record :: record in lines ==> LineFits(record, d)
  {
    forall i | 0 <= i < |lines|
      ensures LineFits(lines[i], d)
    {
      LineCell(royalties[i], 7);
      assert royalties[i] in royalties;
    }
  }

  lemma SummaryLineFits(d: nat)
    ensures SummaryFits(SummaryRecord(), d)
  {
    SummaryCells();
    forall column | column in SummaryRecord() && CurrencyOf(column).Some?
      ensures FractionDigits(SummaryRecord()[column]) <= d
    {
      OnlyDollars(column);
    }
  }

  lemma ReportFits(sheets: Sheets, royalties: seq<string>, d: nat)
    requires IsReport(sheets, royalties) && forall royalty :: royalty in royalties ==> FractionDigits(royalty) <= d
    ensures FewPlaces(sheets, d)
  {
    EbookLines(sheets, royalties);
    LinesFit(RoyaltyLines(sheets, 0).value, royalties, d);
    OtherLines(sheets, royalties, 1);
    OtherLines(sheets, royalties, 2);
    SummaryOfReport(sheets, royalties);
    SummaryLineFits(d);
    assert SheetRecords(sheets, "Summary", SUMMARY_COLUMNS).value == [SummaryRecord()];
    forall k | 0 <= k < |ROYALTY_SHEETS| && RoyaltyLines(sheets, k).Some?
      ensures forall record :: record in RoyaltyLines(sheets, k).value ==> LineFits(record, d)
    {
      assert k == 0 || k == 1 || k == 2;
    }
  }

  // ------------------------------------------------------------- the cells

  function Repeat<T>(x: T, n: nat): seq<T> {
    seq(n, _ => x)
  }

  /** 0.005 and `zeros` zeros and a one. */
  function JustAbove(zeros: nat): string {
    "0." + ("005" + Repeat('0', zeros) + "1")
  }

  lemma DigitsAppend(s: string, c: char)
    requires (forall i :: 0 <= i < |s| ==> '0' <= s[i] <= '9') && '0' <= c <= '9'
    ensures Digits(s + [c]) == Digits(s) * 10 + (c - '0') as nat
  {
    assert (s + [c])[..|s|] == s;
  }

  lemma {:induction false} DigitsOfZeros(s: string, n: nat)
    requires forall i :: 0 <= i < |s| ==> '0' <= s[i] <= '9'
    ensures Digits(s + Repeat('0', n)) as real == Shifted(Digits(s) as real, n)
  {
    if n == 0 {
      assert s + Repeat('0', 0) == s;
    } else {
      DigitsOfZeros(s, n - 1);
      DigitsAppend(s + Repeat('0', n - 1), '0');
      assert s + Repeat('0', n) == s + Repeat('0', n - 1) + ['0'];
    }
  }

  lemma {:induction false} DigitsOfNines(n: nat)
    ensures Digits(Repeat('9', n)) as real + 1.0 == Shifted(1.0, n)
  {
    if n > 0 {
      DigitsOfNines(n - 1);
      DigitsAppend(Repeat('9', n - 1), '9');
      assert Repeat('9', n) == Repeat('9', n - 1) + ['9'];
    }
  }

  lemma {:induction false} PointFound(whole: string, rest: string)
    requires forall i :: 0 <= i < |whole| ==> whole[i] != '.'
    ensures PointOf(whole + ['.'] + rest) == |whole|
    ensures PointOf(whole) == |whole|
  {
    if whole != "" {
      assert (whole + ['.'] + rest)[1..] == whole[1..] + ['.'] + rest;
      PointFound(whole[1..], rest);
    }
  }

  lemma WholeIsWritten(whole: string)
    requires IsDigits(whole)
    ensures Written(whole) == Some(Digits(whole) as real) && FractionDigits(whole) == 0
    ensures Written("-" + whole) == Some(-(Digits(whole) as real)) && FractionDigits("-" + whole) == 0
  {
    PointFound(whole, "");
    assert whole[..|whole|] == whole && ("-" + whole)[1..] == whole;
  }

  lemma UnsignedIsWritten(s: string)
    requires s != "" && s[0] != '-'
    ensures Written(s) == Magnitude(s)
  {
  }

  lemma FractionIsWritten(s: string, whole: string, fraction: string)
    requires IsDigits(whole) && IsDigits(fraction) && s == whole + ['.'] + fraction
    ensures Written(s) == Parts(whole, fraction)
    ensures FractionDigits(s) == |fraction|
  {
    PointFound(whole, fraction);
    FractionHasMagnitude(s, whole, fraction);
    assert s[0] == whole[0];
    UnsignedIsWritten(s);
  }

  lemma FractionHasMagnitude(s: string, whole: string, fraction: string)
    requires s == whole + ['.'] + fraction && PointOf(s) == |whole|
    ensures Magnitude(s) == Parts(whole, fraction)
  {
    assert s[..|whole|] == whole && s[|whole| + 1..] == fraction;
  }

  lemma NegativeIsWritten(s: string)
    requires s != "" && s[0] != '-' && Written(s).Some?
    ensures Written("-" + s) == Some(-Written(s).value)
  {
    assert ("-" + s)[1..] == s;
  }

  lemma {:induction false} ShiftedOfSum(x: real, p: nat, q: nat)
    ensures Shifted(x, p + q) == Shifted(Shifted(x, p), q)
  {
    if q > 0 {
      ShiftedOfSum(x, p, q - 1);
    }
  }

  lemma ShiftedByThree(x: real)
    ensures Shifted(x, 3) == 1000.0 * x
  {
    assert Shifted(x, 1) == 10.0 * x;
    assert Shifted(x, 2) == 100.0 * x;
  }

  lemma DigitsJustAbove(zeros: nat, tail: real)
    requires Shifted(tail, zeros + 4) == 1.0
    ensures
      var fraction := "005" + Repeat('0', zeros) + "1";
      IsDigits(fraction) && Digits(fraction) as real == Shifted(0.005 + tail, zeros + 4)
  {
    assert Digits("005") == 5 by {
      assert "005"[..2] == "00" && "00"[..1] == "0" && "0"[..0] == "";
    }
    DigitsOfZeros("005", zeros);
    DigitsAppend("005" + Repeat('0', zeros), '1');
    ShiftedOfSum(0.005, 3, zeros + 1);
    ShiftedByThree(0.005);
    ShiftedIsLinear(0.005, tail, zeros + 4);
  }

  lemma BelowOneIsWritten(s: string, fraction: string, x: real)
    requires IsDigits(fraction) && s == "0." + fraction && Digits(fraction) as real == Shifted(x, |fraction|)
    ensures Written(s) == Some(x) && FractionDigits(s) == |fraction|
  {
    BackOfShifted(x, |fraction|);
    assert Digits("0") == 0 by {
      assert "0"[..0] == "";
    }
    assert s == "0" + ['.'] + fraction;
    FractionIsWritten(s, "0", fraction);
  }

  lemma JustAboveIsWritten(zeros: nat, tail: real)
    requires Shifted(tail, zeros + 4) == 1.0
    ensures Written(JustAbove(zeros)) == Some(0.005 + tail)
    ensures FractionDigits(JustAbove(zeros)) == zeros + 4
  {
    DigitsJustAbove(zeros, tail);
    BelowOneIsWritten(JustAbove(zeros), "005" + Repeat('0', zeros) + "1", 0.005 + tail);
  }

  const NINES: string := Repeat('9', 12)
  const MOST: real := 999999999999.0

  lemma NinesAreWritten()
    ensures Written(NINES) == Some(MOST) && Written("-" + NINES) == Some(-MOST)
    ensures FractionDigits(NINES) == 0 && FractionDigits("-" + NINES) == 0
  {
    DigitsOfNines(12);
    ShiftedByTwelve(1.0);
    WholeIsWritten(NINES);
  }

  // --------------------------------------- one cell, thirty-five fraction digits

  const TINY: real := 0.00000000000000000000000000000000001

  lemma TinyShifted()
    ensures Shifted(TINY, 30) == 0.00001 && Shifted(TINY, 31) == 0.0001 && Shifted(TINY, 35) == 1.0
    ensures Shifted(0.005, 30) == 5000000000000000000000000000.0
  {
    ShiftedOfSum(TINY, 12, 12);
    ShiftedOfSum(TINY, 24, 3);
    ShiftedOfSum(TINY, 27, 3);
    ShiftedOfSum(TINY, 30, 3);
    ShiftedOfSum(0.005, 12, 12);
    ShiftedOfSum(0.005, 24, 3);
    ShiftedOfSum(0.005, 27, 3);
    ShiftedByTwelve(TINY);
    ShiftedByTwelve(Shifted(TINY, 12));
    ShiftedByThree(Shifted(TINY, 24));
    ShiftedByThree(Shifted(TINY, 27));
    ShiftedByThree(Shifted(TINY, 30));
    ShiftedByTwelve(0.005);
    ShiftedByTwelve(Shifted(0.005, 12));
    ShiftedByThree(Shifted(0.005, 24));
    ShiftedByThree(Shifted(0.005, 27));
  }

  lemma TinyIsRoundedAway()
    ensures Fix(0.005 + TINY) == 0.005
  {
    var x := 0.005 + TINY;
    TinyShifted();
    ShiftedIsLinear(0.005, TINY, 30);
    ShiftedIsLinear(0.005, TINY, 31);
    StopsAtPlace(x, 0, 30);
    FixBelowFull(x);
    assert HalfEven(Shifted(x, 30)) == 5000000000000000000000000000;
    BackOfShifted(0.005, 30);
  }

  lemma HalfCentIsOnGrid()
    ensures OnGrid(0.005, GRID) && OnGrid(-0.005, GRID) && OnGrid(0.0, GRID)
  {
    ShiftedByTwelve(0.005);
    ShiftedByTwelve(-0.005);
    ShiftedByTwelve(0.0);
    IsIntIf(Shifted(0.005, GRID), 5000000000);
    IsIntIf(Shifted(-0.005, GRID), -5000000000);
  }

  lemma HalfCentIsKept()
    ensures Fix(-0.005) == -0.005 && Fix(0.005) == 0.005 && Fix(0.0) == 0.0
    ensures OnGrid(0.005, GRID)
  {
    HalfCentIsOnGrid();
    FixIsDependable();
  }

  lemma NearZeroMeans(total: real)
    ensures Near(Exactly, "0", total) <==> Absolute(total) <= TOLERANCE
    ensures Near(Fix, "0", 0.005)
  {
    BothAreFaithful();
    ZeroIsRead(Exactly);
    ZeroIsRead(Fix);
    HalfCentIsKept();
  }

  /** A report that is within the tolerance of zero in the program's arithmetic and not exactly. */
  lemma ExcessIsAccepted(sheets: Sheets, royalties: seq<string>, amounts: seq<real>)
    requires IsReport(sheets, royalties) && |royalties| <= RESULT_LIMIT
    requires AreRead(Fix, royalties, amounts) && Near(Fix, "0", Sum(Fix, amounts)) && !Near(Exactly, "0", Sum(Exactly, amounts))
    ensures Acceptable(Fix, sheets, JANUARY) && !Conserves(sheets, JANUARY)
  {
    BothAreFaithful();
    ReportIsAccepted(Fix, sheets, royalties, amounts);
    ReconciledReport(Exactly, amounts);
  }

  lemma TinyExcessIsRead()
    ensures AreRead(Fix, [JustAbove(31)], [0.005 + TINY])
    ensures Sum(Fix, [0.005 + TINY]) == 0.005 && Sum(Exactly, [0.005 + TINY]) == 0.005 + TINY
  {
    TinyShifted();
    JustAboveIsWritten(31, TINY);
    TinyIsRoundedAway();
    assert [0.005 + TINY][..0] == [];
  }

  /**
   A single royalty of 0.005 and 10^-35 against a Summary of zero: the program accepts, and
   the emitted royalty is more than half a cent away.
   */
  lemma TinyExcessIsAccepted()
    ensures
      var sheets := ReportOf([JustAbove(31)]);
      Acceptable(Fix, sheets, JANUARY) && !Conserves(sheets, JANUARY)
  {
    ReportOfIsReport([JustAbove(31)]);
    TinyExcessIsRead();
    NearZeroMeans(0.005 + TINY);
    ExcessIsAccepted(ReportOf([JustAbove(31)]), [JustAbove(31)], [0.005 + TINY]);
  }

  // ------------------------------- thirteen fraction digits, among large amounts

  const COPIES := 1001
  const LARGE: real := 1000999999998999.0     // 1001 times 999999999999
  const STEP: real := 0.0000000000001

  /** 1001 large royalties, one of 0.0050000000001, and 1001 that take the large ones back. */
  function LargeCells(): seq<string> {
    Repeat(NINES, COPIES) + [JustAbove(9)] + Repeat("-" + NINES, COPIES)
  }

  function LargeAmounts(): seq<real> {
    Repeat(MOST, COPIES) + [0.005 + STEP] + Repeat(-MOST, COPIES)
  }

  function Times(k: nat, x: real): real {
    if k == 0 then 0.0 else Times(k - 1, x) + x
  }

  lemma {:induction false} TimesMost(k: nat)
    ensures Times(k, MOST) == 999999999999.0 * k as real && Times(k, -MOST) == -999999999999.0 * k as real
    ensures IsInt(Times(k, MOST)) && IsInt(Times(k, -MOST))
  {
    if k > 0 {
      TimesMost(k - 1);
      assert k as real == (k - 1) as real + 1.0;
    }
    IsIntIf(Times(k, MOST), 999999999999 * k);
    IsIntIf(Times(k, -MOST), -999999999999 * k);
  }

  predicate Unrounded(fix: Arithmetic, start: real, x: real, n: nat) {
    forall k :: 1 <= k <= n ==> fix(start + Times(k, x)) == start + Times(k, x)
  }

  lemma {:induction false} SumOfRepeat(fix: Arithmetic, before: seq<real>, x: real, n: nat)
    requires Unrounded(fix, Sum(fix, before), x, n)
    ensures Sum(fix, before + Repeat(x, n)) == Sum(fix, before) + Times(n, x)
  {
    if n == 0 {
      assert before + Repeat(x, 0) == before;
    } else {
      SumOfRepeat(fix, before, x, n - 1);
      var amounts := before + Repeat(x, n);
      assert amounts[..|amounts| - 1] == before + Repeat(x, n - 1);
      assert Sum(fix, before) + Times(n - 1, x) + x == Sum(fix, before) + Times(n, x);
    }
  }

  lemma MoneyIsUnrounded(start: real, x: real, n: nat)
    requires OnGrid(start, GRID) && (x == MOST || x == -MOST) && Absolute(start) <= 2000000000000000.0 && n <= COPIES
    ensures Unrounded(Fix, start, x, n)
  {
    FixIsDependable();
    forall k | 1 <= k <= n
      ensures Fix(start + Times(k, x)) == start + Times(k, x)
    {
      TimesMost(k);
      GridIsFiner(Times(k, x), 0, GRID);
      GridIsClosed(start, Times(k, x), GRID);
    }
  }

  lemma StepShifted()
    ensures Shifted(STEP, 12) == 0.1 && Shifted(STEP, 13) == 1.0
  {
    ShiftedByTwelve(STEP);
    assert Shifted(STEP, 13) == 10.0 * Shifted(STEP, 12);
  }

  lemma LargeIsOnGrid()
    ensures OnGrid(LARGE + 0.005, GRID) && Shifted(LARGE + 0.005, 12) == 1000999999998999005000000000.0
  {
    ShiftedByTwelve(LARGE + 0.005);
    IsIntIf(Shifted(LARGE + 0.005, GRID), 1000999999998999005000000000);
  }

  /** Next to the large amounts the thirteenth digit is rounded away. */
  lemma StepIsRoundedAway()
    ensures Fix(LARGE + (0.005 + STEP)) == LARGE + 0.005
  {
    var kept := LARGE + 0.005;
    var x := LARGE + (0.005 + STEP);
    assert x == kept + STEP;
    StepShifted();
    LargeIsOnGrid();
    ShiftedIsLinear(kept, STEP, 12);
    assert Shifted(x, 13) == 10.0 * Shifted(x, 12);
    StopsAtPlace(x, 0, 12);
    FixBelowFull(x);
    assert HalfEven(Shifted(x, 12)) == 1000999999998999005000000000;
    BackOfShifted(kept, 12);
  }

  lemma LargeSum()
    ensures Sum(Fix, LargeAmounts()) == 0.005
  {
    var up, middle := Repeat(MOST, COPIES), Repeat(MOST, COPIES) + [0.005 + STEP];
    GridIsFiner(0.0, 0, GRID);
    MoneyIsUnrounded(0.0, MOST, COPIES);
    SumOfRepeat(Fix, [], MOST, COPIES);
    assert [] + up == up;
    TimesMost(COPIES);
    assert Sum(Fix, up) == LARGE;
    assert middle[..COPIES] == up;
    StepIsRoundedAway();
    assert Sum(Fix, middle) == LARGE + 0.005;
    LargeIsOnGrid();
    MoneyIsUnrounded(LARGE + 0.005, -MOST, COPIES);
    SumOfRepeat(Fix, middle, -MOST, COPIES);
  }

  lemma LargeExactSum()
    ensures Sum(Exactly, LargeAmounts()) == 0.005 + STEP
  {
    var up, middle := Repeat(MOST, COPIES), Repeat(MOST, COPIES) + [0.005 + STEP];
    SumOfRepeat(Exactly, [], MOST, COPIES);
    assert [] + up == up;
    TimesMost(COPIES);
    assert middle[..COPIES] == up;
    assert Sum(Exactly, middle) == LARGE + (0.005 + STEP);
    SumOfRepeat(Exactly, middle, -MOST, COPIES);
  }

  lemma LargeCellAt(i: nat)
    requires i < |LargeCells()|
    ensures |LargeCells()| == |LargeAmounts()|
    ensures LargeCells()[i] == if i < COPIES then NINES else if i == COPIES then JustAbove(9) else "-" + NINES
    ensures LargeAmounts()[i] == if i < COPIES then MOST else if i == COPIES then 0.005 + STEP else -MOST
  {
  }

  lemma NinesAreRead()
    ensures Number(Fix, NINES) == Some(MOST) && Number(Fix, "-" + NINES) == Some(-MOST)
  {
    NinesAreWritten();
    BothAreFaithful();
    IntegersAreRead(Fix, NINES);
    IntegersAreRead(Fix, "-" + NINES);
  }

  lemma JustAboveIsRead()
    ensures Number(Fix, JustAbove(9)) == Some(0.005 + STEP) && FractionDigits(JustAbove(9)) == 13
  {
    StepShifted();
    JustAboveIsWritten(9, STEP);
    SmallIsRead(JustAbove(9), 0.005 + STEP);
  }

  lemma LargeCellsAreRead()
    ensures AreRead(Fix, LargeCells(), LargeAmounts())
    ensures forall cell :: cell in LargeCells() ==> FractionDigits(cell) <= 13
  {
    NinesAreWritten();
    NinesAreRead();
    JustAboveIsRead();
    forall i | 0 <= i < |LargeCells()|
      ensures Number(Fix, LargeCells()[i]) == Some(LargeAmounts()[i]) && FractionDigits(LargeCells()[i]) <= 13
    {
      LargeCellAt(i);
    }
  }

  lemma SmallIsRead(s: string, x: real)
    requires Written(s) == Some(x) && Absolute(x) < 1.0
    ensures Number(Fix, s) == Some(x)
  {
    FixIsHalfUnitClose();
    assert Absolute(Fix(Absolute(x)) - Absolute(x)) <= HALF_UNIT;
  }

  /** With thirteen fraction digits an accepted report need not conserve. */
  lemma ThirteenPlacesAreTooMany()
    ensures
      var sheets := ReportOf(LargeCells());
      FewPlaces(sheets, 13) && Acceptable(Fix, sheets, JANUARY) && !Conserves(sheets, JANUARY)
  {
    ReportOfIsReport(LargeCells());
    LargeCellsAreRead();
    ReportFits(ReportOf(LargeCells()), LargeCells(), 13);
    LargeSum();
    LargeExactSum();
    NearZeroMeans(0.005 + STEP);
    ExcessIsAccepted(ReportOf(LargeCells()), LargeCells(), LargeAmounts());
  }

  ghost predicate AllConserve(d: nat) {
    forall sheets, period :: FewPlaces(sheets, d) && Acceptable(Fix, sheets, period) ==> Conserves(sheets, period)
  }

  lemma MorePlaces(sheets: Sheets, d: nat, e: nat)
    requires d <= e && FewPlaces(sheets, d)
    ensures FewPlaces(sheets, e)
  {
  }

  /**
   The exact limit: every accepted report whose royalty cells have at most `d` fraction
   digits conserves, if and only if `d` is at most twelve.
   */
  lemma TwelvePlacesAreTheLimit(d: nat)
    ensures AllConserve(d) <==> d <= 12
  {
    if d <= 12 {
      forall sheets, period | FewPlaces(sheets, d) && Acceptable(Fix, sheets, period)
        ensures Conserves(sheets, period)
      {
        MorePlaces(sheets, d, GRID);
        AcceptedReportConserves(sheets, period);
      }
    } else {
      ThirteenPlacesAreTooMany();
      MorePlaces(ReportOf(LargeCells()), 13, d);
    }
  }

  // ------------------------------------------- the other way: an exact report refused

  /** 999999999999 and twenty-three nines after the point. */
  function Lengthy(): string {
    NINES + ['.'] + Repeat('9', 23)
  }

  const ULP: real := 0.00000000000000000000001

  lemma UlpShifted()
    ensures Shifted(ULP, 16) == 0.0000001 && Shifted(ULP, 17) == 0.000001 && Shifted(ULP, 23) == 1.0
    ensures Shifted(1000000000000.0, 16) == FULL as real
  {
    ShiftedOfSum(ULP, 12, 3);
    ShiftedOfSum(ULP, 15, 3);
    ShiftedOfSum(ULP, 18, 3);
    ShiftedOfSum(1000000000000.0, 12, 3);
    ShiftedByTwelve(ULP);
    ShiftedByThree(Shifted(ULP, 12));
    ShiftedByThree(Shifted(ULP, 15));
    ShiftedByThree(Shifted(ULP, 18));
    ShiftedByTwelve(1000000000000.0);
    ShiftedByThree(Shifted(1000000000000.0, 12));
    assert Shifted(ULP, 16) == 10.0 * Shifted(ULP, 15) && Shifted(ULP, 17) == 10.0 * Shifted(ULP, 16);
    assert Shifted(ULP, 20) == 100.0 * Shifted(ULP, 18);
    assert Shifted(ULP, 21) == 10.0 * Shifted(ULP, 20);
    assert Shifted(ULP, 22) == 10.0 * Shifted(ULP, 21);
    assert Shifted(ULP, 23) == 10.0 * Shifted(ULP, 22);
    assert Shifted(1000000000000.0, 16) == 10.0 * Shifted(1000000000000.0, 15);
  }

  lemma LengthyIsWritten()
    ensures Written(Lengthy()) == Some(1000000000000.0 - ULP)
    ensures Written("-" + Lengthy()) == Some(-(1000000000000.0 - ULP))
  {
    NinesAsParts();
    FractionIsWritten(Lengthy(), NINES, Repeat('9', 23));
    assert Lengthy()[0] == '9';
    NegativeIsWritten(Lengthy());
  }

  lemma NinesAsParts()
    ensures IsDigits(NINES) && IsDigits(Repeat('9', 23))
    ensures Digits(NINES) as real == MOST && Back(Digits(Repeat('9', 23)) as real, 23) == 1.0 - ULP
  {
    DigitsOfNines(12);
    ShiftedByTwelve(1.0);
    UlpShifted();
    DigitsOfNines(23);
    ShiftedIsLinear(1.0, ULP, 23);
    BackOfShifted(1.0 - ULP, 23);
  }

  lemma LengthyRoundsUp()
    ensures Fix(1000000000000.0 - ULP) == 1000000000000.0
  {
    var x := 1000000000000.0 - ULP;
    UlpShifted();
    ShiftedIsLinear(1000000000000.0, ULP, 16);
    assert Shifted(x, 17) == 10.0 * Shifted(x, 16);
    StopsAtPlace(x, 0, 16);
    FixBelowFull(x);
    assert HalfEven(Shifted(x, 16)) == FULL;
    BackOfShifted(1000000000000.0, 16);
  }

  lemma UnreadCellIsRefused(fix: Arithmetic, sheets: Sheets, royalties: seq<string>, i: nat)
    requires IsReport(sheets, royalties) && i < |royalties| && Number(fix, royalties[i]).None?
    ensures !Acceptable(fix, sheets, JANUARY)
  {
    EbookLines(sheets, royalties);
    var lines := RoyaltyLines(sheets, 0).value;
    LineCell(royalties[i], 7);
    assert ParseLine(fix, RoyaltyLine("ASIN", "ebook"), lines[i], JANUARY).None?;
    CollectStops(ReadEach(fix, RoyaltyLine("ASIN", "ebook"), lines, JANUARY), i);
    RoyaltiesStep(fix, sheets, 0, JANUARY);
    RoyaltiesStop(fix, sheets, 1, |ROYALTY_SHEETS|, JANUARY);
  }

  lemma LengthyAddsUp(x: real)
    ensures Sum(Exactly, [x, -x]) == 0.0
  {
    assert [x, -x][..1] == [x] && [x][..0] == [];
    assert Sum(Exactly, [x]) == x;
  }

  lemma LengthyIsReadExactly(x: real)
    requires x == 1000000000000.0 - ULP
    ensures AreRead(Exactly, [Lengthy(), "-" + Lengthy()], [x, -x])
  {
    LengthyIsWritten();
  }

  lemma LengthyIsNotRead()
    ensures Number(Fix, Lengthy()).None?
  {
    LengthyIsWritten();
    LengthyRoundsUp();
  }

  /**
   A royalty of 10^12 less 10^-23 that is taken back again: below the limit of a number and
   adding up to the Summary of zero, but refused, because its absolute value rounds to 10^12.
   */
  lemma ExactReportIsRefused()
    ensures
      var sheets := ReportOf([Lengthy(), "-" + Lengthy()]);
      Acceptable(Exactly, sheets, JANUARY) && !Acceptable(Fix, sheets, JANUARY)
  {
    var x := 1000000000000.0 - ULP;
    var royalties := [Lengthy(), "-" + Lengthy()];
    ReportOfIsReport(royalties);
    LengthyIsNotRead();
    UnreadCellIsRefused(Fix, ReportOf(royalties), royalties, 0);
    BothAreFaithful();
    LengthyIsReadExactly(x);
    LengthyAddsUp(x);
    NearZeroMeans(0.0);
    ReportIsAccepted(Exactly, ReportOf(royalties), royalties, [x, -x]);
  }
}
