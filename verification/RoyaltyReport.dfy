/**
 parse_report of scripts/book-sales/kdp_report.py (lines 24-35 and 104-153): royalty rows,
 orders and pages read of one month, reconciled with the Summary sheet.

 `fix` is what the arithmetic makes of an exact result, wherever the code adds, subtracts or
 takes an absolute value of Decimals: `Decimals.Fix` in the program, the identity for exact
 arithmetic.
 */
module RoyaltyReport {
  import opened Options
  import opened BookWindows
  import opened Decimals
  import opened SheetDecode

  const NUMBER_LIMIT: real := 1000000000000.0
  const TOLERANCE: real := 0.005
  const RESULT_LIMIT := 8000

  // ------------------------------------------------------ numbers and days

  predicate IsDigits(s: string) {
    s != "" && forall i :: 0 <= i < |s| ==> '0' <= s[i] <= '9'
  }

  function Digits(s: string): nat
    requires forall i :: 0 <= i < |s| ==> '0' <= s[i] <= '9'
  {
    if s == "" then 0 else Digits(s[..|s| - 1]) * 10 + (s[|s| - 1] - '0') as nat
  }

  function PointOf(s: string): (i: nat)
    ensures i <= |s| && '.' !in s[..i] && (i < |s| ==> s[i] == '.')
  {
    if s == "" || s[0] == '.' then 0 else 1 + PointOf(s[1..])
  }

  function Whole(s: string): Option<real> {
    if IsDigits(s) then Some(Digits(s) as real) else None
  }

  function Parts(whole: string, fraction: string): Option<real> {
    if IsDigits(whole) && IsDigits(fraction) then
      Some(Digits(whole) as real + Back(Digits(fraction) as real, |fraction|))
    else None
  }

  /** Digits with an optional fraction. */
  function Magnitude(s: string): Option<real> {
    var point := PointOf(s);
    if point == |s| then Whole(s) else Parts(s[..point], s[point + 1..])
  }

  type Arithmetic = real -> real

  function Exactly(x: real): real {
    x
  }

  /** The value a number is written for. */
  function Written(s: string): Option<real> {
    var signed := s != "" && s[0] == '-';
    match Magnitude(if signed then s[1..] else s)
    case None => None
    case Some(x) => Some(if signed then -x else x)
  }

  /** number; None is its exception. */
  function Number(fix: Arithmetic, s: string): Option<real> {
    match Written(s)
    case None => None
    case Some(x) => if fix(Absolute(x)) < NUMBER_LIMIT then Some(x) else None
  }

  /** What is asked of an arithmetic: integers of up to 13 digits are exact, and large numbers stay large. */
  ghost predicate Faithful(fix: Arithmetic) {
    && (forall x :: IsInt(x) && Absolute(x) < 10.0 * NUMBER_LIMIT ==> fix(x) == x)
    && (forall x: real :: x >= NUMBER_LIMIT ==> fix(x) >= NUMBER_LIMIT)
  }

  lemma BothAreFaithful()
    ensures Faithful(Fix) && Faithful(Exactly)
  {
    forall x | IsInt(x) && Absolute(x) < 10.0 * NUMBER_LIMIT
      ensures Fix(x) == x
    {
      FixKeepsInt(x.Floor);
    }
    forall x: real | x >= NUMBER_LIMIT
      ensures Fix(x) >= NUMBER_LIMIT
    {
      FixStaysAbove(x, 1000000000000);
    }
  }

  /** units. */
  function Units(fix: Arithmetic, s: string): Option<int> {
    match Number(fix, s)
    case None => None
    case Some(x) => if IsInt(x) && x >= 0.0 then Some(x.Floor) else None
  }

  predicate ThreeCapitals(s: string) {
    |s| == 3 && forall i :: 0 <= i < 3 ==> 'A' <= s[i] <= 'Z'
  }

  /** A date written YYYY-MM-DD, if the calendar has it. */
  function ParseDay(s: string): Option<Date> {
    if |s| == 10 && s[4] == '-' && s[7] == '-' && IsDigits(s[..4]) && IsDigits(s[5..7]) && IsDigits(s[8..]) then
      var day := Date(Digits(s[..4]), Digits(s[5..7]), Digits(s[8..]));
      if ValidDate(day) then Some(day) else None
    else None
  }

  /** The month asked for, its text, and its last day asked for. */
  datatype Period = Period(text: string, start: Date, end: Date)

  /**
   The guard on month and period end (lines 105-108). `pads` says whether the platform's
   strftime writes years below 1000 with four digits; otherwise their text is no month.
   */
  function ParsePeriod(pads: bool, month: string, end: string): Option<Period> {
    if |month| != 7 then None
    else
      match (ParseDay(month + "-01"), ParseDay(end))
      case (Some(start), Some(last)) =>
        if AtMost(start, last) && MonthOf(last) == MonthOf(start) && (pads || last.year >= 1000) then
          Some(Period(month, start, last))
        else None
      case _ => None
  }

  // ------------------------------------------------------------------ rows

  datatype Base = Base(date: string, title: string, identifier: string, marketplace: string, format: string)

  datatype Row =
    | Royalty(base: Base, sold: int, refunds: int, net: int, amount: real, currency: string, transactionType: string)
    | Orders(base: Base, paid: int, free: int)
    | PagesRead(base: Base, read: int, listened: int)

  predicate DayWithin(day: string, period: Period) {
    day == period.text
    || (ParseDay(day).Some? && AtMost(period.start, ParseDay(day).value) && AtMost(ParseDay(day).value, period.end))
  }

  /** base; None is its exception. The columns are among those records has required. */
  function BaseOf(record: Record, dayColumn: string, identifier: string, format: string, period: Period): Option<Base> {
    if !(dayColumn in record && identifier in record && "Title" in record && "Marketplace" in record) then None
    else if !DayWithin(record[dayColumn], period) then None
    else if record[identifier] == "" || record["Title"] == "" || record["Marketplace"] == "" then None
    else Some(Base(record[dayColumn], record["Title"], record[identifier], record["Marketplace"], format))
  }

  function Field(record: Record, name: string): string {
    if name in record then record[name] else ""
  }

  /** The three unit cells of a royalty line have been read, and net is sold less refunds (lines 128-129). */
  predicate UnitsAreRead(fix: Arithmetic, sold: Option<real>, refunds: Option<int>, net: Option<real>) {
    && sold.Some? && refunds.Some? && net.Some?
    && sold.value >= 0.0 && IsInt(sold.value) && net.value == fix(sold.value - refunds.value as real)
  }

  /** One royalty line (lines 127-134). */
  function RoyaltyRow(fix: Arithmetic, record: Record, identifier: string, format: string, period: Period): Option<Row> {
    var sold, net := Number(fix, Field(record, "Units Sold")), Number(fix, Field(record, "Net Units Sold"));
    var refunds := Units(fix, Field(record, "Units Refunded"));
    var amount, currency := Number(fix, Field(record, "Royalty")), Field(record, "Currency");
    var base := BaseOf(record, "Royalty Date", identifier, format, period);
    if UnitsAreRead(fix, sold, refunds, net) && ThreeCapitals(currency) && amount.Some? && base.Some? then
      Some(Royalty(base.value, sold.value.Floor, refunds.value, net.value.Floor, amount.value, currency,
                   Field(record, "Transaction Type")))
    else None
  }

  /** One line of Orders Processed (lines 145-146). */
  function OrdersRow(fix: Arithmetic, record: Record, period: Period): Option<Row> {
    OrdersFrom(Units(fix, Field(record, "Paid Units")), Units(fix, Field(record, "Free Units")),
               BaseOf(record, "Date", "ASIN", "unknown", period))
  }

  function OrdersFrom(paid: Option<int>, free: Option<int>, base: Option<Base>): Option<Row> {
    if paid.Some? && free.Some? && base.Some? then Some(Orders(base.value, paid.value, free.value)) else None
  }

  /** One line of KENP (lines 148-151). */
  function PagesRow(fix: Arithmetic, record: Record, period: Period): Option<Row> {
    PagesFrom(Units(fix, Field(record, "Kindle+ Pages Read")), Units(fix, Field(record, "Kindle+ Pages Listened")),
              Units(fix, Field(record, "Total Kindle+ Pages Read and Listened")),
              BaseOf(record, "Date", "eBook ASIN", "ebook", period))
  }

  function PagesFrom(read: Option<int>, listened: Option<int>, total: Option<int>, base: Option<Base>): Option<Row> {
    if read.Some? && listened.Some? && total.Some? && base.Some? && read.value + listened.value == total.value then
      Some(PagesRead(base.value, read.value, listened.value))
    else None
  }

  // --------------------------------------------------------- totals of rows

  /** The royalties of a currency, summed over the emitted rows in their order. */
  function Total(fix: Arithmetic, rows: seq<Row>, currency: string): real {
    if rows == [] then 0.0
    else
      var n := |rows| - 1;
      var before := Total(fix, rows[..n], currency);
      if rows[n].Royalty? && rows[n].currency == currency then fix(before + rows[n].amount) else before
  }

  datatype Unit = SoldUnits | RefundedUnits | NetUnits

  function UnitsOfRow(row: Row, format: string, unit: Unit): int {
    if row.Royalty? && row.base.format == format then
      match unit
      case SoldUnits => row.sold
      case RefundedUnits => row.refunds
      case NetUnits => row.net
    else 0
  }

  function UnitTotal(rows: seq<Row>, format: string, unit: Unit): int {
    if rows == [] then 0
    else UnitTotal(rows[..|rows| - 1], format, unit) + UnitsOfRow(rows[|rows| - 1], format, unit)
  }

  predicate Emitted(rows: seq<Row>, currency: string) {
    exists row :: row in rows && row.Royalty? && row.currency == currency
  }

  function RoyaltyColumn(currency: string): string {
    "Royalty (" + currency + ")"
  }

  /** The currency a Summary column is about, if it is a royalty column. */
  function CurrencyOf(column: string): Option<string> {
    if |column| == 13 && column[..9] == "Royalty (" && column[12] == ')' && ThreeCapitals(column[9..12]) then
      Some(column[9..12])
    else None
  }

  lemma ColumnNamesItsCurrency(currency: string, column: string)
    ensures ThreeCapitals(currency) ==> CurrencyOf(RoyaltyColumn(currency)) == Some(currency)
    ensures CurrencyOf(column).Some? ==> RoyaltyColumn(CurrencyOf(column).value) == column
  {
    if ThreeCapitals(currency) {
      var c := RoyaltyColumn(currency);
      assert c[..9] == "Royalty (" && c[9..12] == currency && c[12] == ')';
    }
    if CurrencyOf(column).Some? {
      assert column == column[..9] + column[9..12] + [column[12]];
    }
  }

  /** The Summary cell agrees with a total. */
  predicate Near(fix: Arithmetic, cell: string, total: real) {
    Number(fix, cell).Some? && fix(Absolute(fix(Number(fix, cell).value - total))) <= TOLERANCE
  }

  const UNIT_COLUMNS: seq<(string, string)> :=
    [("Net Units Sold (Paperback)", "paperback"), ("Net Units Sold (Hardcover)", "hardcover")]

  /** The reconciliation (lines 136-143), as a statement about the emitted rows. */
  ghost predicate Reconciled(fix: Arithmetic, summary: Record, rows: seq<Row>) {
    && (forall currency :: Emitted(rows, currency) ==>
         RoyaltyColumn(currency) in summary && Near(fix, summary[RoyaltyColumn(currency)], Total(fix, rows, currency)))
    && (forall column :: column in summary && CurrencyOf(column).Some? ==>
         Near(fix, summary[column], Total(fix, rows, CurrencyOf(column).value)))
    && (forall k :: 0 <= k < |UNIT_COLUMNS| && UNIT_COLUMNS[k].0 in summary ==>
         Number(fix, summary[UNIT_COLUMNS[k].0]) == Some(UnitTotal(rows, UNIT_COLUMNS[k].1, NetUnits) as real))
  }

  // -------------------------------------------------- totals: conservation

  /** What every emitted royalty row says about itself. */
  predicate RowHolds(row: Row) {
    row.Royalty? ==>
      && row.sold >= 0 && row.refunds >= 0 && row.net == row.sold - row.refunds
      && Absolute(row.amount) < NUMBER_LIMIT && ThreeCapitals(row.currency)
  }

  lemma NumberIsBelowLimit(fix: Arithmetic, s: string)
    requires Faithful(fix) && Number(fix, s).Some?
    ensures Absolute(Number(fix, s).value) < NUMBER_LIMIT
  {
    BelowIfKeptBelow(fix, Absolute(Written(s).value));
  }

  lemma BelowIfKeptBelow(fix: Arithmetic, x: real)
    requires Faithful(fix) && fix(x) < NUMBER_LIMIT
    ensures x < NUMBER_LIMIT
  {
  }

  /** sold - refunds has few digits, however many zeros the cells are written with. */
  lemma NetIsNotRounded(fix: Arithmetic, sold: real, refunds: int)
    requires Faithful(fix) && IsInt(sold) && 0.0 <= sold < NUMBER_LIMIT && 0 <= refunds && refunds as real < NUMBER_LIMIT
    ensures fix(sold - refunds as real) == (sold.Floor - refunds) as real
  {
    var x := sold - refunds as real;
    IsIntIf(x, sold.Floor - refunds);
    assert fix(x) == x;
  }

  lemma UnitsAreIntegers(fix: Arithmetic, sold: Option<real>, refunds: Option<int>, net: Option<real>)
    requires Faithful(fix) && UnitsAreRead(fix, sold, refunds, net)
    requires sold.value < NUMBER_LIMIT && 0 <= refunds.value && refunds.value as real < NUMBER_LIMIT
    ensures net.value == (sold.value.Floor - refunds.value) as real && IsInt(net.value)
  {
    NetIsNotRounded(fix, sold.value, refunds.value);
    IsIntIf(net.value, sold.value.Floor - refunds.value);
  }

  lemma UnitsAreBelowLimit(fix: Arithmetic, s: string)
    requires Faithful(fix) && Units(fix, s).Some?
    ensures 0 <= Units(fix, s).value && Units(fix, s).value as real < NUMBER_LIMIT
  {
    NumberIsBelowLimit(fix, s);
  }

  lemma RoyaltyRowHolds(fix: Arithmetic, record: Record, identifier: string, format: string, period: Period)
    requires Faithful(fix) && RoyaltyRow(fix, record, identifier, format, period).Some?
    ensures RowHolds(RoyaltyRow(fix, record, identifier, format, period).value)
    ensures RoyaltyRow(fix, record, identifier, format, period).value.Royalty?
  {
    var sold, net := Number(fix, Field(record, "Units Sold")), Number(fix, Field(record, "Net Units Sold"));
    var refunds := Units(fix, Field(record, "Units Refunded"));
    NumberIsBelowLimit(fix, Field(record, "Units Sold"));
    NumberIsBelowLimit(fix, Field(record, "Royalty"));
    UnitsAreBelowLimit(fix, Field(record, "Units Refunded"));
    UnitsAreIntegers(fix, sold, refunds, net);
  }

  /** Net units are sold units minus refunds, in total as in every row. */
  lemma {:induction false} NetIsSoldMinusRefunds(rows: seq<Row>, format: string)
    requires forall row :: row in rows ==> RowHolds(row)
    ensures UnitTotal(rows, format, NetUnits) == UnitTotal(rows, format, SoldUnits) - UnitTotal(rows, format, RefundedUnits)
  {
    if rows != [] {
      var n := |rows| - 1;
      assert rows[n] in rows;
      NetIsSoldMinusRefunds(rows[..n], format);
    }
  }

  lemma {:induction false} TotalIsBounded(rows: seq<Row>, currency: string)
    requires forall row :: row in rows ==> RowHolds(row)
    ensures Absolute(Total(Exactly, rows, currency)) <= |rows| as real * NUMBER_LIMIT
    ensures rows != [] ==> Absolute(Total(Exactly, rows, currency)) < |rows| as real * NUMBER_LIMIT
  {
    if rows != [] {
      var n := |rows| - 1;
      assert rows[n] in rows;
      TotalIsBounded(rows[..n], currency);
      assert |rows| as real == n as real + 1.0;
    }
  }

  lemma {:induction false} UnemittedTotalIsZero(fix: Arithmetic, rows: seq<Row>, currency: string)
    requires !Emitted(rows, currency)
    ensures Total(fix, rows, currency) == 0.0
  {
    if rows != [] {
      var n := |rows| - 1;
      assert rows[n] in rows;
      assert forall row :: row in rows[..n] ==> row in rows;
      UnemittedTotalIsZero(fix, rows[..n], currency);
    }
  }

  // ------------------------------------------------------------- the parser

  const ROYALTY_SHEETS: seq<(string, string)> :=
    [("eBook Royalty", "ebook"), ("Paperback Royalty", "paperback"), ("Hardcover Royalty", "hardcover")]

  type Sheets = map<string, seq<seq<string>>>

  function IdentifierOf(sheets: Sheets, sheet: string): string {
    if sheet in sheets && sheets[sheet] != [] && "ASIN" in sheets[sheet][0] then "ASIN" else "ISBN"
  }

  function RoyaltyColumns(identifier: string): set<string> {
    {"Royalty Date", "Title", identifier, "Marketplace", "Units Sold", "Units Refunded", "Net Units Sold", "Royalty",
     "Currency", "Transaction Type"}
  }

  /** records of a sheet that has to be there. */
  function SheetRecords(sheets: Sheets, sheet: string, required: set<string>): Option<seq<Record>> {
    if sheet in sheets then Records(sheets[sheet], required) else None
  }

  /** How the lines of a sheet are read. */
  datatype LineKind = RoyaltyLine(identifier: string, format: string) | OrdersLine | PagesLine

  function ParseLine(fix: Arithmetic, kind: LineKind, record: Record, period: Period): Option<Row> {
    match kind
    case RoyaltyLine(identifier, format) => RoyaltyRow(fix, record, identifier, format, period)
    case OrdersLine => OrdersRow(fix, record, period)
    case PagesLine => PagesRow(fix, record, period)
  }

  function ReadEach(fix: Arithmetic, kind: LineKind, lines: seq<Record>, period: Period): seq<Option<Row>> {
    seq(|lines|, i requires 0 <= i < |lines| => ParseLine(fix, kind, lines[i], period))
  }

  /** All rows, in order; None if a line failed. */
  function Collect(results: seq<Option<Row>>): Option<seq<Row>> {
    if results == [] then Some([])
    else
      var n := |results| - 1;
      var before := Collect(results[..n]);
      if before.Some? && results[n].Some? then Some(before.value + [results[n].value]) else None
  }

  /** One row for every line, in order; None if a line fails. */
  function ParseLines(fix: Arithmetic, kind: LineKind, lines: seq<Record>, period: Period): Option<seq<Row>> {
    Collect(ReadEach(fix, kind, lines, period))
  }

  lemma {:induction false} CollectStops(results: seq<Option<Row>>, i: nat)
    requires i < |results| && results[i].None?
    ensures Collect(results).None?
  {
    if i < |results| - 1 {
      CollectStops(results[..|results| - 1], i);
    }
  }

  function RoyaltyKind(sheets: Sheets, k: nat): LineKind
    requires k < |ROYALTY_SHEETS|
  {
    RoyaltyLine(IdentifierOf(sheets, ROYALTY_SHEETS[k].0), ROYALTY_SHEETS[k].1)
  }

  function RoyaltyLines(sheets: Sheets, k: nat): Option<seq<Record>>
    requires k < |ROYALTY_SHEETS|
  {
    SheetRecords(sheets, ROYALTY_SHEETS[k].0, RoyaltyColumns(IdentifierOf(sheets, ROYALTY_SHEETS[k].0)))
  }

  function OrderLines(sheets: Sheets): Option<seq<Record>> {
    SheetRecords(sheets, "Orders Processed", {"Date", "Title", "ASIN", "Marketplace", "Paid Units", "Free Units"})
  }

  function PageLines(sheets: Sheets): Option<seq<Record>> {
    SheetRecords(sheets, "KENP", {"Date", "Title", "eBook ASIN", "Marketplace", "Kindle+ Pages Read",
                                  "Kindle+ Pages Listened", "Total Kindle+ Pages Read and Listened"})
  }

  function RowsOf(fix: Arithmetic, kind: LineKind, lines: Option<seq<Record>>, period: Period): Option<seq<Row>> {
    match lines
    case None => None
    case Some(records) => ParseLines(fix, kind, records, period)
  }

  function Append(before: Option<seq<Row>>, rows: Option<seq<Row>>): Option<seq<Row>> {
    if before.Some? && rows.Some? then Some(before.value + rows.value) else None
  }

  /** The royalty rows of the first `k` sheets: one for every line, in sheet and line order. */
  function RoyaltiesTo(fix: Arithmetic, sheets: Sheets, k: nat, period: Period): Option<seq<Row>>
    requires k <= |ROYALTY_SHEETS|
  {
    if k == 0 then Some([])
    else Append(RoyaltiesTo(fix, sheets, k - 1, period),
                RowsOf(fix, RoyaltyKind(sheets, k - 1), RoyaltyLines(sheets, k - 1), period))
  }

  function Royalties(fix: Arithmetic, sheets: Sheets, period: Period): Option<seq<Row>> {
    RoyaltiesTo(fix, sheets, |ROYALTY_SHEETS|, period)
  }

  /** All rows of the report. */
  function AllRows(fix: Arithmetic, sheets: Sheets, period: Period): Option<seq<Row>> {
    Append(Append(Royalties(fix, sheets, period), RowsOf(fix, OrdersLine, OrderLines(sheets), period)),
           RowsOf(fix, PagesLine, PageLines(sheets), period))
  }

  const MONTH_NAMES: seq<string> :=
    ["January", "February", "March", "April", "May", "June", "July", "August", "September", "October", "November",
     "December"]

  function NumberText(n: nat): string {
    if n < 10 then ["0123456789"[n]] else NumberText(n / 10) + ["0123456789"[n % 10]]
  }

  predicate NamesPeriod(date: string, period: Period) {
    && ValidDate(period.start)
    && date == MONTH_NAMES[period.start.month - 1] + " " + NumberText(period.start.year)
  }

  const SUMMARY_COLUMNS: set<string> := {"Date", "Royalty (USD)", "Net Units Sold (Paperback)"}

  /** The one Summary line (lines 111-112). */
  function SummaryOf(sheets: Sheets, period: Period): Option<Record> {
    match SheetRecords(sheets, "Summary", SUMMARY_COLUMNS)
    case None => None
    case Some(lines) =>
      if |lines| == 1 && NamesPeriod(Field(lines[0], "Date"), period) then Some(lines[0]) else None
  }

  /** When parse_report accepts. */
  ghost predicate Acceptable(fix: Arithmetic, sheets: Sheets, period: Period) {
    && "Combined Sales" in sheets
    && SummaryOf(sheets, period).Some?
    && Royalties(fix, sheets, period).Some?
    && Reconciled(fix, SummaryOf(sheets, period).value, Royalties(fix, sheets, period).value)
    && AllRows(fix, sheets, period).Some?
    && |AllRows(fix, sheets, period).value| <= RESULT_LIMIT
  }

  // ------------------------------------------- the loops and accumulators

  /** The running totals are those of the rows so far; absent keys stand for zero. */
  ghost predicate Accumulated(fix: Arithmetic, rows: seq<Row>, amounts: map<string, real>, net: map<string, int>) {
    AmountsAccumulated(fix, rows, amounts) && UnitsAccumulated(rows, net)
  }

  lemma EmittedOfAppend(rows: seq<Row>, row: Row, currency: string)
    ensures Emitted(rows + [row], currency) <==> Emitted(rows, currency) || (row.Royalty? && row.currency == currency)
  {
    assert forall x :: x in rows + [row] <==> x in rows || x == row;
  }

  ghost predicate AmountsAccumulated(fix: Arithmetic, rows: seq<Row>, amounts: map<string, real>) {
    && (forall currency :: currency in amounts <==> Emitted(rows, currency))
    && (forall currency :: currency in amounts ==> amounts[currency] == Total(fix, rows, currency))
  }

  ghost predicate UnitsAccumulated(rows: seq<Row>, net: map<string, int>) {
    forall format :: NetOf(net, format) == UnitTotal(rows, format, NetUnits)
  }

  lemma AmountsAccumulateOne(fix: Arithmetic, rows: seq<Row>, row: Row, amounts: map<string, real>)
    requires AmountsAccumulated(fix, rows, amounts) && row.Royalty?
    ensures AmountsAccumulated(fix, rows + [row], amounts[row.currency := fix(AmountOf(amounts, row.currency) + row.amount)])
  {
    var rows' := rows + [row];
    assert rows'[..|rows|] == rows;
    forall currency
      ensures Emitted(rows', currency) <==> Emitted(rows, currency) || row.currency == currency
    {
      EmittedOfAppend(rows, row, currency);
    }
    UnemittedIsZero(fix, rows, row.currency);
  }

  lemma UnitsAccumulateOne(rows: seq<Row>, row: Row, net: map<string, int>)
    requires UnitsAccumulated(rows, net) && row.Royalty?
    ensures UnitsAccumulated(rows + [row], net[row.base.format := NetOf(net, row.base.format) + row.net])
  {
    var rows', net' := rows + [row], net[row.base.format := NetOf(net, row.base.format) + row.net];
    assert rows'[..|rows|] == rows;
    forall format
      ensures NetOf(net', format) == UnitTotal(rows', format, NetUnits)
    {
      assert NetOf(net, format) == UnitTotal(rows, format, NetUnits);
    }
  }

  lemma UnemittedIsZero(fix: Arithmetic, rows: seq<Row>, currency: string)
    ensures !Emitted(rows, currency) ==> Total(fix, rows, currency) == 0.0
  {
    if !Emitted(rows, currency) {
      UnemittedTotalIsZero(fix, rows, currency);
    }
  }

  /** The loop over the lines of one royalty sheet (lines 127-134). */
  method ReadRoyaltySheet(fix: Arithmetic, results: seq<Option<Row>>, rows0: seq<Row>, amounts0: map<string, real>, net0: map<string, int>)
    returns (ok: bool, rows: seq<Row>, amounts: map<string, real>, net: map<string, int>)
    requires forall i :: 0 <= i < |results| && results[i].Some? ==> results[i].value.Royalty?
    requires Accumulated(fix, rows0, amounts0, net0)
    ensures ok <==> Collect(results).Some?
    ensures ok ==> rows == rows0 + Collect(results).value && Accumulated(fix, rows, amounts, net)
  {
    ok, rows, amounts, net := true, rows0, amounts0, net0;
    for i := 0 to |results|
      invariant Collect(results[..i]).Some? && rows == rows0 + Collect(results[..i]).value
      invariant Accumulated(fix, rows, amounts, net) && ok
    {
      assert results[..i + 1][..i] == results[..i];
      if results[i].None? {
        CollectStops(results, i);
        return false, rows, amounts, net;
      }
      var row := results[i].value;
      AmountsAccumulateOne(fix, rows, row, amounts);
      UnitsAccumulateOne(rows, row, net);
      amounts := amounts[row.currency := fix(AmountOf(amounts, row.currency) + row.amount)];
      net := net[row.base.format := NetOf(net, row.base.format) + row.net];
      rows := rows + [row];
    }
    assert results[..|results|] == results;
  }

  lemma RoyaltyLinesAreRoyalties(fix: Arithmetic, kind: LineKind, lines: seq<Record>, period: Period)
    requires kind.RoyaltyLine?
    ensures forall i :: 0 <= i < |lines| && ReadEach(fix, kind, lines, period)[i].Some? ==>
              ReadEach(fix, kind, lines, period)[i].value.Royalty?
  {
  }

  /** One royalty sheet (lines 123-134), added to what the sheets before it gave. */
  method ReadSheet(fix: Arithmetic, sheets: Sheets, k: nat, period: Period, rows0: seq<Row>, amounts0: map<string, real>, net0: map<string, int>)
    returns (ok: bool, rows: seq<Row>, amounts: map<string, real>, net: map<string, int>)
    requires k < |ROYALTY_SHEETS| && RoyaltiesTo(fix, sheets, k, period) == Some(rows0) && Accumulated(fix, rows0, amounts0, net0)
    ensures ok <==> RoyaltiesTo(fix, sheets, k + 1, period).Some?
    ensures ok ==> RoyaltiesTo(fix, sheets, k + 1, period) == Some(rows) && Accumulated(fix, rows, amounts, net)
  {
    var lines := RoyaltyLines(sheets, k);
    if lines.None? {
      return false, rows0, amounts0, net0;
    }
    RoyaltyLinesAreRoyalties(fix, RoyaltyKind(sheets, k), lines.value, period);
    ok, rows, amounts, net := ReadRoyaltySheet(fix, ReadEach(fix, RoyaltyKind(sheets, k), lines.value, period), rows0, amounts0, net0);
  }

  /** The loop over the royalty sheets (lines 123-134). */
  method ReadRoyalties(fix: Arithmetic, sheets: Sheets, period: Period)
    returns (ok: bool, rows: seq<Row>, amounts: map<string, real>, net: map<string, int>)
    ensures ok <==> Royalties(fix, sheets, period).Some?
    ensures ok ==> rows == Royalties(fix, sheets, period).value && Accumulated(fix, rows, amounts, net)
  {
    ok, rows, amounts, net := true, [], map[], map[];
    for k := 0 to |ROYALTY_SHEETS|
      invariant ok && RoyaltiesTo(fix, sheets, k, period) == Some(rows)
      invariant Accumulated(fix, rows, amounts, net)
    {
      ok, rows, amounts, net := ReadSheet(fix, sheets, k, period, rows, amounts, net);
      if !ok {
        RoyaltiesStop(fix, sheets, k + 1, |ROYALTY_SHEETS|, period);
        return;
      }
    }
  }

  /** A sheet that cannot be read leaves nothing to return, whatever follows it. */
  lemma {:induction false} RoyaltiesStop(fix: Arithmetic, sheets: Sheets, k: nat, n: nat, period: Period)
    requires k <= n <= |ROYALTY_SHEETS| && RoyaltiesTo(fix, sheets, k, period).None?
    ensures RoyaltiesTo(fix, sheets, n, period).None?
    decreases n - k
  {
    if k < n {
      RoyaltiesStop(fix, sheets, k, n - 1, period);
    }
  }

  /** The reconciliation as the code does it, from the running totals (lines 136-143). */
  predicate Balances(fix: Arithmetic, summary: Record, amounts: map<string, real>, net: map<string, int>) {
    && RoyaltiesBalance(fix, summary, amounts)
    && ColumnsBalance(fix, summary, amounts)
    && UnitsBalance(fix, summary, net, |UNIT_COLUMNS|)
  }

  function AmountOf(amounts: map<string, real>, currency: string): real {
    if currency in amounts then amounts[currency] else 0.0
  }

  function NetOf(net: map<string, int>, format: string): int {
    if format in net then net[format] else 0
  }

  predicate RoyaltiesBalance(fix: Arithmetic, summary: Record, amounts: map<string, real>) {
    forall currency :: currency in amounts ==>
      RoyaltyColumn(currency) in summary && Near(fix, summary[RoyaltyColumn(currency)], amounts[currency])
  }

  predicate ColumnsBalance(fix: Arithmetic, summary: Record, amounts: map<string, real>) {
    forall column :: column in summary && CurrencyOf(column).Some? ==>
      Near(fix, summary[column], AmountOf(amounts, CurrencyOf(column).value))
  }

  predicate UnitsBalance(fix: Arithmetic, summary: Record, net: map<string, int>, n: nat)
    requires n <= |UNIT_COLUMNS|
  {
    forall k :: 0 <= k < n && UNIT_COLUMNS[k].0 in summary ==>
      Number(fix, summary[UNIT_COLUMNS[k].0]) == Some(NetOf(net, UNIT_COLUMNS[k].1) as real)
  }

  /** Every emitted currency has a matching column (lines 136-137). */
  method CheckCurrencies(fix: Arithmetic, summary: Record, amounts: map<string, real>) returns (ok: bool)
    ensures ok <==> RoyaltiesBalance(fix, summary, amounts)
  {
    var currencies := amounts.Keys;
    while currencies != {}
      invariant currencies <= amounts.Keys
      invariant forall currency :: currency in amounts && currency !in currencies ==>
                  RoyaltyColumn(currency) in summary && Near(fix, summary[RoyaltyColumn(currency)], amounts[currency])
      decreases |currencies|
    {
      var currency :| currency in currencies;
      if RoyaltyColumn(currency) !in summary || !Near(fix, summary[RoyaltyColumn(currency)], amounts[currency]) {
        return false;
      }
      currencies := currencies - {currency};
    }
    return true;
  }

  /** Every royalty column matches what was emitted in its currency (lines 138-140). */
  method CheckColumns(fix: Arithmetic, summary: Record, amounts: map<string, real>) returns (ok: bool)
    ensures ok <==> ColumnsBalance(fix, summary, amounts)
  {
    var columns := summary.Keys;
    while columns != {}
      invariant columns <= summary.Keys
      invariant forall column :: column in summary && column !in columns && CurrencyOf(column).Some? ==>
                  Near(fix, summary[column], AmountOf(amounts, CurrencyOf(column).value))
      decreases |columns|
    {
      var column :| column in columns;
      if CurrencyOf(column).Some? && !Near(fix, summary[column], AmountOf(amounts, CurrencyOf(column).value)) {
        return false;
      }
      columns := columns - {column};
    }
    return true;
  }

  /** The checks of the summary against the running totals (lines 136-143). */
  method CheckSummary(fix: Arithmetic, summary: Record, amounts: map<string, real>, net: map<string, int>) returns (ok: bool)
    ensures ok <==> Balances(fix, summary, amounts, net)
  {
    ok := CheckCurrencies(fix, summary, amounts);
    if ok {
      ok := CheckColumns(fix, summary, amounts);
    }
    for k := 0 to |UNIT_COLUMNS|
      invariant ok <==> RoyaltiesBalance(fix, summary, amounts) && ColumnsBalance(fix, summary, amounts) && UnitsBalance(fix, summary, net, k)
    {
      var column, format := UNIT_COLUMNS[k].0, UNIT_COLUMNS[k].1;
      if column in summary && Number(fix, summary[column]) != Some(NetOf(net, format) as real) {
        ok := false;
      }
    }
  }

  lemma BalancedIffReconciled(fix: Arithmetic, summary: Record, rows: seq<Row>, amounts: map<string, real>, net: map<string, int>)
    requires Accumulated(fix, rows, amounts, net)
    ensures Balances(fix, summary, amounts, net) <==> Reconciled(fix, summary, rows)
  {
    forall currency
      ensures AmountOf(amounts, currency) == Total(fix, rows, currency)
    {
      UnemittedIsZero(fix, rows, currency);
    }
    forall format
      ensures NetOf(net, format) == UnitTotal(rows, format, NetUnits)
    {
    }
  }

  /** The two loops over orders and pages read (lines 145-151). */
  method AppendRows(results: seq<Option<Row>>, rows0: seq<Row>) returns (ok: bool, rows: seq<Row>)
    ensures ok <==> Collect(results).Some?
    ensures ok ==> rows == rows0 + Collect(results).value
  {
    ok, rows := true, rows0;
    for i := 0 to |results|
      invariant ok && Collect(results[..i]).Some? && rows == rows0 + Collect(results[..i]).value
    {
      assert results[..i + 1][..i] == results[..i];
      if results[i].None? {
        CollectStops(results, i);
        return false, rows;
      }
      rows := rows + [results[i].value];
    }
    assert results[..|results|] == results;
  }

  /** parse_report after the file has been decoded; None is its exception. */
  method ParseReport(fix: Arithmetic, pads: bool, sheets: Sheets, month: string, end: string) returns (r: Option<seq<Row>>)
    ensures r.Some? <==> ParsePeriod(pads, month, end).Some? && Acceptable(fix, sheets, ParsePeriod(pads, month, end).value)
    ensures r.Some? ==> r == AllRows(fix, sheets, ParsePeriod(pads, month, end).value)
  {
    var parsed := ParsePeriod(pads, month, end);
    if parsed.None? {
      return None;
    }
    var period := parsed.value;
    var summary := SummaryOf(sheets, period);
    if "Combined Sales" !in sheets || summary.None? {
      return None;
    }
    var ok, rows, amounts, net := ReadRoyalties(fix, sheets, period);
    if !ok {
      return None;
    }
    BalancedIffReconciled(fix, summary.value, rows, amounts, net);
    ok := CheckSummary(fix, summary.value, amounts, net);
    if !ok {
      return None;
    }
    r := AddActivity(fix, sheets, period, rows);
  }

  /** Orders and pages read, appended to the reconciled royalty rows (lines 145-153). */
  method AddActivity(fix: Arithmetic, sheets: Sheets, period: Period, royalties: seq<Row>) returns (r: Option<seq<Row>>)
    requires Royalties(fix, sheets, period) == Some(royalties)
    ensures r.Some? <==> AllRows(fix, sheets, period).Some? && |AllRows(fix, sheets, period).value| <= RESULT_LIMIT
    ensures r.Some? ==> r == AllRows(fix, sheets, period)
  {
    var orders, pages := OrderLines(sheets), PageLines(sheets);
    if orders.None? {
      return None;
    }
    var ok, rows := AppendRows(ReadEach(fix, OrdersLine, orders.value, period), royalties);
    if !ok || pages.None? {
      return None;
    }
    ok, rows := AppendRows(ReadEach(fix, PagesLine, pages.value, period), rows);
    if !ok || |rows| > RESULT_LIMIT {
      return None;
    }
    return Some(rows);
  }

  // -------------------------------------------------- what acceptance means

  lemma {:induction false} CollectMembers(results: seq<Option<Row>>)
    requires Collect(results).Some?
    ensures forall row :: row in Collect(results).value ==> Some(row) in results
  {
    if results != [] {
      var n := |results| - 1;
      CollectMembers(results[..n]);
      assert results == results[..n] + [results[n]];
    }
  }

  lemma ParsedRowsHold(fix: Arithmetic, kind: LineKind, lines: seq<Record>, period: Period)
    requires Faithful(fix) && ParseLines(fix, kind, lines, period).Some?
    ensures forall row :: row in ParseLines(fix, kind, lines, period).value ==> RowHolds(row) && (row.Royalty? <==> kind.RoyaltyLine?)
  {
    var results := ReadEach(fix, kind, lines, period);
    CollectMembers(results);
    forall row | row in ParseLines(fix, kind, lines, period).value
      ensures RowHolds(row) && (row.Royalty? <==> kind.RoyaltyLine?)
    {
      var i :| 0 <= i < |results| && results[i] == Some(row);
      LineHolds(fix, kind, lines[i], period);
    }
  }

  lemma LineHolds(fix: Arithmetic, kind: LineKind, line: Record, period: Period)
    requires Faithful(fix) && ParseLine(fix, kind, line, period).Some?
    ensures
      var row := ParseLine(fix, kind, line, period).value;
      RowHolds(row) && (row.Royalty? <==> kind.RoyaltyLine?)
  {
    if kind.RoyaltyLine? {
      RoyaltyRowHolds(fix, line, kind.identifier, kind.format, period);
    }
  }

  lemma {:induction false} RoyaltiesHold(fix: Arithmetic, sheets: Sheets, k: nat, period: Period)
    requires Faithful(fix) && k <= |ROYALTY_SHEETS| && RoyaltiesTo(fix, sheets, k, period).Some?
    ensures forall row :: row in RoyaltiesTo(fix, sheets, k, period).value ==> RowHolds(row)
  {
    if k > 0 {
      RoyaltiesHold(fix, sheets, k - 1, period);
      ParsedRowsHold(fix, RoyaltyKind(sheets, k - 1), RoyaltyLines(sheets, k - 1).value, period);
    }
  }

  ghost predicate SameTotals(fix: Arithmetic, a: seq<Row>, b: seq<Row>) {
    && (forall currency :: Total(fix, b, currency) == Total(fix, a, currency))
    && (forall currency :: Emitted(b, currency) <==> Emitted(a, currency))
    && (forall format, unit :: UnitTotal(b, format, unit) == UnitTotal(a, format, unit))
  }

  /** Rows that are not royalties change no total. */
  lemma {:induction false} OtherRowsAddNothing(fix: Arithmetic, rows: seq<Row>, others: seq<Row>)
    requires forall row :: row in others ==> !row.Royalty?
    ensures SameTotals(fix, rows, rows + others)
  {
    if others == [] {
      assert rows + others == rows;
    } else {
      var n := |others| - 1;
      OtherRowsAddNothing(fix, rows, others[..n]);
      assert (rows + others)[..|rows + others| - 1] == rows + others[..n];
      assert others[n] in others && rows + others == (rows + others[..n]) + [others[n]];
      forall currency
        ensures Emitted(rows + others, currency) <==> Emitted(rows, currency)
      {
        EmittedOfAppend(rows + others[..n], others[n], currency);
      }
    }
  }

  /**
   In an accepted report the royalties of every currency, summed as the program sums them,
   agree with its Summary column; every emitted currency has one and every column is
   checked; paperback and hardcover net units equal sold minus refunds and the Summary.
   */
  lemma AcceptedReportIsReconciled(fix: Arithmetic, sheets: Sheets, period: Period)
    requires Faithful(fix) && Acceptable(fix, sheets, period)
    ensures
      var summary, rows := SummaryOf(sheets, period).value, AllRows(fix, sheets, period).value;
      && Reconciled(fix, summary, rows)
      && (forall row :: row in rows ==> RowHolds(row))
      && (forall currency :: Absolute(Total(Exactly, rows, currency)) < RESULT_LIMIT as real * NUMBER_LIMIT)
      && (forall format :: UnitTotal(rows, format, NetUnits)
           == UnitTotal(rows, format, SoldUnits) - UnitTotal(rows, format, RefundedUnits))
  {
    AllRowsHold(fix, sheets, period);
    OnlyRoyaltiesCount(fix, sheets, period);
    SameTotalsReconcile(fix, SummaryOf(sheets, period).value, Royalties(fix, sheets, period).value,
                        AllRows(fix, sheets, period).value);
    RowsConserve(AllRows(fix, sheets, period).value);
  }

  lemma SameTotalsReconcile(fix: Arithmetic, summary: Record, royalties: seq<Row>, rows: seq<Row>)
    requires Reconciled(fix, summary, royalties) && SameTotals(fix, royalties, rows)
    ensures Reconciled(fix, summary, rows)
  {
  }

  lemma AllRowsHold(fix: Arithmetic, sheets: Sheets, period: Period)
    requires Faithful(fix) && AllRows(fix, sheets, period).Some?
    ensures forall row :: row in AllRows(fix, sheets, period).value ==> RowHolds(row)
  {
    RoyaltiesHold(fix, sheets, |ROYALTY_SHEETS|, period);
    ParsedRowsHold(fix, OrdersLine, OrderLines(sheets).value, period);
    ParsedRowsHold(fix, PagesLine, PageLines(sheets).value, period);
  }

  /** The totals of the whole report are those of its royalty rows. */
  lemma OnlyRoyaltiesCount(fix: Arithmetic, sheets: Sheets, period: Period)
    requires Faithful(fix) && AllRows(fix, sheets, period).Some?
    ensures SameTotals(fix, Royalties(fix, sheets, period).value, AllRows(fix, sheets, period).value)
  {
    var royalties := Royalties(fix, sheets, period).value;
    var orders := RowsOf(fix, OrdersLine, OrderLines(sheets), period).value;
    var pages := RowsOf(fix, PagesLine, PageLines(sheets), period).value;
    ParsedRowsHold(fix, OrdersLine, OrderLines(sheets).value, period);
    ParsedRowsHold(fix, PagesLine, PageLines(sheets).value, period);
    OtherRowsAddNothing(fix, royalties, orders);
    OtherRowsAddNothing(fix, royalties + orders, pages);
  }

  lemma RowsConserve(rows: seq<Row>)
    requires |rows| <= RESULT_LIMIT && forall row :: row in rows ==> RowHolds(row)
    ensures forall currency :: Absolute(Total(Exactly, rows, currency)) < RESULT_LIMIT as real * NUMBER_LIMIT
    ensures forall format ::
              UnitTotal(rows, format, NetUnits) ==
              UnitTotal(rows, format, SoldUnits) - UnitTotal(rows, format, RefundedUnits)
  {
    forall currency
      ensures Absolute(Total(Exactly, rows, currency)) < RESULT_LIMIT as real * NUMBER_LIMIT
    {
      TotalIsBounded(rows, currency);
      assert |rows| as real <= RESULT_LIMIT as real;
    }
    forall format
      ensures UnitTotal(rows, format, NetUnits)
           == UnitTotal(rows, format, SoldUnits) - UnitTotal(rows, format, RefundedUnits)
    {
      NetIsSoldMinusRefunds(rows, format);
    }
  }
}
