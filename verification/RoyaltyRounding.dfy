/**
 What rounding to 28 digits does to the reconciliation of parse_report
 (scripts/book-sales/kdp_report.py, lines 132-141). A report whose royalty cells have at most
 twelve fraction digits is judged as exact arithmetic would judge it, twelve is the largest
 such number, and no accepted report is further off than the rounding errors add up to.
 */
module RoyaltyRounding {
  import opened Options
  import opened BookWindows
  import opened Decimals
  import opened SheetDecode
  import opened RoyaltyReport

  const GRID := 12
  const HALF_UNIT: real := HalfUnits(1.0)
  const MONEY: real := 10000000000000000.0       // no sum of amounts reaches this
  const MOST_MONEY: real := 8000000000000000.0

  /** `n` times half a unit of the twelfth decimal place. */
  function HalfUnits(n: real): real {
    0.0000000000005 * n
  }

  // ------------------------------------------------------------- the guard

  /** The digits a cell has after its point. */
  function FractionDigits(s: string): nat {
    if PointOf(s) < |s| then |s| - PointOf(s) - 1 else 0
  }

  predicate LineFits(record: Record, d: nat) {
    FractionDigits(Field(record, "Royalty")) <= d
  }

  predicate SummaryFits(record: Record, d: nat) {
    forall column :: column in record && CurrencyOf(column).Some? ==> FractionDigits(record[column]) <= d
  }

  /** No royalty cell, and no royalty column of the Summary, has more than `d` fraction digits. */
  predicate FewPlaces(sheets: Sheets, d: nat) {
    && (forall k :: 0 <= k < |ROYALTY_SHEETS| && RoyaltyLines(sheets, k).Some? ==>
          forall record :: record in RoyaltyLines(sheets, k).value ==> LineFits(record, d))
    && (var summary := SheetRecords(sheets, "Summary", SUMMARY_COLUMNS);
        summary.Some? ==> forall record :: record in summary.value ==> SummaryFits(record, d))
  }

  /** Summary and emitted rows agree in exact arithmetic. */
  ghost predicate Conserves(sheets: Sheets, period: Period)
    requires Acceptable(Fix, sheets, period)
  {
    Reconciled(Exactly, SummaryOf(sheets, period).value, AllRows(Fix, sheets, period).value)
  }

  // ----------------------------------------------------- cells on the grid

  lemma MagnitudeIsOnGrid(s: string)
    requires Magnitude(s).Some?
    ensures OnGrid(Magnitude(s).value, FractionDigits(s))
  {
    var point := PointOf(s);
    if point < |s| {
      PartsAreOnGrid(s[..point], s[point + 1..]);
    }
  }

  lemma PartsAreOnGrid(whole: string, fraction: string)
    requires Parts(whole, fraction).Some?
    ensures OnGrid(Parts(whole, fraction).value, |fraction|)
  {
    ShiftedOfBack(Digits(fraction) as real, |fraction|);
    GridIsFiner(Digits(whole) as real, 0, |fraction|);
    GridIsClosed(Digits(whole) as real, Back(Digits(fraction) as real, |fraction|), |fraction|);
  }

  lemma ValueIsOnGrid(s: string, d: nat)
    requires Written(s).Some? && FractionDigits(s) <= d
    ensures OnGrid(Written(s).value, d)
  {
    if s != "" && s[0] == '-' {
      MagnitudeIsOnGrid(s[1..]);
      NegativeIsOnGrid(Magnitude(s[1..]).value, FractionDigits(s));
    } else {
      MagnitudeIsOnGrid(s);
    }
    GridIsFiner(Written(s).value, FractionDigits(s), d);
  }

  lemma NegativeIsOnGrid(x: real, d: nat)
    requires OnGrid(x, d)
    ensures OnGrid(-x, d)
  {
    GridIsFiner(0.0, 0, d);
    GridIsClosed(0.0, x, d);
    assert 0.0 - x == -x;
  }

  /** Nothing below 10^16 that lies on the grid is rounded. */
  ghost predicate KeepsMoney(fix: Arithmetic) {
    forall x :: OnGrid(x, GRID) && Absolute(x) < MONEY ==> fix(x) == x
  }

  /** What the guard needs of an arithmetic. */
  ghost predicate Dependable(fix: Arithmetic) {
    Faithful(fix) && KeepsMoney(fix)
  }

  lemma FixIsDependable()
    ensures Dependable(Fix) && Faithful(Exactly)
  {
    BothAreFaithful();
    forall x | OnGrid(x, GRID) && Absolute(x) < MONEY
      ensures Fix(x) == x
    {
      MoneyHasRoom(x);
      FixKeepsGrid(x, GRID);
    }
  }

  lemma MoneyHasRoom(x: real)
    requires Absolute(x) < MONEY
    ensures Shifted(Absolute(x), GRID) < FULL as real
  {
    ShiftedByTwelve(Absolute(x));
  }

  lemma ShiftedByTwelve(x: real)
    ensures Shifted(x, GRID) == 1000000000000.0 * x
  {
    assert Shifted(x, 1) == 10.0 * x;
    assert Shifted(x, 2) == 100.0 * x;
    assert Shifted(x, 3) == 1000.0 * x;
    assert Shifted(x, 4) == 10000.0 * x;
    assert Shifted(x, 5) == 100000.0 * x;
    assert Shifted(x, 6) == 1000000.0 * x;
    assert Shifted(x, 7) == 10000000.0 * x;
    assert Shifted(x, 8) == 100000000.0 * x;
    assert Shifted(x, 9) == 1000000000.0 * x;
    assert Shifted(x, 10) == 10000000000.0 * x;
    assert Shifted(x, 11) == 100000000000.0 * x;
  }

  // ------------------------------------- the two arithmetics read one row

  lemma IntegersAreRead(fix: Arithmetic, s: string)
    requires Faithful(fix) && Written(s).Some? && IsInt(Written(s).value) && Absolute(Written(s).value) < NUMBER_LIMIT
    ensures Number(fix, s) == Written(s)
  {
    var x := Absolute(Written(s).value);
    IsIntIf(x, if Written(s).value < 0.0 then -Written(s).value.Floor else Written(s).value.Floor);
    assert fix(x) == x;
  }

  lemma NumbersAgree(fix: Arithmetic, s: string)
    requires Dependable(fix)
    requires FractionDigits(s) <= GRID
    ensures Number(fix, s) == Number(Exactly, s)
  {
    if Written(s).Some? {
      var x := Written(s).value;
      ValueIsOnGrid(s, GRID);
      NegativeIsOnGrid(x, GRID);
      BothAreFaithful();
      if Absolute(x) < NUMBER_LIMIT {
        assert fix(Absolute(x)) == Absolute(x);
      } else {
        assert fix(Absolute(x)) >= NUMBER_LIMIT;
      }
    }
  }

  lemma UnitsAreKept(f: Arithmetic, g: Arithmetic, s: string)
    requires Faithful(f) && Faithful(g) && Units(f, s).Some?
    ensures Units(g, s) == Units(f, s)
  {
    NumberIsBelowLimit(f, s);
    IntegersAreRead(g, s);
  }

  lemma UnitsAgree(fix: Arithmetic, s: string)
    requires Dependable(fix)
    ensures Units(fix, s) == Units(Exactly, s)
  {
    BothAreFaithful();
    if Units(fix, s).Some? {
      UnitsAreKept(fix, Exactly, s);
    }
    if Units(Exactly, s).Some? {
      UnitsAreKept(Exactly, fix, s);
    }
  }

  /** What one faithful arithmetic reads in the unit cells of a line, so does another. */
  lemma UnitCellsAreKept(f: Arithmetic, g: Arithmetic, sold: string, refunds: string, net: string)
    requires Faithful(f) && Faithful(g) && UnitsAreRead(f, Number(f, sold), Units(f, refunds), Number(f, net))
    ensures Number(g, sold) == Number(f, sold) && Units(g, refunds) == Units(f, refunds) && Number(g, net) == Number(f, net)
    ensures UnitsAreRead(g, Number(f, sold), Units(f, refunds), Number(f, net))
  {
    NumberIsBelowLimit(f, sold);
    UnitsAreBelowLimit(f, refunds);
    NumberIsBelowLimit(f, net);
    UnitsAreIntegers(f, Number(f, sold), Units(f, refunds), Number(f, net));
    IntegersAreRead(g, sold);
    IntegersAreRead(g, net);
    UnitsAreKept(f, g, refunds);
    NetIsNotRounded(g, Number(f, sold).value, Units(f, refunds).value);
  }

  lemma RoyaltyRowIsKept(f: Arithmetic, g: Arithmetic, record: Record, identifier: string, format: string, period: Period)
    requires Faithful(f) && Faithful(g) && RoyaltyRow(f, record, identifier, format, period).Some?
    requires Number(f, Field(record, "Royalty")) == Number(g, Field(record, "Royalty"))
    ensures RoyaltyRow(g, record, identifier, format, period) == RoyaltyRow(f, record, identifier, format, period)
  {
    UnitCellsAreKept(f, g, Field(record, "Units Sold"), Field(record, "Units Refunded"), Field(record, "Net Units Sold"));
  }

  lemma RoyaltyRowsAgree(fix: Arithmetic, record: Record, identifier: string, format: string, period: Period)
    requires Dependable(fix)
    requires LineFits(record, GRID)
    ensures RoyaltyRow(fix, record, identifier, format, period) == RoyaltyRow(Exactly, record, identifier, format, period)
  {
    BothAreFaithful();
    NumbersAgree(fix, Field(record, "Royalty"));
    if RoyaltyRow(fix, record, identifier, format, period).Some? {
      RoyaltyRowIsKept(fix, Exactly, record, identifier, format, period);
    }
    if RoyaltyRow(Exactly, record, identifier, format, period).Some? {
      RoyaltyRowIsKept(Exactly, fix, record, identifier, format, period);
    }
  }

  lemma LinesAgree(fix: Arithmetic, kind: LineKind, lines: seq<Record>, period: Period)
    requires Dependable(fix)
    requires kind.RoyaltyLine? ==> forall record :: record in lines ==> LineFits(record, GRID)
    ensures ReadEach(fix, kind, lines, period) == ReadEach(Exactly, kind, lines, period)
    ensures ParseLines(fix, kind, lines, period) == ParseLines(Exactly, kind, lines, period)
  {
    forall i | 0 <= i < |lines|
      ensures ParseLine(fix, kind, lines[i], period) == ParseLine(Exactly, kind, lines[i], period)
    {
      LineAgrees(fix, kind, lines[i], period);
    }
  }

  lemma LineAgrees(fix: Arithmetic, kind: LineKind, record: Record, period: Period)
    requires Dependable(fix)
    requires kind.RoyaltyLine? ==> LineFits(record, GRID)
    ensures ParseLine(fix, kind, record, period) == ParseLine(Exactly, kind, record, period)
  {
    match kind {
      case RoyaltyLine(identifier, format) => RoyaltyRowsAgree(fix, record, identifier, format, period);
      case OrdersLine =>
        UnitsAgree(fix, Field(record, "Paid Units"));
        UnitsAgree(fix, Field(record, "Free Units"));
      case PagesLine =>
        UnitsAgree(fix, Field(record, "Kindle+ Pages Read"));
        UnitsAgree(fix, Field(record, "Kindle+ Pages Listened"));
        UnitsAgree(fix, Field(record, "Total Kindle+ Pages Read and Listened"));
    }
  }

  predicate AmountOnGrid(row: Row) {
    row.Royalty? ==> OnGrid(row.amount, GRID)
  }

  lemma LineIsOnGrid(kind: LineKind, record: Record, period: Period)
    requires LineFits(record, GRID) && kind.RoyaltyLine? && ParseLine(Exactly, kind, record, period).Some?
    ensures AmountOnGrid(ParseLine(Exactly, kind, record, period).value)
  {
    ValueIsOnGrid(Field(record, "Royalty"), GRID);
  }

  lemma LinesAreOnGrid(kind: LineKind, lines: seq<Record>, period: Period)
    requires (forall record :: record in lines ==> LineFits(record, GRID)) && kind.RoyaltyLine?
    requires ParseLines(Exactly, kind, lines, period).Some?
    ensures forall row :: row in ParseLines(Exactly, kind, lines, period).value ==> AmountOnGrid(row)
  {
    var results := ReadEach(Exactly, kind, lines, period);
    CollectMembers(results);
    forall row | row in ParseLines(Exactly, kind, lines, period).value
      ensures AmountOnGrid(row)
    {
      var i :| 0 <= i < |results| && results[i] == Some(row);
      LineIsOnGrid(kind, lines[i], period);
    }
  }

  predicate AllOnGrid(rows: Option<seq<Row>>) {
    rows.Some? ==> forall row :: row in rows.value ==> AmountOnGrid(row)
  }

  lemma SheetAgrees(fix: Arithmetic, kind: LineKind, lines: Option<seq<Record>>, period: Period)
    requires Dependable(fix)
    requires kind.RoyaltyLine? && (lines.Some? ==> forall record :: record in lines.value ==> LineFits(record, GRID))
    ensures RowsOf(fix, kind, lines, period) == RowsOf(Exactly, kind, lines, period)
    ensures AllOnGrid(RowsOf(Exactly, kind, lines, period))
  {
    if lines.Some? {
      LinesAgree(fix, kind, lines.value, period);
      if ParseLines(Exactly, kind, lines.value, period).Some? {
        LinesAreOnGrid(kind, lines.value, period);
      }
    }
  }

  lemma AppendIsOnGrid(before: Option<seq<Row>>, rows: Option<seq<Row>>)
    requires AllOnGrid(before) && AllOnGrid(rows)
    ensures AllOnGrid(Append(before, rows))
  {
  }

  lemma RoyaltiesStep(fix: Arithmetic, sheets: Sheets, k: nat, period: Period)
    requires k < |ROYALTY_SHEETS|
    ensures RoyaltiesTo(fix, sheets, k + 1, period)
         == Append(RoyaltiesTo(fix, sheets, k, period), RowsOf(fix, RoyaltyKind(sheets, k), RoyaltyLines(sheets, k), period))
  {
  }

  /** Under the guard both arithmetics read the same royalties, and they lie on the grid. */
  lemma {:induction false} RoyaltiesAgree(fix: Arithmetic, sheets: Sheets, k: nat, period: Period)
    requires Dependable(fix)
    requires FewPlaces(sheets, GRID) && k <= |ROYALTY_SHEETS|
    ensures RoyaltiesTo(fix, sheets, k, period) == RoyaltiesTo(Exactly, sheets, k, period)
    ensures AllOnGrid(RoyaltiesTo(Exactly, sheets, k, period))
  {
    if k > 0 {
      RoyaltiesAgree(fix, sheets, k - 1, period);
      SheetAgrees(fix, RoyaltyKind(sheets, k - 1), RoyaltyLines(sheets, k - 1), period);
      RoyaltiesStep(fix, sheets, k - 1, period);
      RoyaltiesStep(Exactly, sheets, k - 1, period);
      AppendIsOnGrid(RoyaltiesTo(Exactly, sheets, k - 1, period),
                     RowsOf(Exactly, RoyaltyKind(sheets, k - 1), RoyaltyLines(sheets, k - 1), period));
    }
  }

  lemma AllRowsAgree(fix: Arithmetic, sheets: Sheets, period: Period)
    requires Dependable(fix)
    requires FewPlaces(sheets, GRID)
    ensures Royalties(fix, sheets, period) == Royalties(Exactly, sheets, period)
    ensures AllRows(fix, sheets, period) == AllRows(Exactly, sheets, period)
  {
    RoyaltiesAgree(fix, sheets, |ROYALTY_SHEETS|, period);
    if OrderLines(sheets).Some? {
      LinesAgree(fix, OrdersLine, OrderLines(sheets).value, period);
    }
    if PageLines(sheets).Some? {
      LinesAgree(fix, PagesLine, PageLines(sheets).value, period);
    }
  }

  // ------------------------------------------------- totals and the checks

  /** No partial sum of at most 8000 amounts on the grid is rounded. */
  lemma {:induction false} TotalsAgree(fix: Arithmetic, rows: seq<Row>, currency: string)
    requires Dependable(fix)
    requires |rows| <= RESULT_LIMIT && forall row :: row in rows ==> RowHolds(row) && AmountOnGrid(row)
    ensures Total(fix, rows, currency) == Total(Exactly, rows, currency)
    ensures OnGrid(Total(Exactly, rows, currency), GRID)
  {
    if rows == [] {
      GridIsFiner(0.0, 0, GRID);
    } else {
      var n := |rows| - 1;
      assert rows[n] in rows;
      TotalsAgree(fix, rows[..n], currency);
      TotalIsMoney(rows, currency);
      RowAgrees(fix, rows, currency, n);
    }
  }

  lemma TotalIsMoney(rows: seq<Row>, currency: string)
    requires |rows| <= RESULT_LIMIT && forall row :: row in rows ==> RowHolds(row)
    ensures Absolute(Total(Exactly, rows, currency)) <= MOST_MONEY
  {
    TotalIsBounded(rows, currency);
  }

  lemma RowAgrees(fix: Arithmetic, rows: seq<Row>, currency: string, n: nat)
    requires Dependable(fix)
    requires |rows| == n + 1 && AmountOnGrid(rows[n])
    requires Total(fix, rows[..n], currency) == Total(Exactly, rows[..n], currency)
    requires OnGrid(Total(Exactly, rows[..n], currency), GRID)
    requires Absolute(Total(Exactly, rows, currency)) <= MOST_MONEY
    ensures Total(fix, rows, currency) == Total(Exactly, rows, currency)
    ensures OnGrid(Total(Exactly, rows, currency), GRID)
  {
    if rows[n].Royalty? && rows[n].currency == currency {
      GridIsClosed(Total(Exactly, rows[..n], currency), rows[n].amount, GRID);
      assert fix(Total(Exactly, rows, currency)) == Total(Exactly, rows, currency);
    }
  }

  lemma DifferenceAgrees(fix: Arithmetic, x: real, total: real)
    requires Dependable(fix)
    requires OnGrid(x, GRID) && OnGrid(total, GRID)
    requires Absolute(x) < NUMBER_LIMIT && Absolute(total) <= MOST_MONEY
    ensures fix(Absolute(fix(x - total))) == Absolute(x - total)
  {
    GridIsClosed(x, total, GRID);
    assert fix(x - total) == x - total;
    NegativeIsOnGrid(x - total, GRID);
    assert fix(Absolute(x - total)) == Absolute(x - total);
  }

  lemma NearAgrees(fix: Arithmetic, cell: string, total: real)
    requires Dependable(fix)
    requires FractionDigits(cell) <= GRID && OnGrid(total, GRID) && Absolute(total) <= MOST_MONEY
    ensures Near(fix, cell, total) <==> Near(Exactly, cell, total)
  {
    NumbersAgree(fix, cell);
    var n := Number(Exactly, cell);
    if n.Some? {
      ValueIsOnGrid(cell, GRID);
      DifferenceAgrees(fix, n.value, total);
    }
  }

  lemma UnitCellsAgree(fix: Arithmetic, cell: string, k: int)
    requires Dependable(fix)
    ensures Number(fix, cell) == Some(k as real) <==> Number(Exactly, cell) == Some(k as real)
  {
    BothAreFaithful();
    if Number(fix, cell) == Some(k as real) {
      NumberIsBelowLimit(fix, cell);
      IntegersAreRead(Exactly, cell);
    }
    if Number(Exactly, cell) == Some(k as real) {
      IntegersAreRead(fix, cell);
    }
  }

  lemma ReconciliationsAgree(fix: Arithmetic, summary: Record, rows: seq<Row>)
    requires Dependable(fix)
    requires SummaryFits(summary, GRID) && |rows| <= RESULT_LIMIT
    requires forall row :: row in rows ==> RowHolds(row) && AmountOnGrid(row)
    ensures Reconciled(fix, summary, rows) <==> Reconciled(Exactly, summary, rows)
  {
    forall currency
      ensures Total(fix, rows, currency) == Total(Exactly, rows, currency)
      ensures ThreeCapitals(currency) && RoyaltyColumn(currency) in summary ==>
        (Near(fix, summary[RoyaltyColumn(currency)], Total(fix, rows, currency)) <==>
         Near(Exactly, summary[RoyaltyColumn(currency)], Total(Exactly, rows, currency)))
    {
      TotalsAgree(fix, rows, currency);
      TotalIsMoney(rows, currency);
      if ThreeCapitals(currency) && RoyaltyColumn(currency) in summary {
        ColumnNamesItsCurrency(currency, RoyaltyColumn(currency));
        NearAgrees(fix, summary[RoyaltyColumn(currency)], Total(Exactly, rows, currency));
      }
    }
    forall column | column in summary && CurrencyOf(column).Some?
      ensures RoyaltyColumn(CurrencyOf(column).value) == column && ThreeCapitals(CurrencyOf(column).value)
    {
      ColumnNamesItsCurrency("", column);
    }
    forall k | 0 <= k < |UNIT_COLUMNS| && UNIT_COLUMNS[k].0 in summary
      ensures Number(fix, summary[UNIT_COLUMNS[k].0]) == Some(UnitTotal(rows, UNIT_COLUMNS[k].1, NetUnits) as real)
         <==> Number(Exactly, summary[UNIT_COLUMNS[k].0]) == Some(UnitTotal(rows, UNIT_COLUMNS[k].1, NetUnits) as real)
    {
      UnitCellsAgree(fix, summary[UNIT_COLUMNS[k].0], UnitTotal(rows, UNIT_COLUMNS[k].1, NetUnits));
    }
  }

  /**
   A report whose royalty cells have at most twelve fraction digits is accepted exactly if
   it would be in exact arithmetic, and with the same rows.
   */
  lemma GuardedReportsAreJudgedExactly(sheets: Sheets, period: Period)
    requires FewPlaces(sheets, GRID)
    ensures Acceptable(Fix, sheets, period) <==> Acceptable(Exactly, sheets, period)
    ensures AllRows(Fix, sheets, period) == AllRows(Exactly, sheets, period)
  {
    FixIsDependable();
    AllRowsAgree(Fix, sheets, period);
    if AllRows(Exactly, sheets, period).Some? && |AllRows(Exactly, sheets, period).value| <= RESULT_LIMIT
       && SummaryOf(sheets, period).Some? {
      RoyaltiesAgree(Fix, sheets, |ROYALTY_SHEETS|, period);
      RoyaltiesHold(Exactly, sheets, |ROYALTY_SHEETS|, period);
      RoyaltiesAreFewer(sheets, period);
      SummaryCellsFit(sheets, period, GRID);
      ReconciliationsAgree(Fix, SummaryOf(sheets, period).value, Royalties(Exactly, sheets, period).value);
    }
  }

  lemma RoyaltiesAreFewer(sheets: Sheets, period: Period)
    requires AllRows(Exactly, sheets, period).Some?
    ensures Royalties(Exactly, sheets, period).Some?
    ensures |Royalties(Exactly, sheets, period).value| <= |AllRows(Exactly, sheets, period).value|
  {
  }

  lemma SummaryCellsFit(sheets: Sheets, period: Period, d: nat)
    requires FewPlaces(sheets, d) && SummaryOf(sheets, period).Some?
    ensures SummaryFits(SummaryOf(sheets, period).value, d)
  {
    assert SummaryOf(sheets, period).value in SheetRecords(sheets, "Summary", SUMMARY_COLUMNS).value;
  }

  /**
   Conservation. If the royalty cells have at most twelve fraction digits, the emitted
   royalties of an accepted report are within half a cent of the Summary in every currency,
   in exact arithmetic; net units are sold minus refunds and match it too; no total reaches
   8000 times the limit of one number.
   */
  lemma AcceptedReportConserves(sheets: Sheets, period: Period)
    requires Acceptable(Fix, sheets, period) && FewPlaces(sheets, GRID)
    ensures Conserves(sheets, period)
    ensures
      var rows := AllRows(Fix, sheets, period).value;
      && (forall currency :: Absolute(Total(Exactly, rows, currency)) < RESULT_LIMIT as real * NUMBER_LIMIT)
      && (forall format :: UnitTotal(rows, format, NetUnits)
           == UnitTotal(rows, format, SoldUnits) - UnitTotal(rows, format, RefundedUnits))
  {
    BothAreFaithful();
    GuardedReportsAreJudgedExactly(sheets, period);
    AcceptedReportIsReconciled(Exactly, sheets, period);
  }

  // ------------------------------------------------------ without the guard

  lemma HalfUnitIsBack()
    ensures Back(0.5, GRID) == HALF_UNIT
  {
    ShiftedByTwelve(HALF_UNIT);
    BackOfShifted(HALF_UNIT, GRID);
  }

  /** One operation on money is at most half a unit of the twelfth decimal place off. */
  ghost predicate Close(fix: Arithmetic) {
    forall x: real :: Absolute(x) < MONEY ==> Absolute(fix(x) - x) <= HALF_UNIT
  }

  lemma FixIsHalfUnitClose()
    ensures Close(Fix)
  {
    HalfUnitIsBack();
    forall x: real | Absolute(x) < MONEY
      ensures Absolute(Fix(x) - x) <= HALF_UNIT
    {
      MoneyHasRoom(x);
      FixIsClose(x, GRID);
    }
  }

  /** `total` and `exact` after some additions, half a unit of error each. */
  predicate Drift(total: real, exact: real, steps: real) {
    Absolute(total - exact) <= HalfUnits(steps) && Absolute(total) <= 1000000000001.0 * steps
  }

  lemma AddedAmountIsClose(fix: Arithmetic, total: real, exact: real, amount: real, steps: real)
    requires Close(fix) && Drift(total, exact, steps) && 0.0 <= steps < 8000.0 && Absolute(amount) < NUMBER_LIMIT
    ensures Drift(fix(total + amount), exact + amount, steps + 1.0)
  {
    assert Absolute(total + amount) < MONEY;
    OneMoreAddition(total, exact, amount, fix(total + amount), steps);
  }

  lemma OneMoreAddition(total: real, exact: real, amount: real, sum: real, steps: real)
    requires Drift(total, exact, steps) && Absolute(amount) < NUMBER_LIMIT && Absolute(sum - (total + amount)) <= HALF_UNIT
    ensures Drift(sum, exact + amount, steps + 1.0)
  {
  }

  lemma DriftGrows(total: real, exact: real, steps: real)
    requires Drift(total, exact, steps)
    ensures Drift(total, exact, steps + 1.0)
  {
  }

  /** A running total after one more row. */
  function WithRow(fix: Arithmetic, total: real, row: Row, currency: string): real {
    if row.Royalty? && row.currency == currency then fix(total + row.amount) else total
  }

  lemma RowIsClose(fix: Arithmetic, total: real, exact: real, row: Row, currency: string, steps: real)
    requires Close(fix) && RowHolds(row) && 0.0 <= steps < 8000.0 && Drift(total, exact, steps)
    ensures Drift(WithRow(fix, total, row, currency), WithRow(Exactly, exact, row, currency), steps + 1.0)
  {
    if row.Royalty? && row.currency == currency {
      AddedAmountIsClose(fix, total, exact, row.amount, steps);
    } else {
      DriftGrows(total, exact, steps);
    }
  }

  lemma TotalStep(fix: Arithmetic, rows: seq<Row>, currency: string, n: nat)
    requires |rows| == n + 1
    ensures Total(fix, rows, currency) == WithRow(fix, Total(fix, rows[..n], currency), rows[n], currency)
  {
  }

  lemma {:induction false} TotalsAreClose(fix: Arithmetic, rows: seq<Row>, currency: string)
    requires Close(fix) && |rows| <= RESULT_LIMIT && forall row :: row in rows ==> RowHolds(row)
    ensures Drift(Total(fix, rows, currency), Total(Exactly, rows, currency), |rows| as real)
  {
    if rows != [] {
      var n := |rows| - 1;
      assert RowHolds(rows[n]);
      TotalsAreClose(fix, rows[..n], currency);
      TotalStep(fix, rows, currency, n);
      TotalStep(Exactly, rows, currency, n);
      RowIsClose(fix, Total(fix, rows[..n], currency), Total(Exactly, rows[..n], currency), rows[n], currency, n as real);
      assert n as real + 1.0 == |rows| as real;
    }
  }

  lemma ComparisonIsClose(fix: Arithmetic, x: real, total: real, exact: real, steps: real)
    requires Close(fix) && Absolute(x) < NUMBER_LIMIT && Drift(total, exact, steps) && 0.0 <= steps <= 8000.0
    requires fix(Absolute(fix(x - total))) <= TOLERANCE
    ensures Absolute(x - exact) <= TOLERANCE + HalfUnits(steps + 2.0)
  {
    var difference := fix(x - total);
    assert Absolute(x - total) < MONEY;
    TwoMoreSteps(x, total, exact, difference, fix(Absolute(difference)), steps);
  }

  lemma TwoMoreSteps(x: real, total: real, exact: real, difference: real, compared: real, steps: real)
    requires Drift(total, exact, steps) && Absolute(difference - (x - total)) <= HALF_UNIT
    requires Absolute(compared - Absolute(difference)) <= HALF_UNIT && compared <= TOLERANCE
    ensures Absolute(x - exact) <= TOLERANCE + HalfUnits(steps + 2.0)
  {
  }

  /** The cell is within half a cent of the exact total and the errors of `n` additions and a comparison. */
  predicate NearlyConserves(cell: string, exact: real, n: nat) {
    Written(cell).Some? && Absolute(Written(cell).value - exact) <= 0.005 + HalfUnits(n as real + 2.0)
  }

  lemma NearIsClose(fix: Arithmetic, cell: string, total: real, exact: real, n: nat)
    requires Faithful(fix) && Close(fix) && Near(fix, cell, total) && n <= RESULT_LIMIT && Drift(total, exact, n as real)
    ensures NearlyConserves(cell, exact, n)
  {
    var x := NearCell(fix, cell, total);
    ComparisonIsClose(fix, x, total, exact, n as real);
  }

  lemma NearCell(fix: Arithmetic, cell: string, total: real) returns (x: real)
    requires Faithful(fix) && Near(fix, cell, total)
    ensures Written(cell) == Some(x) && Absolute(x) < NUMBER_LIMIT && fix(Absolute(fix(x - total))) <= TOLERANCE
  {
    NumberIsBelowLimit(fix, cell);
    x := Number(fix, cell).value;
  }

  lemma CellIsClose(fix: Arithmetic, cell: string, rows: seq<Row>, currency: string)
    requires Faithful(fix) && Close(fix) && Near(fix, cell, Total(fix, rows, currency))
    requires |rows| <= RESULT_LIMIT && forall row :: row in rows ==> RowHolds(row)
    ensures NearlyConserves(cell, Total(Exactly, rows, currency), |rows|)
  {
    TotalsAreClose(fix, rows, currency);
    NearIsClose(fix, cell, Total(fix, rows, currency), Total(Exactly, rows, currency), |rows|);
  }

  lemma ColumnsAreClose(fix: Arithmetic, summary: Record, rows: seq<Row>)
    requires Faithful(fix) && Close(fix) && Reconciled(fix, summary, rows)
    requires |rows| <= RESULT_LIMIT && forall row :: row in rows ==> RowHolds(row)
    ensures forall column :: column in summary && CurrencyOf(column).Some? ==>
              NearlyConserves(summary[column], Total(Exactly, rows, CurrencyOf(column).value), |rows|)
  {
    forall column | column in summary && CurrencyOf(column).Some?
      ensures NearlyConserves(summary[column], Total(Exactly, rows, CurrencyOf(column).value), |rows|)
    {
      CellIsClose(fix, summary[column], rows, CurrencyOf(column).value);
    }
  }

  /**
   Whatever digits the cells have, in an accepted report every emitted currency has a column,
   and every column is within half a cent of the exact total and the rounding errors: half a
   unit of the twelfth decimal place for each emitted row and two for the comparison.
   */
  lemma EveryAcceptedReportNearlyConserves(sheets: Sheets, period: Period)
    requires Acceptable(Fix, sheets, period)
    ensures
      var summary, rows := SummaryOf(sheets, period).value, AllRows(Fix, sheets, period).value;
      && (forall currency :: Emitted(rows, currency) ==> RoyaltyColumn(currency) in summary)
      && (forall column :: column in summary && CurrencyOf(column).Some? ==>
            NearlyConserves(summary[column], Total(Exactly, rows, CurrencyOf(column).value), |rows|))
  {
    BothAreFaithful();
    FixIsHalfUnitClose();
    AcceptedReportIsReconciled(Fix, sheets, period);
    ColumnsAreClose(Fix, SummaryOf(sheets, period).value, AllRows(Fix, sheets, period).value);
  }
}
