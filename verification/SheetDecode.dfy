/**
 Decoding a worksheet of scripts/book-sales/kdp_report.py (lines 71-101): sparse cells with
 A1-style references, as in section 18.3.1.4 of ECMA-376 Part 1, become padded rows, and
 padded rows become records under their header.
 */
module SheetDecode {
  import opened Options

  /** A cell as parsed: the letters of its reference, if it has one, and its stripped text. */
  datatype Cell = Cell(letters: Option<string>, text: string)

  const COLUMN_LIMIT := 200
  const ROW_LIMIT := 20001

  predicate IsLetters(s: string) {
    s != "" && forall i :: 0 <= i < |s| ==> 'A' <= s[i] <= 'Z'
  }

  // ------------------------------------------------------ column letters

  /** Letters read as digits 1 to 26 of a number without a zero. */
  function Value(s: string): nat
    requires forall i :: 0 <= i < |s| ==> 'A' <= s[i] <= 'Z'
  {
    if s == "" then 0 else Value(s[..|s| - 1]) * 26 + (s[|s| - 1] - 'A') as nat + 1
  }

  /** The letters of a number. */
  function Letters(v: nat): string {
    if v == 0 then "" else Letters((v - 1) / 26) + [(('A' as int) + (v - 1) % 26) as char]
  }

  lemma LettersStep(v: nat, c: char)
    requires 'A' <= c <= 'Z'
    ensures Letters(v * 26 + (c - 'A') as nat + 1) == Letters(v) + [c]
  {
    var d := (c - 'A') as nat;
    assert (v * 26 + d) / 26 == v && (v * 26 + d) % 26 == d;
  }

  lemma {:induction false} LettersOfValue(s: string)
    requires forall i :: 0 <= i < |s| ==> 'A' <= s[i] <= 'Z'
    ensures Letters(Value(s)) == s
  {
    if s != "" {
      var n := |s| - 1;
      LettersOfValue(s[..n]);
      LettersStep(Value(s[..n]), s[n]);
      assert s == s[..n] + [s[n]];
    }
  }

  lemma {:induction false} ValueOfLetters(v: nat)
    ensures forall i :: 0 <= i < |Letters(v)| ==> 'A' <= Letters(v)[i] <= 'Z'
    ensures Value(Letters(v)) == v
    ensures v > 0 ==> Letters(v) != ""
  {
    if v > 0 {
      ValueOfLetters((v - 1) / 26);
      var s := Letters((v - 1) / 26);
      assert Letters(v)[..|s|] == s;
    }
  }

  /** The zero-based column of non-empty letters; every column has exactly one spelling. */
  function Column(s: string): nat
    requires IsLetters(s)
  {
    Value(s) - 1
  }

  lemma ColumnIsBijective(column: nat, s: string)
    ensures IsLetters(Letters(column + 1)) && Column(Letters(column + 1)) == column
    ensures IsLetters(s) ==> Letters(Column(s) + 1) == s
  {
    SpellingOfColumn(column + 1);
    if IsLetters(s) {
      LettersOfValue(s);
    }
  }

  lemma SpellingOfColumn(v: nat)
    requires v > 0
    ensures IsLetters(Letters(v)) && Column(Letters(v)) == v - 1
  {
    ValueOfLetters(v);
  }

  /** The letter loop (lines 76-79). */
  method ReadColumn(s: string) returns (column: nat)
    requires IsLetters(s)
    ensures column == Column(s)
  {
    var sum: nat := 0;
    for i := 0 to |s|
      invariant sum == Value(s[..i])
    {
      assert s[..i + 1][..i] == s[..i];
      sum := sum * 26 + (s[i] as int - 64);
    }
    assert s[..|s|] == s;
    column := sum - 1;
  }

  // -------------------------------------------------------------- one row

  predicate WellReferenced(cells: seq<Cell>) {
    forall cell :: cell in cells && cell.letters.Some? ==> IsLetters(cell.letters.value)
  }

  /** The width of the row after its first `n` cells. */
  function Width(cells: seq<Cell>, n: nat): nat
    requires n <= |cells| && WellReferenced(cells)
    decreases n, 0
  {
    if n == 0 then 0
    else if ColumnOf(cells, n - 1) + 1 > Width(cells, n - 1) then ColumnOf(cells, n - 1) + 1
    else Width(cells, n - 1)
  }

  /** A cell without a reference goes to the right of all before it. */
  function ColumnOf(cells: seq<Cell>, i: nat): nat
    requires i < |cells| && WellReferenced(cells)
    decreases i, 1
  {
    if cells[i].letters.Some? then Column(cells[i].letters.value) else Width(cells, i)
  }

  /** The text at a column after the first `n` cells: the last cell put there, or nothing. */
  function TextAt(cells: seq<Cell>, n: nat, column: nat): string
    requires n <= |cells| && WellReferenced(cells)
  {
    if n == 0 then ""
    else if ColumnOf(cells, n - 1) == column then cells[n - 1].text
    else TextAt(cells, n - 1, column)
  }

  predicate Fits(cells: seq<Cell>)
    requires WellReferenced(cells)
  {
    forall i :: 0 <= i < |cells| ==> ColumnOf(cells, i) < COLUMN_LIMIT
  }

  /** The row the cells give: each column up to the width holds its text. */
  function Decoded(cells: seq<Cell>): seq<string>
    requires WellReferenced(cells)
  {
    seq(Width(cells, |cells|), column requires 0 <= column < Width(cells, |cells|) => TextAt(cells, |cells|, column))
  }

  /** The cell loop (lines 73-87); None is the column limit. */
  method DecodeRow(cells: seq<Cell>) returns (r: Option<seq<string>>)
    requires WellReferenced(cells)
    ensures r.Some? <==> Fits(cells)
    ensures r.Some? <==> forall i :: 0 <= i < |cells| ==> ColumnOf(cells, i) < 200
    ensures r.Some? ==> r.value == Decoded(cells)
  {
    var row: seq<string> := [];
    for i := 0 to |cells|
      invariant |row| == Width(cells, i)
      invariant forall column :: 0 <= column < |row| ==> row[column] == TextAt(cells, i, column)
      invariant forall j :: 0 <= j < i ==> ColumnOf(cells, j) < COLUMN_LIMIT
    {
      var column := |row|;
      if cells[i].letters.Some? {
        column := ReadColumn(cells[i].letters.value);
      }
      if column >= COLUMN_LIMIT {
        assert ColumnOf(cells, i) >= COLUMN_LIMIT;
        return None;
      }
      ghost var width := |row|;
      while |row| <= column
        invariant width <= |row| && (|row| <= column + 1 || |row| == width)
        invariant forall c :: 0 <= c < |row| ==> row[c] == TextAt(cells, i, c)
        decreases column + 1 - |row|
      {
        NothingBeyondWidth(cells, i, |row|);
        row := row + [""];
      }
      row := row[column := cells[i].text];
    }
    return Some(row);
  }

  lemma {:induction false} NothingBeyondWidth(cells: seq<Cell>, n: nat, column: nat)
    requires n <= |cells| && WellReferenced(cells) && column >= Width(cells, n)
    ensures TextAt(cells, n, column) == ""
  {
    if n > 0 {
      NothingBeyondWidth(cells, n - 1, column);
    }
  }

  /** A referenced cell that nothing overwrites is found at its own column. */
  lemma {:induction false} CellIsAtItsColumn(cells: seq<Cell>, i: nat, n: nat)
    requires i < n <= |cells| && WellReferenced(cells)
    requires forall j :: i < j < n ==> ColumnOf(cells, j) != ColumnOf(cells, i)
    ensures TextAt(cells, n, ColumnOf(cells, i)) == cells[i].text && ColumnOf(cells, i) < Width(cells, n)
    decreases n
  {
    if i < n - 1 {
      CellIsAtItsColumn(cells, i, n - 1);
    }
  }

  // ------------------------------------------------------------- one sheet

  type Sheet = s: seq<seq<Cell>> | forall cells :: cells in s ==> WellReferenced(cells)

  predicate HasText(row: seq<string>) {
    exists i :: 0 <= i < |row| && row[i] != ""
  }

  /** Some cell has text and is not replaced by a later one. */
  predicate ShowsText(cells: seq<Cell>)
    requires WellReferenced(cells)
  {
    exists i: nat :: i < |cells| && IsOnTop(cells, i) && cells[i].text != ""
  }

  predicate IsOnTop(cells: seq<Cell>, i: nat)
    requires WellReferenced(cells) && i < |cells|
  {
    forall j :: i < j < |cells| ==> ColumnOf(cells, j) != ColumnOf(cells, i)
  }

  /** Text in a column comes from the last cell put there. */
  lemma {:induction false} TextHasCell(cells: seq<Cell>, n: nat, column: nat) returns (i: nat)
    requires n <= |cells| && WellReferenced(cells) && TextAt(cells, n, column) != ""
    ensures i < n && ColumnOf(cells, i) == column && cells[i].text != ""
    ensures forall j :: i < j < n ==> ColumnOf(cells, j) != column
  {
    if ColumnOf(cells, n - 1) == column {
      i := n - 1;
    } else {
      i := TextHasCell(cells, n - 1, column);
    }
  }

  lemma TextIsInTheRow(cells: seq<Cell>)
    requires WellReferenced(cells)
    ensures HasText(Decoded(cells)) <==> ShowsText(cells)
  {
    if HasText(Decoded(cells)) {
      var column :| 0 <= column < |Decoded(cells)| && Decoded(cells)[column] != "";
      var i := TextHasCell(cells, |cells|, column);
      assert IsOnTop(cells, i);
    }
    if ShowsText(cells) {
      var i: nat :| i < |cells| && IsOnTop(cells, i) && cells[i].text != "";
      CellIsAtItsColumn(cells, i, |cells|);
      assert Decoded(cells)[ColumnOf(cells, i)] != "";
    }
  }

  /** Which of the first `n` rows have any text. */
  function Kept(sheet: Sheet, n: nat): (r: seq<nat>)
    requires n <= |sheet|
    ensures forall k :: 0 <= k < |r| ==> r[k] < n
  {
    if n == 0 then [] else Kept(sheet, n - 1) + if HasText(Decoded(sheet[n - 1])) then [n - 1] else []
  }

  /** They are the rows that show text, each once, in their order. */
  lemma {:induction false} KeptAreTheRowsWithText(sheet: Sheet, n: nat)
    requires n <= |sheet|
    ensures forall j, k :: 0 <= j < k < |Kept(sheet, n)| ==> Kept(sheet, n)[j] < Kept(sheet, n)[k]
    ensures forall i: nat :: i < n ==> (i in Kept(sheet, n) <==> ShowsText(sheet[i]))
  {
    if n > 0 {
      KeptAreTheRowsWithText(sheet, n - 1);
      TextIsInTheRow(sheet[n - 1]);
    }
  }

  lemma {:induction false} KeptGrows(sheet: Sheet, n: nat, m: nat)
    requires n <= m <= |sheet|
    ensures |Kept(sheet, n)| <= |Kept(sheet, m)|
  {
    if n < m {
      KeptGrows(sheet, n, m - 1);
    }
  }

  function RowsTo(sheet: Sheet, n: nat): seq<seq<string>>
    requires n <= |sheet|
  {
    var kept := Kept(sheet, n);
    seq(|kept|, k requires 0 <= k < |kept| => Decoded(sheet[kept[k]]))
  }

  /** The sheet as the report parser sees it. */
  function Rows(sheet: Sheet): seq<seq<string>> {
    RowsTo(sheet, |sheet|)
  }

  lemma RowsStep(sheet: Sheet, n: nat)
    requires n < |sheet|
    ensures RowsTo(sheet, n + 1)
         == RowsTo(sheet, n) + if HasText(Decoded(sheet[n])) then [Decoded(sheet[n])] else []
  {
  }

  /** The row loop (lines 71-90); None is the column limit or the row limit. */
  method DecodeSheet(sheet: Sheet) returns (r: Option<seq<seq<string>>>)
    ensures r.Some? <==> (forall cells :: cells in sheet ==> Fits(cells)) && |Rows(sheet)| <= 20001
    ensures r.Some? ==> r.value == Rows(sheet)
  {
    var rows: seq<seq<string>> := [];
    for i := 0 to |sheet|
      invariant rows == RowsTo(sheet, i) && |rows| <= ROW_LIMIT
      invariant forall j :: 0 <= j < i ==> Fits(sheet[j])
    {
      var row := DecodeRow(sheet[i]);
      if row.None? {
        assert !Fits(sheet[i]);
        return None;
      }
      if HasText(row.value) {
        rows := rows + [row.value];
      }
      RowsStep(sheet, i);
      if |rows| > ROW_LIMIT {
        KeptGrows(sheet, i + 1, |sheet|);
        return None;
      }
    }
    return Some(rows);
  }

  // --------------------------------------------------------------- records

  type Record = map<string, string>

  /** row[c], or the padding of a short row. */
  function CellOf(row: seq<string>, c: nat): string {
    if c < |row| then row[c] else ""
  }

  /** dict(zip(header, row padded to the header)), for the first `n` headers. */
  function ZipTo(header: seq<string>, row: seq<string>, n: nat): Record
    requires n <= |header|
  {
    if n == 0 then map[] else ZipTo(header, row, n - 1)[header[n - 1] := CellOf(row, n - 1)]
  }

  predicate Distinct(header: seq<string>) {
    forall i, j :: 0 <= i < j < |header| ==> header[i] != header[j]
  }

  /** records; None is its exception. */
  function Records(sheet: seq<seq<string>>, required: set<string>): Option<seq<Record>> {
    if sheet == [] then None
    else
      var header, rows := sheet[0], sheet[1..];
      if !Distinct(header) || (exists name :: name in required && name !in header) then None
      else if exists row :: row in rows && |row| > |header| then None
      else Some(seq(|rows|, i requires 0 <= i < |rows| => ZipTo(header, rows[i], |header|)))
  }

  /** Records are given for a header with distinct names, the required ones among them, and no longer row. */
  lemma RecordsAreGivenIff(sheet: seq<seq<string>>, required: set<string>)
    ensures Records(sheet, required).Some? <==>
      && |sheet| > 0 && (forall i, j :: 0 <= i < j < |sheet[0]| ==> sheet[0][i] != sheet[0][j])
      && (forall name :: name in required ==> name in sheet[0])
      && forall i :: 1 <= i < |sheet| ==> |sheet[i]| <= |sheet[0]|
    ensures Records(sheet, required).Some? ==> |Records(sheet, required).value| == |sheet| - 1
  {
    if |sheet| > 0 {
      assert forall i :: 1 <= i < |sheet| ==> sheet[i] == sheet[1..][i - 1];
      assert forall row :: row in sheet[1..] ==> exists i :: 1 <= i < |sheet| && sheet[i] == row;
    }
  }

  lemma {:induction false} ZipFindsColumn(header: seq<string>, row: seq<string>, n: nat, c: nat)
    requires Distinct(header) && c < n <= |header|
    ensures header[c] in ZipTo(header, row, n) && ZipTo(header, row, n)[header[c]] == CellOf(row, c)
  {
    if c < n - 1 {
      ZipFindsColumn(header, row, n - 1, c);
    }
  }

  lemma {:induction false} ZipHasOnlyHeaders(header: seq<string>, row: seq<string>, n: nat)
    requires n <= |header|
    ensures forall name :: name in ZipTo(header, row, n) ==> name in header
  {
    if n > 0 {
      ZipHasOnlyHeaders(header, row, n - 1);
    }
  }

  /** A record holds the cell under each header, and nothing else. */
  lemma RecordIsCellUnderHeader(sheet: seq<seq<string>>, required: set<string>, i: nat, c: nat)
    requires Records(sheet, required).Some? && i < |sheet| - 1 && c < |sheet[0]|
    ensures
      var record := Records(sheet, required).value[i];
      && sheet[0][c] in record && record[sheet[0][c]] == CellOf(sheet[i + 1], c)
      && (forall name :: name in required ==> name in record)
      && (forall name :: name in record ==> name in sheet[0])
  {
    var header, row := sheet[0], sheet[i + 1];
    ZipFindsColumn(header, row, |header|, c);
    ZipHasOnlyHeaders(header, row, |header|);
    forall name | name in required
      ensures name in ZipTo(header, row, |header|)
    {
      var j :| 0 <= j < |header| && header[j] == name;
      ZipFindsColumn(header, row, |header|, j);
    }
  }

  /**
   From the sparse cells of a sheet to its records: the header is the first row with text, the
   records are the other rows with text in their order, and under the header of a column
   stands the text of the last cell that was put in that column, or nothing if there is none.
   */
  lemma RecordRefinesSparseCells(sheet: Sheet, required: set<string>, i: nat, c: nat)
    requires Records(Rows(sheet), required).Some?
    ensures
      var kept, records := Kept(sheet, |sheet|), Records(Rows(sheet), required).value;
      && |kept| == |records| + 1
      && (i < |records| && c < Width(sheet[kept[0]], |sheet[kept[0]]|) ==>
           var header, cells := sheet[kept[0]], sheet[kept[i + 1]];
           var name := TextAt(header, |header|, c);
           name in records[i] && records[i][name] == TextAt(cells, |cells|, c))
  {
    var kept := Kept(sheet, |sheet|);
    var header := sheet[kept[0]];
    if i < |kept| - 1 && c < Width(header, |header|) {
      var cells := sheet[kept[i + 1]];
      RecordIsCellUnderHeader(Rows(sheet), required, i, c);
      if c >= Width(cells, |cells|) {
        NothingBeyondWidth(cells, |cells|, c);
      }
    }
  }
}
