/**
 The migration attempt ledger of scripts/verify-migration-state.ts: rows of the
 _prisma_migrations table, the frozen legacy ledger, and the key both are compared by.
 scripts/seed-legacy-migration-fixture.ts writes the rows this file reads back.
 */
module MigrationLedger {
  import opened Options
  import opened SortedKeys

  datatype RowStatus = SUCCEEDED | ROLLED_BACK

  datatype LedgerRow = LedgerRow(name: string, checksum: string, status: RowStatus, steps: nat, occurrence: nat)

  /** A table row; `finished` and `rolledBack` say that the two time columns are not null. */
  datatype TableRow = TableRow(
    id: string, name: string, checksum: string, finished: bool, rolledBack: bool, steps: nat, startedAt: int)

  datatype Result<+T, +E> = Ok(value: T) | Err(error: E)

  // ------------------------------------------------------- reading history

  predicate Unresolved(row: TableRow) {
    !row.finished && !row.rolledBack
  }

  /** How many of the first `n` rows carry the name. */
  function CountNames(rows: seq<TableRow>, n: nat, name: string): nat
    requires n <= |rows|
  {
    if n == 0 then 0 else CountNames(rows, n - 1, name) + if rows[n - 1].name == name then 1 else 0
  }

  /** The ledger row of attempt `i`: its occurrence is its rank among the attempts of its name. */
  function ReadRow(rows: seq<TableRow>, i: nat): LedgerRow
    requires i < |rows|
  {
    LedgerRow(rows[i].name, rows[i].checksum, if rows[i].rolledBack then ROLLED_BACK else SUCCEEDED,
              rows[i].steps, CountNames(rows, i + 1, rows[i].name))
  }

  /** readHistory: an unresolved attempt is an error, otherwise every row is read with its rank. */
  function History(rows: seq<TableRow>): Result<seq<LedgerRow>, string> {
    if exists row :: row in rows && Unresolved(row) then Err(FirstUnresolved(rows))
    else Ok(seq(|rows|, i requires 0 <= i < |rows| => ReadRow(rows, i)))
  }

  function FirstUnresolved(rows: seq<TableRow>): (name: string)
    requires exists row :: row in rows && Unresolved(row)
    ensures exists row :: row in rows && Unresolved(row) && row.name == name
  {
    if Unresolved(rows[0]) then rows[0].name else FirstUnresolved(rows[1..])
  }

  lemma {:induction false} FirstUnresolvedIs(rows: seq<TableRow>, i: nat)
    requires i < |rows| && Unresolved(rows[i]) && forall j :: 0 <= j < i ==> !Unresolved(rows[j])
    ensures rows[i] in rows && FirstUnresolved(rows) == rows[i].name
  {
    if i > 0 {
      FirstUnresolvedIs(rows[1..], i - 1);
    }
  }

  /** The loop of readHistory (lines 260-276), with its occurrence counters. */
  method ReadHistory(rows: seq<TableRow>) returns (r: Result<seq<LedgerRow>, string>)
    ensures r == History(rows)
  {
    var occurrences: map<string, nat> := map[];
    var result: seq<LedgerRow> := [];
    for i := 0 to |rows|
      invariant |result| == i
      invariant forall j :: 0 <= j < i ==> !Unresolved(rows[j]) && result[j] == ReadRow(rows, j)
      invariant forall name :: (if name in occurrences then occurrences[name] else 0) == CountNames(rows, i, name)
    {
      var row := rows[i];
      var occurrence := (if row.name in occurrences then occurrences[row.name] else 0) + 1;
      occurrences := occurrences[row.name := occurrence];
      if Unresolved(row) {
        FirstUnresolvedIs(rows, i);
        return Err(row.name);
      }
      result := result + [LedgerRow(row.name, row.checksum, if row.rolledBack then ROLLED_BACK else SUCCEEDED,
                                    row.steps, occurrence)];
    }
    assert forall row :: row in rows ==> !Unresolved(row);
    assert result == History(rows).value;
    return Ok(result);
  }

  // ------------------------------------------------------------ ledger keys

  const TAB := '\t'

  function Digit(d: nat): char
    requires d < 10
  {
    "0123456789"[d]
  }

  /** The decimal text of a number, as join writes it. */
  function Decimal(n: nat): (s: string)
    ensures s != "" && TAB !in s
  {
    if n < 10 then [Digit(n)] else Decimal(n / 10) + [Digit(n % 10)]
  }

  function StatusText(status: RowStatus): string {
    if status == SUCCEEDED then "SUCCEEDED" else "ROLLED_BACK"
  }

  function LedgerKey(row: LedgerRow): string {
    row.name + [TAB] + (row.checksum + [TAB] + (StatusText(row.status) + [TAB]
      + (Decimal(row.steps) + [TAB] + Decimal(row.occurrence))))
  }

  function Keys(rows: seq<LedgerRow>): seq<string> {
    seq(|rows|, i requires 0 <= i < |rows| => LedgerKey(rows[i]))
  }

  /** The comparison of a live ledger with the frozen one (lines 291-293 and 397-399). */
  predicate SameLedger(actual: seq<LedgerRow>, expected: seq<LedgerRow>) {
    Sort(Keys(actual)) == Sort(Keys(expected))
  }

  /** Ledger files are split at tabs, so their fields hold none. */
  predicate TabFree(row: LedgerRow) {
    TAB !in row.name && TAB !in row.checksum
  }

  lemma {:induction false} DecimalIsInjective(m: nat, n: nat)
    requires Decimal(m) == Decimal(n)
    ensures m == n
  {
    assert Decimal(m)[|Decimal(m)| - 1] == Digit(m % 10);
    assert Decimal(n)[|Decimal(n)| - 1] == Digit(n % 10);
    if m >= 10 && n >= 10 {
      assert Decimal(m)[..|Decimal(m)| - 1] == Decimal(m / 10);
      assert Decimal(n)[..|Decimal(n)| - 1] == Decimal(n / 10);
      DecimalIsInjective(m / 10, n / 10);
    }
  }

  function Tabs(s: string): nat {
    if s == "" then 0 else (if s[0] == TAB then 1 else 0) + Tabs(s[1..])
  }

  lemma {:induction false} TabsOfConcat(a: string, b: string)
    ensures Tabs(a + b) == Tabs(a) + Tabs(b)
  {
    if a == "" {
      assert a + b == b;
    } else {
      assert (a + b)[1..] == a[1..] + b;
      TabsOfConcat(a[1..], b);
    }
  }

  lemma {:induction false} NoTabs(s: string)
    ensures Tabs(s) == 0 <==> TAB !in s
  {
    if s != "" {
      NoTabs(s[1..]);
      assert s == [s[0]] + s[1..];
    }
  }

  /** The number of tabs in a key betrays any tab inside its fields. */
  lemma TabsOfKey(row: LedgerRow)
    ensures Tabs(LedgerKey(row)) == 4 + Tabs(row.name) + Tabs(row.checksum)
  {
    var d := Decimal(row.steps) + [TAB] + Decimal(row.occurrence);
    var c := StatusText(row.status) + [TAB] + d;
    var b := row.checksum + [TAB] + c;
    TabsOfField(Decimal(row.steps), Decimal(row.occurrence));
    TabsOfField(StatusText(row.status), d);
    TabsOfField(row.checksum, c);
    TabsOfField(row.name, b);
    NoTabs(Decimal(row.steps));
    NoTabs(Decimal(row.occurrence));
    NoTabs(StatusText(row.status));
    assert LedgerKey(row) == row.name + [TAB] + b;
  }

  lemma TabsOfField(field: string, rest: string)
    ensures Tabs(field + [TAB] + rest) == Tabs(field) + 1 + Tabs(rest)
  {
    TabsOfConcat(field + [TAB], rest);
    TabsOfConcat(field, [TAB]);
    assert [TAB][1..] == "";
  }

  /** The first tab-free field of a tab-separated line is determined by the line. */
  lemma {:induction false} FirstFieldIsUnique(a: string, x: string, b: string, y: string)
    requires TAB !in a && TAB !in b && a + [TAB] + x == b + [TAB] + y
    ensures a == b && x == y
  {
    var s := a + [TAB] + x;
    assert s[|a|] == TAB && s[|b|] == TAB;
    assert forall j :: 0 <= j < |a| ==> s[j] == a[j] && a[j] != TAB;
    assert forall j :: 0 <= j < |b| ==> s[j] == b[j] && b[j] != TAB;
    assert |a| == |b|;
    assert s[..|a|] == a && s[..|b|] == b && s[|a| + 1..] == x && s[|b| + 1..] == y;
  }

  /** A row whose key is the key of a tab-free row is that row, whatever the database holds. */
  lemma KeyIsInjective(row: LedgerRow, frozen: LedgerRow)
    requires LedgerKey(row) == LedgerKey(frozen) && TabFree(frozen)
    ensures row == frozen
  {
    TabsOfKey(row);
    TabsOfKey(frozen);
    NoTabs(row.name);
    NoTabs(row.checksum);
    NoTabs(frozen.name);
    NoTabs(frozen.checksum);
    var d := Decimal(row.steps) + [TAB] + Decimal(row.occurrence);
    var d' := Decimal(frozen.steps) + [TAB] + Decimal(frozen.occurrence);
    var c := StatusText(row.status) + [TAB] + d;
    var c' := StatusText(frozen.status) + [TAB] + d';
    FirstFieldIsUnique(row.name, row.checksum + [TAB] + c, frozen.name, frozen.checksum + [TAB] + c');
    FirstFieldIsUnique(row.checksum, c, frozen.checksum, c');
    FirstFieldIsUnique(StatusText(row.status), d, StatusText(frozen.status), d');
    FirstFieldIsUnique(Decimal(row.steps), Decimal(row.occurrence), Decimal(frozen.steps), Decimal(frozen.occurrence));
    DecimalIsInjective(row.steps, frozen.steps);
    DecimalIsInjective(row.occurrence, frozen.occurrence);
  }

  lemma KeysOfTail(rows: seq<LedgerRow>)
    requires rows != []
    ensures Keys(rows) == [LedgerKey(rows[0])] + Keys(rows[1..])
  {
  }

  lemma {:induction false} KeysFollowRows(rows: seq<LedgerRow>, others: seq<LedgerRow>)
    requires multiset(rows) == multiset(others)
    ensures multiset(Keys(rows)) == multiset(Keys(others))
  {
    if rows == [] {
      assert |multiset(others)| == |others|;
    } else {
      assert rows[0] in multiset(others);
      var i :| 0 <= i < |others| && others[i] == rows[0];
      RemoveRow(others, i);
      MultisetOfTail(rows);
      KeysFollowRows(rows[1..], others[..i] + others[i + 1..]);
      KeysOfTail(rows);
    }
  }

  lemma RemoveElement<T>(xs: seq<T>, i: nat)
    requires i < |xs|
    ensures multiset(xs[..i] + xs[i + 1..]) == multiset(xs) - multiset{xs[i]}
  {
    assert xs == xs[..i] + [xs[i]] + xs[i + 1..];
  }

  lemma RemoveRow(rows: seq<LedgerRow>, i: nat)
    requires i < |rows|
    ensures multiset(rows[..i] + rows[i + 1..]) == multiset(rows) - multiset{rows[i]}
    ensures multiset(Keys(rows[..i] + rows[i + 1..])) == multiset(Keys(rows)) - multiset{LedgerKey(rows[i])}
  {
    RemoveElement(rows, i);
    RemoveElement(Keys(rows), i);
    assert Keys(rows[..i] + rows[i + 1..]) == Keys(rows)[..i] + Keys(rows)[i + 1..];
  }

  lemma {:induction false} RowsFollowKeys(rows: seq<LedgerRow>, frozen: seq<LedgerRow>)
    requires multiset(Keys(rows)) == multiset(Keys(frozen)) && forall row :: row in frozen ==> TabFree(row)
    ensures multiset(rows) == multiset(frozen)
  {
    if rows == [] {
      assert |multiset(Keys(frozen))| == |frozen|;
    } else {
      var i := MatchingRow(rows, frozen);
      DropMatching(rows, frozen, i);
      RowsFollowKeys(rows[1..], frozen[..i] + frozen[i + 1..]);
      assert rows == [rows[0]] + rows[1..];
    }
  }

  lemma DropMatching(rows: seq<LedgerRow>, frozen: seq<LedgerRow>, i: nat)
    requires rows != [] && i < |frozen| && frozen[i] == rows[0]
    requires multiset(Keys(rows)) == multiset(Keys(frozen)) && forall row :: row in frozen ==> TabFree(row)
    ensures
      var rest := frozen[..i] + frozen[i + 1..];
      && multiset(Keys(rows[1..])) == multiset(Keys(rest))
      && multiset(frozen) == multiset(rest) + multiset{rows[0]}
      && forall row :: row in rest ==> TabFree(row)
  {
    var rest := frozen[..i] + frozen[i + 1..];
    RemoveRow(frozen, i);
    KeysWithoutFirst(rows);
    MinusOne(multiset(frozen), multiset(rest), frozen[i]);
    forall row | row in rest
      ensures TabFree(row)
    {
      assert row in frozen;
    }
  }

  lemma KeysWithoutFirst(rows: seq<LedgerRow>)
    requires rows != []
    ensures multiset(Keys(rows[1..])) == multiset(Keys(rows)) - multiset{LedgerKey(rows[0])}
  {
    MultisetOfTail(Keys(rows));
    assert Keys(rows)[1..] == Keys(rows[1..]);
  }

  lemma MinusOne<T>(whole: multiset<T>, rest: multiset<T>, x: T)
    requires x in whole && rest == whole - multiset{x}
    ensures whole == rest + multiset{x}
  {
  }

  lemma MatchingRow(rows: seq<LedgerRow>, frozen: seq<LedgerRow>) returns (i: nat)
    requires rows != [] && multiset(Keys(rows)) == multiset(Keys(frozen)) && forall row :: row in frozen ==> TabFree(row)
    ensures i < |frozen| && frozen[i] == rows[0]
  {
    assert Keys(rows)[0] in multiset(Keys(frozen));
    i :| 0 <= i < |Keys(frozen)| && Keys(frozen)[i] == LedgerKey(rows[0]);
    KeyIsInjective(rows[0], frozen[i]);
  }

  /** Comparing sorted keys is comparing the rows themselves, with multiplicity. */
  lemma SameLedgerIsSameRows(actual: seq<LedgerRow>, expected: seq<LedgerRow>)
    requires forall row :: row in expected ==> TabFree(row)
    ensures SameLedger(actual, expected) <==> multiset(actual) == multiset(expected)
  {
    SortedEqualIffSameMultiset(Keys(actual), Keys(expected));
    if multiset(actual) == multiset(expected) {
      KeysFollowRows(actual, expected);
    }
    if multiset(Keys(actual)) == multiset(Keys(expected)) {
      RowsFollowKeys(actual, expected);
    }
  }

  // ------------------------------------------------------ seeding and reading

  /** The row the seeder inserts for ledger line `index` (lines 274-289 of the seeder). */
  function SeedRow(line: LedgerRow, index: nat, id: string): TableRow {
    TableRow(id, line.name, line.checksum, line.status == SUCCEEDED, line.status == ROLLED_BACK, line.steps, index)
  }

  /** The table the seeder leaves behind; `ids` are its hashes of index and name. */
  function Seeded(ledger: seq<LedgerRow>, ids: seq<string>): seq<TableRow>
    requires |ids| == |ledger|
  {
    seq(|ledger|, i requires 0 <= i < |ledger| => SeedRow(ledger[i], i, ids[i]))
  }

  /** The insert loop of the seeder. */
  method Seed(ledger: seq<LedgerRow>, ids: seq<string>) returns (table: seq<TableRow>)
    requires |ids| == |ledger|
    ensures table == Seeded(ledger, ids)
  {
    table := [];
    for index := 0 to |ledger|
      invariant table == Seeded(ledger, ids)[..index]
    {
      table := table + [SeedRow(ledger[index], index, ids[index])];
    }
  }

  /** ORDER BY started_at, id: any listing of the table in which started_at never decreases. */
  predicate Lists(rows: seq<TableRow>, table: seq<TableRow>) {
    && multiset(rows) == multiset(table)
    && forall i, j :: 0 <= i < j < |rows| ==> rows[i].startedAt <= rows[j].startedAt
  }

  /** How many of the first `n` ledger lines carry the name. */
  function CountLines(ledger: seq<LedgerRow>, n: nat, name: string): nat
    requires n <= |ledger|
  {
    if n == 0 then 0 else CountLines(ledger, n - 1, name) + if ledger[n - 1].name == name then 1 else 0
  }

  /** The ledger with every occurrence replaced by the rank of the line among those of its name. */
  function Ranked(ledger: seq<LedgerRow>): seq<LedgerRow> {
    seq(|ledger|, i requires 0 <= i < |ledger| =>
      ledger[i].(occurrence := CountLines(ledger, i + 1, ledger[i].name)))
  }

  lemma {:induction false} ListingIsUnique(rows: seq<TableRow>, table: seq<TableRow>)
    requires Lists(rows, table)
    requires forall i, j :: 0 <= i < j < |table| ==> table[i].startedAt < table[j].startedAt
    ensures rows == table
  {
    if table == [] {
      assert |multiset(rows)| == |rows|;
    } else {
      ListingHeadIsEarliest(rows, table);
      ListingTail(rows, table);
      ListingIsUnique(rows[1..], table[1..]);
      assert rows == [rows[0]] + rows[1..] && table == [table[0]] + table[1..];
    }
  }

  lemma ListingTail(rows: seq<TableRow>, table: seq<TableRow>)
    requires Lists(rows, table) && rows != [] && table != [] && rows[0] == table[0]
    ensures Lists(rows[1..], table[1..])
  {
    MultisetOfTail(rows);
    MultisetOfTail(table);
  }

  lemma ListingHeadIsEarliest(rows: seq<TableRow>, table: seq<TableRow>)
    requires Lists(rows, table) && table != []
    requires forall i, j :: 0 <= i < j < |table| ==> table[i].startedAt < table[j].startedAt
    ensures rows != [] && rows[0] == table[0]
  {
    assert table[0] in multiset(rows);
    assert rows[0] in multiset(table);
    var i :| 0 <= i < |rows| && rows[i] == table[0];
    var j :| 0 <= j < |table| && table[j] == rows[0];
  }

  lemma {:induction false} SeededCounts(ledger: seq<LedgerRow>, ids: seq<string>, n: nat, name: string)
    requires |ids| == |ledger| && n <= |ledger|
    ensures CountNames(Seeded(ledger, ids), n, name) == CountLines(ledger, n, name)
  {
    if n > 0 {
      SeededCounts(ledger, ids, n - 1, name);
    }
  }

  /**
   Seeding and reading back is the ledger with ranks for occurrences, whatever the frozen
   occurrence column says and in whatever order the database stores the rows.
   */
  lemma SeedThenRead(ledger: seq<LedgerRow>, ids: seq<string>, rows: seq<TableRow>)
    requires |ids| == |ledger| && Lists(rows, Seeded(ledger, ids))
    ensures History(rows) == Ok(Ranked(ledger))
  {
    ListingIsUnique(rows, Seeded(ledger, ids));
    forall i | 0 <= i < |ledger|
      ensures ReadRow(rows, i) == Ranked(ledger)[i]
    {
      SeededCounts(ledger, ids, i + 1, ledger[i].name);
    }
    assert History(rows).value == Ranked(ledger);
  }

  lemma {:induction false} CountLinesGrows(ledger: seq<LedgerRow>, m: nat, n: nat, name: string)
    requires m <= n <= |ledger|
    ensures CountLines(ledger, m, name) <= CountLines(ledger, n, name)
    decreases n - m
  {
    if m < n {
      CountLinesGrows(ledger, m, n - 1, name);
    }
  }

  /** The line of a name that has a given rank. */
  lemma {:induction false} LineOfRank(ledger: seq<LedgerRow>, n: nat, name: string, rank: nat) returns (i: nat)
    requires n <= |ledger| && 1 <= rank <= CountLines(ledger, n, name)
    ensures i < n && ledger[i].name == name && CountLines(ledger, i + 1, name) == rank
  {
    if ledger[n - 1].name == name && CountLines(ledger, n, name) == rank {
      i := n - 1;
    } else {
      i := LineOfRank(ledger, n - 1, name, rank);
    }
  }

  predicate ReadsRank(ledger: seq<LedgerRow>, name: string, rank: nat) {
    exists i :: 0 <= i < |ledger| && ledger[i].name == name && Ranked(ledger)[i].occurrence == rank
  }

  /** The occurrences read for a name are exactly 1, 2, up to the number of its lines, each once. */
  lemma OccurrencesAreExactlyOneToN(ledger: seq<LedgerRow>, name: string)
    ensures forall i, j :: 0 <= i < j < |ledger| && ledger[i].name == ledger[j].name == name ==>
              Ranked(ledger)[i].occurrence < Ranked(ledger)[j].occurrence
    ensures forall i :: 0 <= i < |ledger| && ledger[i].name == name ==>
              1 <= Ranked(ledger)[i].occurrence <= CountLines(ledger, |ledger|, name)
    ensures forall rank :: 1 <= rank <= CountLines(ledger, |ledger|, name) ==> ReadsRank(ledger, name, rank)
  {
    forall i, j | 0 <= i < j < |ledger| && ledger[i].name == ledger[j].name == name
      ensures Ranked(ledger)[i].occurrence < Ranked(ledger)[j].occurrence
    {
      CountLinesGrows(ledger, i + 1, j, name);
    }
    forall i | 0 <= i < |ledger| && ledger[i].name == name
      ensures Ranked(ledger)[i].occurrence <= CountLines(ledger, |ledger|, name)
    {
      CountLinesGrows(ledger, i + 1, |ledger|, name);
    }
    forall rank | 1 <= rank <= CountLines(ledger, |ledger|, name)
      ensures ReadsRank(ledger, name, rank)
    {
      var i := LineOfRank(ledger, |ledger|, name, rank);
      assert Ranked(ledger)[i].occurrence == rank;
    }
  }

  /** No two lines agree in everything but their occurrence. */
  predicate DistinctAttempts(ledger: seq<LedgerRow>) {
    forall i, j :: 0 <= i < j < |ledger| ==>
      ledger[i].(occurrence := 0) != ledger[j].(occurrence := 0)
  }

  /**
   A seeded ledger compares equal to the frozen one when its occurrence column is the rank.
   The converse needs attempts that differ in more than their occurrence.
   */
  lemma SeededLedgerIsSameIffRanked(ledger: seq<LedgerRow>)
    requires forall row :: row in ledger ==> TabFree(row)
    ensures ledger == Ranked(ledger) ==> SameLedger(Ranked(ledger), ledger)
    ensures DistinctAttempts(ledger) ==> (SameLedger(Ranked(ledger), ledger) <==> ledger == Ranked(ledger))
  {
    SameLedgerIsSameRows(Ranked(ledger), ledger);
    if DistinctAttempts(ledger) && multiset(Ranked(ledger)) == multiset(ledger) {
      forall i | 0 <= i < |ledger|
        ensures ledger[i] == Ranked(ledger)[i]
      {
        assert ledger[i] in multiset(Ranked(ledger));
        var j :| 0 <= j < |Ranked(ledger)| && Ranked(ledger)[j] == ledger[i];
        assert ledger[j].(occurrence := 0) == ledger[i].(occurrence := 0);
      }
    }
  }

  /** Two identical attempts listed with their occurrences exchanged compare equal as well. */
  lemma ExchangedOccurrencesCompareEqual(name: string, checksum: string)
    requires TAB !in name && TAB !in checksum
    ensures
      var ledger := [LedgerRow(name, checksum, ROLLED_BACK, 0, 2), LedgerRow(name, checksum, ROLLED_BACK, 0, 1)];
      ledger != Ranked(ledger) && SameLedger(Ranked(ledger), ledger)
  {
    var ledger := [LedgerRow(name, checksum, ROLLED_BACK, 0, 2), LedgerRow(name, checksum, ROLLED_BACK, 0, 1)];
    assert CountLines(ledger, 1, name) == 1;
    assert CountLines(ledger, 2, name) == 2;
    assert Ranked(ledger) == [ledger[1], ledger[0]];
    assert multiset(Ranked(ledger)) == multiset(ledger);
    SameLedgerIsSameRows(Ranked(ledger), ledger);
  }
}
