/**
 The recovery inspector agrees with the ledger checks, and the seeded legacy ledger walks
 through the modes: legacy, baseline resolve, cutover.
 */
module MigrationRecovery {
  import opened Options
  import opened MigrationLedger
  import opened MigrationVerify
  import opened MigrationLineage

  // --------------------------------------------- counting on the table itself

  /** The attempts of a name that are, or are not, rolled back. */
  function CountAttempts(table: seq<TableRow>, name: string, rolledBack: bool): nat {
    if table == [] then 0
    else
      var n := |table| - 1;
      CountAttempts(table[..n], name, rolledBack)
        + (if table[n].name == name && table[n].rolledBack == rolledBack then 1 else 0)
  }

  function StatusOf(rolledBack: bool): RowStatus {
    if rolledBack then ROLLED_BACK else SUCCEEDED
  }

  lemma {:induction false} CountsOfHistory(table: seq<TableRow>, name: string, rolledBack: bool)
    requires History(table).Ok?
    ensures Count(History(table).value, name, StatusOf(rolledBack)) == CountAttempts(table, name, rolledBack)
  {
    if table != [] {
      var n := |table| - 1;
      assert table == table[..n] + [table[n]];
      assert forall x :: x in table[..n] ==> x in table;
      HistoryOfAppend(table[..n], table[n]);
      CountsOfHistory(table[..n], name, rolledBack);
      CountOfAppend(History(table[..n]).value, ReadRow(table, n), name, StatusOf(rolledBack));
    }
  }

  lemma {:induction false} CountOfNamed(rows: seq<LedgerRow>, names: set<string>, name: string, status: RowStatus)
    requires name in names
    ensures Count(Named(rows, names), name, status) == Count(rows, name, status)
  {
    if rows != [] {
      var n := |rows| - 1;
      var before := Named(rows[..n], names);
      CountOfNamed(rows[..n], names, name, status);
      if rows[n].name in names {
        CountOfAppend(before, rows[n], name, status);
      } else {
        assert before + [] == before;
      }
    }
  }

  lemma {:induction false} CountAttemptsOfConcat(a: seq<TableRow>, b: seq<TableRow>, name: string, rolledBack: bool)
    ensures CountAttempts(a + b, name, rolledBack) == CountAttempts(a, name, rolledBack) + CountAttempts(b, name, rolledBack)
  {
    if b == [] {
      assert a + b == a;
    } else {
      assert (a + b)[..|a + b| - 1] == a + b[..|b| - 1];
      CountAttemptsOfConcat(a, b[..|b| - 1], name, rolledBack);
    }
  }

  /** What verifyActiveRows asks of the table rows behind the ledger. */
  predicate TableAccepted(m: Manifest, active: Inventory, table: seq<TableRow>) {
    && (forall row :: row in table && row.name in active.sha ==>
         && row.checksum == active.sha[row.name] && (row.rolledBack ==> row.steps == 0)
         && RollbackCountAllowed(m, active, table, row.name))
    && PoliciesHold(m, active)
  }

  predicate RollbackCountAllowed(m: Manifest, active: Inventory, table: seq<TableRow>, name: string) {
    var count := CountAttempts(table, name, true);
    count > 0 ==> Allowance(m, active, name).Some? && count <= Allowance(m, active, name).value
  }

  lemma ActiveRowsOfTable(active: Inventory, table: seq<TableRow>)
    requires History(table).Ok?
    ensures forall i :: 0 <= i < |table| && table[i].name in active.sha ==>
              ReadRow(table, i) in Named(History(table).value, active.sha.Keys)
    ensures forall row :: row in Named(History(table).value, active.sha.Keys) ==>
              exists i :: 0 <= i < |table| && row == ReadRow(table, i) && table[i].name in active.sha
  {
    var read := History(table).value;
    NamedMembers(read, active.sha.Keys);
    forall i | 0 <= i < |table| && table[i].name in active.sha
      ensures ReadRow(table, i) in Named(read, active.sha.Keys)
    {
      assert read[i] == ReadRow(table, i);
    }
    forall row | row in Named(read, active.sha.Keys)
      ensures exists i :: 0 <= i < |table| && row == ReadRow(table, i) && table[i].name in active.sha
    {
      var i :| 0 <= i < |read| && read[i] == row;
      assert row == ReadRow(table, i);
    }
  }

  lemma ActiveCounts(active: Inventory, table: seq<TableRow>, name: string, rolledBack: bool)
    requires History(table).Ok? && name in active.sha
    ensures Count(Named(History(table).value, active.sha.Keys), name, StatusOf(rolledBack))
         == CountAttempts(table, name, rolledBack)
  {
    CountsOfHistory(table, name, rolledBack);
    CountOfNamed(History(table).value, active.sha.Keys, name, StatusOf(rolledBack));
  }

  lemma LedgerAcceptedIffTableAccepted(m: Manifest, active: Inventory, table: seq<TableRow>)
    requires History(table).Ok?
    ensures ActiveAccepted(m, active, Named(History(table).value, active.sha.Keys)) <==> TableAccepted(m, active, table)
  {
    var rows := Named(History(table).value, active.sha.Keys);
    ActiveRowsOfTable(active, table);
    forall name | name in active.sha
      ensures RollbacksAllowed(m, active, rows, name) <==> RollbackCountAllowed(m, active, table, name)
    {
      ActiveCounts(active, table, name, true);
    }
    if ActiveAccepted(m, active, rows) {
      LedgerAcceptedTable(m, active, table, rows);
    }
    if TableAccepted(m, active, table) {
      TableAcceptedLedger(m, active, table, rows);
    }
  }

  lemma LedgerAcceptedTable(m: Manifest, active: Inventory, table: seq<TableRow>, rows: seq<LedgerRow>)
    requires forall i :: 0 <= i < |table| && table[i].name in active.sha ==> ReadRow(table, i) in rows
    requires forall name :: name in active.sha && RollbacksAllowed(m, active, rows, name) ==>
               RollbackCountAllowed(m, active, table, name)
    requires ActiveAccepted(m, active, rows)
    ensures TableAccepted(m, active, table)
  {
    forall row | row in table && row.name in active.sha
      ensures row.checksum == active.sha[row.name] && (row.rolledBack ==> row.steps == 0)
      ensures RollbackCountAllowed(m, active, table, row.name)
    {
      var i :| 0 <= i < |table| && table[i] == row;
      assert RowHolds(active, ReadRow(table, i)) && RollbacksAllowed(m, active, rows, row.name);
    }
  }

  lemma TableAcceptedLedger(m: Manifest, active: Inventory, table: seq<TableRow>, rows: seq<LedgerRow>)
    requires forall row :: row in rows ==> exists i :: 0 <= i < |table| && row == ReadRow(table, i) && table[i].name in active.sha
    requires forall name :: name in active.sha && RollbackCountAllowed(m, active, table, name) ==>
               RollbacksAllowed(m, active, rows, name)
    requires TableAccepted(m, active, table)
    ensures ActiveAccepted(m, active, rows)
  {
    forall row | row in rows
      ensures RowHolds(active, row) && RollbacksAllowed(m, active, rows, row.name)
    {
      var i :| 0 <= i < |table| && row == ReadRow(table, i) && table[i].name in active.sha;
      assert table[i] in table && RollbackCountAllowed(m, active, table, row.name);
    }
  }

  // --------------------------------------------------------- the inspector

  lemma {:induction false} RowsOfMembers(table: seq<TableRow>, name: string)
    ensures forall row :: row in RowsOf(table, name) <==> row in table && row.name == name
  {
    if table != [] {
      var n := |table| - 1;
      RowsOfMembers(table[..n], name);
      assert table == table[..n] + [table[n]];
    }
  }

  lemma {:induction false} CountTableIsPositive(rows: seq<TableRow>)
    ensures CountTable(rows, false, false) > 0 <==> exists row :: row in rows && Unresolved(row)
  {
    if rows != [] {
      var n := |rows| - 1;
      CountTableIsPositive(rows[..n]);
      assert rows == rows[..n] + [rows[n]];
      if CountTable(rows[..n], false, false) > 0 {
        var row :| row in rows[..n] && Unresolved(row);
        assert row in rows;
      } else if Unresolved(rows[n]) {
        assert rows[n] in rows;
      } else {
        assert forall row :: row in rows ==> row in rows[..n] || row == rows[n];
      }
    }
  }

  lemma {:induction false} InspectorSums(table: seq<TableRow>, name: string)
    ensures
      var rows := RowsOf(table, name);
      && CountTable(rows, true, true) + CountTable(rows, false, true) == CountAttempts(table, name, true)
      && CountTable(rows, true, false) + CountTable(rows, false, false) == CountAttempts(table, name, false)
      && |rows| == CountAttempts(table, name, true) + CountAttempts(table, name, false)
  {
    if table != [] {
      var n := |table| - 1;
      InspectorSums(table[..n], name);
      var before := RowsOf(table[..n], name);
      if table[n].name == name {
        assert (before + [table[n]])[..|before|] == before;
      } else {
        assert before + [] == before;
      }
    }
  }

  lemma InspectorCounts(table: seq<TableRow>, name: string)
    ensures
      var rows := RowsOf(table, name);
      && CountTable(rows, true, true) + CountTable(rows, false, true) == CountAttempts(table, name, true)
      && CountTable(rows, true, false) + CountTable(rows, false, false) == CountAttempts(table, name, false)
      && |rows| == CountAttempts(table, name, true) + CountAttempts(table, name, false)
      && (CountTable(rows, false, false) > 0 <==> exists row :: row in table && row.name == name && Unresolved(row))
      && forall row :: row in rows <==> row in table && row.name == name
  {
    InspectorSums(table, name);
    RowsOfMembers(table, name);
    CountTableIsPositive(RowsOf(table, name));
  }

  /** The inspector covers this migration: it is active and has a recovery policy. */
  predicate Inspectable(m: Manifest, active: Inventory, name: string) {
    name in active.sha && name in m.recovery
  }

  /** Rows that verifyActiveRows accepts, with one success of the migration, are SUCCEEDED. */
  lemma AcceptedSuccessIsSucceeded(m: Manifest, active: Inventory, table: seq<TableRow>, name: string)
    requires History(table).Ok? && Inspectable(m, active, name)
    requires ActiveAccepted(m, active, Named(History(table).value, active.sha.Keys))
    requires Count(Named(History(table).value, active.sha.Keys), name, SUCCEEDED) == 1
    ensures Inspect(m, active, table, name) == Some(RecoverySucceeded)
  {
    LedgerAcceptedIffTableAccepted(m, active, table);
    ActiveCounts(active, table, name, false);
    InspectorCounts(table, name);
    AttemptExists(table, name, false);
  }

  lemma {:induction false} AttemptExists(table: seq<TableRow>, name: string, rolledBack: bool)
    requires CountAttempts(table, name, rolledBack) > 0
    ensures exists row :: row in table && row.name == name && row.rolledBack == rolledBack
  {
    var n := |table| - 1;
    if table[n].name == name && table[n].rolledBack == rolledBack {
      assert table[n] in table;
    } else {
      AttemptExists(table[..n], name, rolledBack);
      var row :| row in table[..n] && row.name == name && row.rolledBack == rolledBack;
      assert row in table;
    }
  }

  /** SUCCEEDED is no more than that: one success, resolved, with the bytes and rollbacks in order. */
  lemma SucceededMeansAccepted(m: Manifest, active: Inventory, table: seq<TableRow>, name: string)
    requires Inspect(m, active, table, name) == Some(RecoverySucceeded)
    ensures Inspectable(m, active, name)
    ensures CountAttempts(table, name, false) == 1 && RollbackCountAllowed(m, active, table, name)
    ensures forall row :: row in table && row.name == name ==>
              !Unresolved(row) && row.checksum == active.sha[name]
  {
    InspectorCounts(table, name);
  }

  /** The positions of a migration's attempts that are, or are not, rolled back. */
  function AttemptsAt(table: seq<TableRow>, name: string, rolledBack: bool): set<nat> {
    set i: nat | i < |table| && table[i].name == name && table[i].rolledBack == rolledBack
  }

  lemma LastAttempt(table: seq<TableRow>, n: nat, name: string, rolledBack: bool)
    requires |table| == n + 1
    ensures
      var before := AttemptsAt(table[..n], name, rolledBack);
      && n !in before
      && AttemptsAt(table, name, rolledBack)
           == if table[n].name == name && table[n].rolledBack == rolledBack then before + {n} else before
  {
  }

  lemma {:induction false} AttemptsAreCounted(table: seq<TableRow>, name: string, rolledBack: bool)
    ensures CountAttempts(table, name, rolledBack) == |AttemptsAt(table, name, rolledBack)|
  {
    if table != [] {
      var n := |table| - 1;
      AttemptsAreCounted(table[..n], name, rolledBack);
      LastAttempt(table, n, name, rolledBack);
    }
  }

  /** SUCCEEDED is answered exactly for one success, everything resolved, and rollbacks within the allowance. */
  lemma SucceededIff(m: Manifest, active: Inventory, table: seq<TableRow>, name: string)
    ensures Inspect(m, active, table, name) == Some(RecoverySucceeded) <==>
      && Inspectable(m, active, name)
      && (forall row :: row in table && row.name == name ==> !Unresolved(row) && row.checksum == active.sha[name])
      && |AttemptsAt(table, name, false)| == 1
      && Allowance(m, active, name).Some? && |AttemptsAt(table, name, true)| <= Allowance(m, active, name).value
  {
    InspectorCounts(table, name);
    AttemptsAreCounted(table, name, true);
    AttemptsAreCounted(table, name, false);
  }

  /** UNRESOLVED_EXACT exactly for a single attempt, unresolved, without a step and with the right bytes. */
  lemma UnresolvedExactIff(m: Manifest, active: Inventory, table: seq<TableRow>, name: string)
    ensures Inspect(m, active, table, name) == Some(UnresolvedExact) <==>
      && Inspectable(m, active, name) && Allowance(m, active, name).Some?
      && |AttemptsAt(table, name, false)| == 1 && AttemptsAt(table, name, true) == {}
      && forall row :: row in table && row.name == name ==> !row.finished && row.steps == 0 && row.checksum == active.sha[name]
  {
    var rows := RowsOf(table, name);
    InspectorCounts(table, name);
    AttemptsAreCounted(table, name, true);
    AttemptsAreCounted(table, name, false);
    if |rows| == 1 {
      assert rows[0] in rows && forall row :: row in rows ==> row == rows[0];
      OneRowIsCounted(rows);
    }
  }

  lemma OneRowIsCounted(rows: seq<TableRow>)
    requires |rows| == 1
    ensures forall finished, rolledBack ::
              CountTable(rows, finished, rolledBack) == if rows[0].finished == finished && rows[0].rolledBack == rolledBack then 1 else 0
  {
    assert rows[..0] == [];
  }

  /** An UNRESOLVED_EXACT ledger is one readHistory refuses. */
  lemma UnresolvedExactStopsHistory(m: Manifest, active: Inventory, table: seq<TableRow>, name: string)
    requires Inspect(m, active, table, name) == Some(UnresolvedExact)
    ensures History(table).Err?
  {
    InspectorCounts(table, name);
  }

  /** Marking the attempt rolled back and appending one success (prisma migrate resolve, then deploy). */
  function Recovered(before: seq<TableRow>, attempt: TableRow, after: seq<TableRow>, success: TableRow): seq<TableRow> {
    before + [attempt.(rolledBack := true)] + after + [success]
  }

  /**
   Recovery of an UNRESOLVED_EXACT migration whose other rows are in order: the ledger reads
   again, verifyActiveRows accepts it with exactly one success, and the inspector says SUCCEEDED.
   */
  lemma RecoveryLeadsBothToAccept(m: Manifest, active: Inventory, before: seq<TableRow>, attempt: TableRow,
                                  after: seq<TableRow>, success: TableRow, name: string)
    requires Inspect(m, active, before + [attempt] + after, name) == Some(UnresolvedExact) && attempt.name == name
    requires History(before + after).Ok? && TableAccepted(m, active, before + after)
    requires IsDeployOf(success, active, name)
    ensures
      var table := Recovered(before, attempt, after, success);
      && History(table).Ok?
      && ActiveAccepted(m, active, Named(History(table).value, active.sha.Keys))
      && Count(Named(History(table).value, active.sha.Keys), name, SUCCEEDED) == 1
      && Inspect(m, active, table, name) == Some(RecoverySucceeded)
  {
    var table := Recovered(before, attempt, after, success);
    UnresolvedAttemptIsAlone(m, active, before, attempt, after, name);
    forall row | row in table
      ensures row in before + after || row == attempt.(rolledBack := true) || row == success
    {
    }
    RecoveredCounts(before, attempt, after, success, name);
    RecoveredTableIsAccepted(m, active, before, attempt, after, success, name);
    LedgerAcceptedIffTableAccepted(m, active, table);
    ActiveCounts(active, table, name, false);
    AcceptedSuccessIsSucceeded(m, active, table, name);
  }

  lemma UnresolvedAttemptIsAlone(m: Manifest, active: Inventory, before: seq<TableRow>, attempt: TableRow,
                                 after: seq<TableRow>, name: string)
    requires Inspect(m, active, before + [attempt] + after, name) == Some(UnresolvedExact) && attempt.name == name
    ensures Inspectable(m, active, name) && attempt.checksum == active.sha[name]
    ensures !attempt.finished && !attempt.rolledBack && attempt.steps == 0
    ensures CountAttempts(before + after, name, true) == 0 && CountAttempts(before + after, name, false) == 0
  {
    var table := before + [attempt] + after;
    UnresolvedExactMeans(m, active, table, name);
    assert attempt in table;
    CountAttemptsAround(before, attempt, after, name, true);
    CountAttemptsAround(before, attempt, after, name, false);
  }

  lemma UnresolvedExactMeans(m: Manifest, active: Inventory, table: seq<TableRow>, name: string)
    requires Inspect(m, active, table, name) == Some(UnresolvedExact)
    ensures Inspectable(m, active, name)
    ensures CountAttempts(table, name, true) == 0 && CountAttempts(table, name, false) == 1
    ensures forall row :: row in table && row.name == name ==>
              row.checksum == active.sha[name] && (Unresolved(row) ==> row.steps == 0)
    ensures forall row :: row in table && row.name == name ==> Unresolved(row)
  {
    InspectorCounts(table, name);
    var rows := RowsOf(table, name);
    assert |rows| == 1 && rows == [rows[0]];
    var row :| row in table && row.name == name && Unresolved(row);
    assert row in rows;
  }

  lemma CountAttemptsAround(before: seq<TableRow>, row: TableRow, after: seq<TableRow>, name: string, rolledBack: bool)
    ensures CountAttempts(before + [row] + after, name, rolledBack)
         == CountAttempts(before + after, name, rolledBack)
            + if row.name == name && row.rolledBack == rolledBack then 1 else 0
  {
    CountAttemptsOfConcat(before + [row], after, name, rolledBack);
    CountAttemptsOfConcat(before, [row], name, rolledBack);
    CountAttemptsOfConcat(before, after, name, rolledBack);
    assert [row][..0] == [];
  }

  lemma RecoveredCounts(before: seq<TableRow>, attempt: TableRow, after: seq<TableRow>, success: TableRow, name: string)
    requires attempt.name == name && success.name == name && !success.rolledBack
    ensures forall other, rolledBack ::
      CountAttempts(Recovered(before, attempt, after, success), other, rolledBack)
      == CountAttempts(before + after, other, rolledBack) + if other == name then 1 else 0
  {
    forall other, rolledBack
      ensures CountAttempts(Recovered(before, attempt, after, success), other, rolledBack)
           == CountAttempts(before + after, other, rolledBack) + if other == name then 1 else 0
    {
      var marked := attempt.(rolledBack := true);
      CountAttemptsOfConcat(before + [marked] + after, [success], other, rolledBack);
      CountAttemptsAround(before, marked, after, other, rolledBack);
      assert [success][..0] == [];
      assert CountAttempts([success], other, rolledBack) == if other == name && !rolledBack then 1 else 0;
    }
  }

  lemma RecoveredTableIsAccepted(m: Manifest, active: Inventory, before: seq<TableRow>, attempt: TableRow,
                                 after: seq<TableRow>, success: TableRow, name: string)
    requires TableAccepted(m, active, before + after) && Inspectable(m, active, name)
    requires attempt.name == name && attempt.checksum == active.sha[name] && attempt.steps == 0
    requires CountAttempts(before + after, name, true) == 0 && IsDeployOf(success, active, name)
    ensures TableAccepted(m, active, Recovered(before, attempt, after, success))
  {
    var table := Recovered(before, attempt, after, success);
    RecoveredCounts(before, attempt, after, success, name);
    forall row | row in table && row.name in active.sha
      ensures row.checksum == active.sha[row.name] && (row.rolledBack ==> row.steps == 0)
      ensures RollbackCountAllowed(m, active, table, row.name)
    {
      assert row in before + after || row == attempt.(rolledBack := true) || row == success;
      if row.name == name {
        assert CountAttempts(table, name, true) == 1;
        assert Allowance(m, active, name).Some?;
      }
    }
  }

  // -------------------------------------------------- legacy mode and cutover

  lemma {:induction false} NamedKeepsAll(rows: seq<LedgerRow>, names: set<string>)
    requires forall row :: row in rows ==> row.name in names
    ensures Named(rows, names) == rows
  {
    if rows != [] {
      var n := |rows| - 1;
      NamedKeepsAll(rows[..n], names);
      assert rows == rows[..n] + [rows[n]];
    }
  }

  lemma {:induction false} NamedKeepsNone(rows: seq<LedgerRow>, names: set<string>)
    requires forall row :: row in rows ==> row.name !in names
    ensures Named(rows, names) == []
  {
    if rows != [] {
      var n := |rows| - 1;
      NamedKeepsNone(rows[..n], names);
      assert rows[n] in rows;
    }
  }

  lemma RankedKeepsNames(ledger: seq<LedgerRow>)
    ensures forall row :: row in Ranked(ledger) ==> row.name in Names(ledger)
    ensures Names(Ranked(ledger)) == Names(ledger)
  {
    forall i | 0 <= i < |ledger|
      ensures ledger[i].name in Names(ledger) && Ranked(ledger)[i].name in Names(Ranked(ledger))
    {
      assert ledger[i] in ledger && Ranked(ledger)[i] in Ranked(ledger);
    }
  }

  /**
   Legacy mode accepts a freshly seeded database exactly when the baseline bytes match, no
   legacy name is active, and the frozen ledger equals its ranked form row for row, with
   multiplicity.
   */
  lemma SeededLegacyMode(m: Manifest, active: Inventory, legacy: seq<LedgerRow>, ids: seq<string>, rows: seq<TableRow>)
    requires (forall row :: row in legacy ==> TabFree(row)) && |ids| == |legacy| && Lists(rows, Seeded(legacy, ids))
    ensures History(rows).Ok?
    ensures VerifyHistory(LegacyMode, m, active, legacy, History(rows).value).None? <==>
      && m.baseline in active.sha && active.sha[m.baseline] == m.baselineSha
      && active.sha.Keys !! Names(legacy)
      && multiset(Ranked(legacy)) == multiset(legacy)
  {
    SeedThenRead(legacy, ids, rows);
    RankedFilters(active, legacy);
    RankedKeepsNames(legacy);
    LegacyModeOnLegacyRows(m, active, legacy, Ranked(legacy));
  }

  /** Legacy mode on a ledger that has only legacy names. */
  lemma LegacyModeOnLegacyRows(m: Manifest, active: Inventory, legacy: seq<LedgerRow>, actual: seq<LedgerRow>)
    requires (forall row :: row in legacy ==> TabFree(row)) && (forall row :: row in actual ==> row.name in Names(legacy))
    requires Named(actual, Names(legacy)) == actual
    ensures VerifyHistory(LegacyMode, m, active, legacy, actual).None? <==>
      && m.baseline in active.sha && active.sha[m.baseline] == m.baselineSha
      && Named(actual, active.sha.Keys) == []
      && multiset(actual) == multiset(legacy)
  {
    SameLedgerIsSameRows(actual, legacy);
    LegacyModeCompares(m, active, legacy, actual);
  }

  lemma LegacyModeCompares(m: Manifest, active: Inventory, legacy: seq<LedgerRow>, actual: seq<LedgerRow>)
    requires forall row :: row in actual ==> row.name in Names(legacy)
    requires Named(actual, Names(legacy)) == actual
    ensures VerifyHistory(LegacyMode, m, active, legacy, actual).None? <==>
      && m.baseline in active.sha && active.sha[m.baseline] == m.baselineSha
      && Named(actual, active.sha.Keys) == []
      && SameLedger(actual, legacy)
  {
    assert forall row :: row in actual ==> row.name in Names(legacy) + active.sha.Keys;
  }

  /** The two filters of verifyHistory on the ranked ledger. */
  lemma RankedFilters(active: Inventory, legacy: seq<LedgerRow>)
    ensures Named(Ranked(legacy), Names(legacy)) == Ranked(legacy)
    ensures Named(Ranked(legacy), active.sha.Keys) == [] <==> active.sha.Keys !! Names(legacy)
  {
    var actual := Ranked(legacy);
    RankedKeepsNames(legacy);
    NamedKeepsAll(actual, Names(legacy));
    NamedMembers(actual, active.sha.Keys);
    if active.sha.Keys !! Names(legacy) {
      NamedKeepsNone(actual, active.sha.Keys);
    } else {
      var name :| name in active.sha.Keys && name in Names(actual);
      var row :| row in actual && row.name == name;
      assert row in Named(actual, active.sha.Keys);
    }
  }

  /**
   A database that legacy mode accepts is asked for the baseline first; with the baseline
   resolved as applied it is accepted as cut over. Legacy mode does not look at the recovery
   policies: both hold exactly if those match their migrations.
   */
  lemma BaselineResolveCutsOver(m: Manifest, active: Inventory, legacy: seq<LedgerRow>, db: Database, row: TableRow)
    requires Inventories(m, active, legacy) && legacy != [] && forall x :: x in legacy ==> TabFree(x)
    requires db.hasHistory && History(db.rows).Ok?
    requires VerifyHistory(LegacyMode, m, active, legacy, History(db.rows).value).None?
    requires IsDeployOf(row, active, m.baseline)
    ensures Classify(m, active, legacy, db)
         == Err(if PoliciesHold(m, active) then BaselineResolveRequired else ActiveRejected)
    ensures Classify(m, active, legacy, Deployed(db, row, db.userTables)) == Judged(m, active, Cutover)
  {
    var actual := History(db.rows).value;
    LegacyModeMeans(m, active, legacy, actual);
    HistoryOfAppend(db.rows, row);
    var read := ReadRow(db.rows + [row], |db.rows|);
    ResolvedBaselineIsSettled(m, active, legacy, actual, read);
    SettledIsJudged(m, active, legacy, Deployed(db, row, db.userTables), Cutover);
    UnresolvedBaselineIsAsked(m, active, legacy, db.userTables, actual);
  }

  lemma LegacyModeMeans(m: Manifest, active: Inventory, legacy: seq<LedgerRow>, actual: seq<LedgerRow>)
    requires legacy != [] && forall row :: row in legacy ==> TabFree(row)
    requires VerifyHistory(LegacyMode, m, active, legacy, actual).None?
    ensures Named(actual, active.sha.Keys) == []
    ensures LegacySettled(legacy, Named(actual, Names(legacy)), Cutover)
    ensures forall row :: row in actual ==> row.name in Names(legacy) + active.sha.Keys
  {
    var actualLegacy := Named(actual, Names(legacy));
    SameLedgerIsSameRows(actualLegacy, legacy);
    assert legacy[0] in multiset(legacy);
    assert legacy[0] in multiset(actualLegacy);
  }

  lemma UnresolvedBaselineIsAsked(m: Manifest, active: Inventory, legacy: seq<LedgerRow>, userTables: nat,
                                  actual: seq<LedgerRow>)
    requires Named(actual, active.sha.Keys) == []
    requires LegacySettled(legacy, Named(actual, Names(legacy)), Cutover)
    requires forall row :: row in actual ==> row.name in Names(legacy) + active.sha.Keys
    ensures ClassifyRows(m, active, legacy, userTables, actual)
         == Err(if PoliciesHold(m, active) then BaselineResolveRequired else ActiveRejected)
  {
    AppliedOrderOfPrefix(active.order, [], 0);
  }

  lemma ResolvedBaselineIsSettled(m: Manifest, active: Inventory, legacy: seq<LedgerRow>, actual: seq<LedgerRow>,
                                  read: LedgerRow)
    requires Inventories(m, active, legacy)
    requires Named(actual, active.sha.Keys) == [] && LegacySettled(legacy, Named(actual, Names(legacy)), Cutover)
    requires forall row :: row in actual ==> row.name in Names(legacy) + active.sha.Keys
    requires RowHolds(active, read) && read.status == SUCCEEDED && read.name == m.baseline
    ensures Settled(m, active, legacy, actual + [read], Cutover)
    ensures Named(actual + [read], active.sha.Keys) != []
  {
    assert m.baseline in active.order && read.name in active.sha.Keys && read.name !in Names(legacy);
    NamedOfAppend(actual, read, Names(legacy));
    assert Named(actual + [read], Names(legacy)) == Named(actual, Names(legacy));
    NamedOfAppend(actual, read, active.sha.Keys);
    assert Named(actual + [read], active.sha.Keys) == [read];
    NextSuccessKeepsFresh(m, active, read);
    assert forall x :: x in actual + [read] ==> x in actual || x == read;
  }

  lemma NextSuccessKeepsFresh(m: Manifest, active: Inventory, read: LedgerRow)
    requires active.order != [] && active.order[0] == m.baseline
    requires forall i, j :: 0 <= i < j < |active.order| ==> active.order[i] != active.order[j]
    requires RowHolds(active, read) && read.status == SUCCEEDED && read.name == m.baseline
    ensures ActiveSettled(m, active, [read], Fresh) && Applied([read], m.baseline)
  {
    AppliedOrderOfPrefix(active.order, [], 0);
    NextSuccessKeepsActive(m, active, [], Fresh, read);
    assert [] + [read] == [read];
  }
}
