/**
 Losing legacy audit rows from a cut-over database: what classifyPredeploy answers, and why
 the expected-lineage gate is needed (scripts/test-migration-lineage-loss.ts).
 */
module MigrationLoss {
  import opened Options
  import opened MigrationLedger
  import opened MigrationVerify
  import opened MigrationLineage

  /** A ledger row without its occurrence, which depends on the rows around it. */
  function Content(row: LedgerRow): LedgerRow {
    row.(occurrence := 0)
  }

  function Contents(rows: seq<LedgerRow>): seq<LedgerRow> {
    seq(|rows|, i requires 0 <= i < |rows| => Content(rows[i]))
  }

  /** The contents of the table rows with the given names, in table order. */
  function TableContents(rows: seq<TableRow>, names: set<string>): seq<LedgerRow> {
    if rows == [] then []
    else
      var n := |rows| - 1;
      TableContents(rows[..n], names) + (if rows[n].name in names then [Content(ReadRow(rows, n))] else [])
  }

  lemma {:induction false} ContentsOfNamed(rows: seq<TableRow>, names: set<string>)
    requires History(rows).Ok?
    ensures Contents(Named(History(rows).value, names)) == TableContents(rows, names)
  {
    if rows != [] {
      var n := |rows| - 1;
      var row := rows[n];
      assert rows == rows[..n] + [row];
      assert forall x :: x in rows[..n] ==> x in rows;
      HistoryOfAppend(rows[..n], row);
      ContentsOfNamed(rows[..n], names);
      NamedOfAppend(History(rows[..n]).value, ReadRow(rows, n), names);
      var before := Named(History(rows[..n]).value, names);
      if row.name in names {
        assert Contents(before + [ReadRow(rows, n)]) == Contents(before) + [Content(ReadRow(rows, n))];
      } else {
        assert before + [] == before;
      }
    }
  }

  // ----------------------------- active rows are judged by content alone

  lemma {:induction false} CountOfContents(rows: seq<LedgerRow>, name: string, status: RowStatus)
    ensures Count(Contents(rows), name, status) == Count(rows, name, status)
  {
    if rows != [] {
      var n := |rows| - 1;
      CountOfContents(rows[..n], name, status);
      assert Contents(rows)[..n] == Contents(rows[..n]);
    }
  }

  lemma {:induction false} AppliedOrderOfContents(order: seq<string>, rows: seq<LedgerRow>)
    ensures AppliedOrder(order, Contents(rows)) == AppliedOrder(order, rows)
  {
    if order != [] {
      AppliedOrderOfContents(order[..|order| - 1], rows);
      CountOfContents(rows, order[|order| - 1], SUCCEEDED);
    }
  }

  lemma ActiveJudgedByContents(m: Manifest, active: Inventory, rows: seq<LedgerRow>)
    ensures ActiveAccepted(m, active, Contents(rows)) <==> ActiveAccepted(m, active, rows)
    ensures NoneSucceededTwice(Contents(rows)) <==> NoneSucceededTwice(rows)
  {
    forall row | row in rows
      ensures Content(row) in Contents(rows)
    {
      var i :| 0 <= i < |rows| && rows[i] == row;
      assert Contents(rows)[i] == Content(row);
    }
    forall row | row in Contents(rows)
      ensures exists x :: x in rows && Content(x) == row
    {
      var i :| 0 <= i < |rows| && Contents(rows)[i] == row;
      assert rows[i] in rows;
    }
    forall name, status
      ensures Count(Contents(rows), name, status) == Count(rows, name, status)
    {
      CountOfContents(rows, name, status);
    }
  }

  /** Two row lists with the same contents are judged alike. */
  lemma SameContentsSameJudgement(m: Manifest, active: Inventory, a: seq<LedgerRow>, b: seq<LedgerRow>)
    requires Contents(a) == Contents(b)
    ensures |a| == |b|
    ensures ActiveAccepted(m, active, a) <==> ActiveAccepted(m, active, b)
    ensures NoneSucceededTwice(a) <==> NoneSucceededTwice(b)
    ensures AppliedOrder(active.order, a) == AppliedOrder(active.order, b)
    ensures Applied(a, m.baseline) <==> Applied(b, m.baseline)
  {
    assert |Contents(a)| == |a| && |Contents(b)| == |b|;
    ActiveJudgedByContents(m, active, a);
    ActiveJudgedByContents(m, active, b);
    AppliedOrderOfContents(active.order, a);
    AppliedOrderOfContents(active.order, b);
    CountOfContents(a, m.baseline, SUCCEEDED);
    CountOfContents(b, m.baseline, SUCCEEDED);
  }

  // ------------------------------------------------------------- losing rows

  /** The table after the rows at the given positions have been deleted. */
  function Remaining(rows: seq<TableRow>, lost: set<nat>): seq<TableRow> {
    if rows == [] then []
    else
      var n := |rows| - 1;
      Remaining(rows[..n], lost) + (if n in lost then [] else [rows[n]])
  }

  /** Every lost position holds a row with one of the names. */
  predicate LosesOnly(rows: seq<TableRow>, lost: set<nat>, names: set<string>) {
    forall i :: i in lost ==> i < |rows| && rows[i].name in names
  }

  lemma {:induction false} RemainingAreRows(rows: seq<TableRow>, lost: set<nat>)
    ensures forall row :: row in Remaining(rows, lost) ==> row in rows
  {
    if rows != [] {
      RemainingAreRows(rows[..|rows| - 1], lost);
    }
  }

  lemma HistoryOfRemaining(rows: seq<TableRow>, lost: set<nat>)
    requires History(rows).Ok?
    ensures History(Remaining(rows, lost)).Ok?
  {
    RemainingAreRows(rows, lost);
  }

  /** Rows of names that lose nothing are all there, in their order. */
  lemma {:induction false} OthersRemain(rows: seq<TableRow>, lost: set<nat>, names: set<string>)
    requires forall i :: i in lost && i < |rows| ==> rows[i].name !in names
    ensures TableContents(Remaining(rows, lost), names) == TableContents(rows, names)
  {
    if rows != [] {
      var n := |rows| - 1;
      OthersRemain(rows[..n], lost, names);
      var before := Remaining(rows[..n], lost);
      if n !in lost {
        assert (before + [rows[n]])[..|before|] == before;
      } else {
        assert before + [] == before;
      }
    }
  }

  lemma RemainingStep(rows: seq<TableRow>, lost: set<nat>, names: set<string>)
    requires rows != []
    ensures
      var n := |rows| - 1;
      |TableContents(Remaining(rows, lost), names)|
        == |TableContents(Remaining(rows[..n], lost), names)| + if n !in lost && rows[n].name in names then 1 else 0
  {
    var n := |rows| - 1;
    var before := Remaining(rows[..n], lost);
    if n !in lost {
      assert (before + [rows[n]])[..|before|] == before;
    } else {
      assert before + [] == before;
    }
  }

  /** Every lost row of a name makes the rows of that name fewer. */
  lemma {:induction false} LostAreMissed(rows: seq<TableRow>, lost: set<nat>, names: set<string>)
    ensures |TableContents(Remaining(rows, lost), names)| <= |TableContents(rows, names)|
    ensures (exists i :: i in lost && i < |rows| && rows[i].name in names) ==>
      |TableContents(Remaining(rows, lost), names)| < |TableContents(rows, names)|
  {
    if rows != [] {
      var n := |rows| - 1;
      LostAreMissed(rows[..n], lost, names);
      RemainingStep(rows, lost, names);
      if exists i :: i in lost && i < |rows| && rows[i].name in names {
        var i :| i in lost && i < |rows| && rows[i].name in names;
        if i < n {
          assert rows[..n][i].name in names;
        }
      }
    }
  }

  function Lost(db: Database, lost: set<nat>): Database {
    db.(rows := Remaining(db.rows, lost))
  }

  /** The ledger a cut-over database reads after losing legacy rows. */
  lemma LostLedger(active: Inventory, legacy: seq<LedgerRow>, rows: seq<TableRow>, lost: set<nat>)
    requires History(rows).Ok? && active.sha.Keys !! Names(legacy)
    requires LosesOnly(rows, lost, Names(legacy)) && lost != {}
    ensures History(Remaining(rows, lost)).Ok?
    ensures
      var before, after := History(rows).value, History(Remaining(rows, lost)).value;
      && Contents(Named(after, active.sha.Keys)) == Contents(Named(before, active.sha.Keys))
      && |Named(after, Names(legacy))| < |Named(before, Names(legacy))|
  {
    HistoryOfRemaining(rows, lost);
    var left := Remaining(rows, lost);
    var before, after := History(rows).value, History(left).value;
    ContentsOfNamed(rows, active.sha.Keys);
    ContentsOfNamed(left, active.sha.Keys);
    OthersRemain(rows, lost, active.sha.Keys);
    ContentsOfNamed(rows, Names(legacy));
    ContentsOfNamed(left, Names(legacy));
    LostAreMissed(rows, lost, Names(legacy));
    var i :| i in lost;
    assert |Contents(Named(after, Names(legacy)))| < |Contents(Named(before, Names(legacy)))|;
  }

  lemma KnownRemain(rows: seq<TableRow>, lost: set<nat>, known: set<string>)
    requires History(rows).Ok? && History(Remaining(rows, lost)).Ok?
    requires forall row :: row in History(rows).value ==> row.name in known
    ensures forall row :: row in History(Remaining(rows, lost)).value ==> row.name in known
  {
    RemainingAreRows(rows, lost);
    var after := History(Remaining(rows, lost)).value;
    forall i | 0 <= i < |after|
      ensures after[i].name in known
    {
      assert Remaining(rows, lost)[i] in rows;
      var j :| 0 <= j < |rows| && rows[j] == Remaining(rows, lost)[i];
      assert History(rows).value[j] in History(rows).value;
    }
  }

  /** Ledgers of different lengths never compare equal. */
  lemma ShorterLedgerDiffers(actual: seq<LedgerRow>, expected: seq<LedgerRow>)
    requires (forall row :: row in expected ==> TabFree(row)) && |actual| != |expected|
    ensures !SameLedger(actual, expected)
  {
    SameLedgerIsSameRows(actual, expected);
    assert |multiset(actual)| == |actual| && |multiset(expected)| == |expected|;
  }

  /**
   From a database accepted as cut over, losing some but not all legacy rows is an error, and
   losing all of them reads as a fresh database: only the expected lineage gives it away. The
   gate therefore refuses every loss.
   */
  lemma LegacyLossIsRefused(m: Manifest, active: Inventory, legacy: seq<LedgerRow>, db: Database, lost: set<nat>)
    requires active.sha.Keys !! Names(legacy) && forall row :: row in legacy ==> TabFree(row)
    requires Accepted(m, active, legacy, db, Cutover)
    requires LosesOnly(db.rows, lost, Names(legacy)) && lost != {}
    ensures
      var after := Classify(m, active, legacy, Lost(db, lost));
      if exists row :: row in Remaining(db.rows, lost) && row.name in Names(legacy)
      then after == Err(LegacyMismatch)
      else after == Ok(Fresh)
    ensures Gate(m, active, legacy, Lost(db, lost), Some(Cutover)).Err?
  {
    var left := Remaining(db.rows, lost);
    LostLedger(active, legacy, db.rows, lost);
    CutoverIsKnown(m, active, legacy, db.userTables, History(db.rows).value);
    KnownRemain(db.rows, lost, Names(legacy) + active.sha.Keys);
    LostRowsAreClassified(m, active, legacy, db.userTables, History(db.rows).value, History(left).value);
    LegacyLeft(left, Names(legacy));
  }

  lemma CutoverIsKnown(m: Manifest, active: Inventory, legacy: seq<LedgerRow>, userTables: nat, actual: seq<LedgerRow>)
    requires ClassifyRows(m, active, legacy, userTables, actual) == Ok(Cutover)
    ensures forall row :: row in actual ==> row.name in Names(legacy) + active.sha.Keys
  {
  }

  lemma LostRowsAreClassified(m: Manifest, active: Inventory, legacy: seq<LedgerRow>, userTables: nat,
                              before: seq<LedgerRow>, after: seq<LedgerRow>)
    requires forall row :: row in legacy ==> TabFree(row)
    requires ClassifyRows(m, active, legacy, userTables, before) == Ok(Cutover)
    requires forall row :: row in after ==> row.name in Names(legacy) + active.sha.Keys
    requires Contents(Named(after, active.sha.Keys)) == Contents(Named(before, active.sha.Keys))
    requires |Named(after, Names(legacy))| < |Named(before, Names(legacy))|
    ensures ClassifyRows(m, active, legacy, userTables, after)
         == if Named(after, Names(legacy)) != [] then Err(LegacyMismatch) else Ok(Fresh)
  {
    SameContentsSameJudgement(m, active, Named(before, active.sha.Keys), Named(after, active.sha.Keys));
    LedgerLengthsAgree(Named(before, Names(legacy)), legacy);
    ShorterLedgerDiffers(Named(after, Names(legacy)), legacy);
    assert after != [];
  }

  lemma LedgerLengthsAgree(actual: seq<LedgerRow>, expected: seq<LedgerRow>)
    requires (forall row :: row in expected ==> TabFree(row)) && SameLedger(actual, expected)
    ensures |actual| == |expected|
  {
    SameLedgerIsSameRows(actual, expected);
    assert |multiset(actual)| == |actual| && |multiset(expected)| == |expected|;
  }

  /** Whether the filtered ledger is empty can be read off the table. */
  lemma LegacyLeft(rows: seq<TableRow>, names: set<string>)
    requires History(rows).Ok?
    ensures Named(History(rows).value, names) == [] <==> !(exists row :: row in rows && row.name in names)
  {
    var read := History(rows).value;
    NamedMembers(read, names);
    if exists row :: row in rows && row.name in names {
      var i :| 0 <= i < |rows| && rows[i].name in names;
      assert read[i] in Named(read, names);
    }
    if Named(read, names) != [] {
      var row := Named(read, names)[0];
      assert row in read;
      var i :| 0 <= i < |read| && read[i] == row;
      assert rows[i] in rows;
    }
  }
}
