/** How the judgements of MigrationVerify agree, along deploys, losses and recoveries. */
module MigrationLineage {
  import opened Options
  import opened MigrationLedger
  import opened MigrationVerify

  // ------------------------------------------------- the prefix check

  /** No applied migration has an unapplied one before it. */
  predicate NoGap(order: seq<string>, rows: seq<LedgerRow>) {
    forall i, j :: 0 <= i < j < |order| && Applied(rows, order[j]) ==> Applied(rows, order[i])
  }

  lemma {:induction false} AppliedOrderMembers(order: seq<string>, rows: seq<LedgerRow>)
    ensures forall name :: name in AppliedOrder(order, rows) ==> name in order && Applied(rows, name)
  {
    if order != [] {
      AppliedOrderMembers(order[..|order| - 1], rows);
    }
  }

  /** The first `k` names are applied and the others are not: the filter is the slice. */
  lemma {:induction false} AppliedOrderOfPrefix(order: seq<string>, rows: seq<LedgerRow>, k: nat)
    requires k <= |order|
    requires forall i :: 0 <= i < |order| ==> (Applied(rows, order[i]) <==> i < k)
    ensures AppliedOrder(order, rows) == order[..k]
  {
    if order != [] {
      var n := |order| - 1;
      AppliedOrderOfPrefix(order[..n], rows, if k <= n then k else n);
      if k == |order| {
        assert order[..k] == order[..n] + [order[n]];
      } else {
        assert order[..n][..k] == order[..k];
      }
    }
  }

  /** How far an order without gaps has been applied. */
  lemma {:induction false} AppliedLength(order: seq<string>, rows: seq<LedgerRow>) returns (k: nat)
    requires NoGap(order, rows)
    ensures k <= |order| && forall i :: 0 <= i < |order| ==> (Applied(rows, order[i]) <==> i < k)
  {
    if order == [] {
      k := 0;
    } else {
      var n := |order| - 1;
      k := AppliedLength(order[..n], rows);
      if Applied(rows, order[n]) {
        assert forall i :: 0 <= i < n ==> Applied(rows, order[..n][i]);
        k := n + 1;
      }
    }
  }

  lemma {:induction false} AppliedOrderCountsMembers(order: seq<string>, rows: seq<LedgerRow>, k: nat)
    requires k <= |order| && forall i :: 0 <= i < k ==> Applied(rows, order[i])
    ensures |AppliedOrder(order, rows)| >= k
    ensures (exists j :: k <= j < |order| && Applied(rows, order[j])) ==> |AppliedOrder(order, rows)| > k
    decreases |order|
  {
    if order != [] {
      var n := |order| - 1;
      AppliedOrderCountsMembers(order[..n], rows, if k <= n then k else n);
      if k <= n && exists j :: k <= j < |order| && Applied(rows, order[j]) {
        var j :| k <= j < |order| && Applied(rows, order[j]);
        if j < n {
          assert Applied(rows, order[..n][j]);
        }
      }
    }
  }

  /** The filter-versus-slice comparison holds exactly when the applied set has no gap. */
  lemma PrefixIffNoGap(order: seq<string>, rows: seq<LedgerRow>)
    ensures AppliedIsPrefix(order, rows) <==> NoGap(order, rows)
  {
    AppliedOrderIsShorter(order, rows);
    if NoGap(order, rows) {
      var k := AppliedLength(order, rows);
      AppliedOrderOfPrefix(order, rows, k);
    }
    if AppliedIsPrefix(order, rows) {
      var k := |AppliedOrder(order, rows)|;
      AppliedOrderMembers(order, rows);
      forall i | 0 <= i < k
        ensures Applied(rows, order[i])
      {
        assert order[i] == AppliedOrder(order, rows)[i];
      }
      AppliedOrderCountsMembers(order, rows, k);
    }
  }

  // ---------------------------------------------------------- appending

  lemma NamedOfAppend(rows: seq<LedgerRow>, row: LedgerRow, names: set<string>)
    ensures Named(rows + [row], names) == Named(rows, names) + if row.name in names then [row] else []
  {
    assert (rows + [row])[..|rows|] == rows;
  }

  lemma CountOfAppend(rows: seq<LedgerRow>, row: LedgerRow, name: string, status: RowStatus)
    ensures Count(rows + [row], name, status)
         == Count(rows, name, status) + if row.name == name && row.status == status then 1 else 0
  {
    assert (rows + [row])[..|rows|] == rows;
  }

  lemma {:induction false} NamedMembers(rows: seq<LedgerRow>, names: set<string>)
    ensures forall row :: row in Named(rows, names) <==> row in rows && row.name in names
  {
    if rows != [] {
      var n := |rows| - 1;
      NamedMembers(rows[..n], names);
      assert rows == rows[..n] + [rows[n]];
    }
  }

  lemma {:induction false} CountNamesOfAppend(rows: seq<TableRow>, row: TableRow, n: nat, name: string)
    requires n <= |rows|
    ensures CountNames(rows + [row], n, name) == CountNames(rows, n, name)
  {
    if n > 0 {
      CountNamesOfAppend(rows, row, n - 1, name);
    }
  }

  /** One more resolved attempt at the end of the table is one more ledger row. */
  lemma HistoryOfAppend(rows: seq<TableRow>, row: TableRow)
    requires History(rows).Ok? && !Unresolved(row)
    ensures History(rows + [row]).Ok?
    ensures History(rows + [row]).value == History(rows).value + [ReadRow(rows + [row], |rows|)]
  {
    assert forall x :: x in rows + [row] ==> x in rows || x == row;
    var read := History(rows + [row]).value;
    forall i | 0 <= i < |rows|
      ensures read[i] == History(rows).value[i]
    {
      CountNamesOfAppend(rows, row, i + 1, rows[i].name);
    }
    assert read == History(rows).value + [ReadRow(rows + [row], |rows|)];
  }

  // ------------------------------------------------------------- deploying

  /** What the repository guarantees about its two inventories. */
  predicate Inventories(m: Manifest, active: Inventory, legacy: seq<LedgerRow>) {
    && (forall i, j :: 0 <= i < j < |active.order| ==> active.order[i] != active.order[j])
    && active.sha.Keys == (set name | name in active.order)
    && active.order != [] && active.order[0] == m.baseline
    && active.sha[m.baseline] == m.baselineSha
    && active.sha.Keys !! Names(legacy)
  }

  /** The attempts the database holds; a missing history table holds none. */
  function Attempts(db: Database): seq<TableRow> {
    if db.hasHistory then db.rows else []
  }

  /** How many active migrations have been applied. */
  function Progress(active: Inventory, db: Database): nat {
    match History(Attempts(db))
    case Err(_) => 0
    case Ok(actual) => |AppliedOrder(active.order, Named(actual, active.sha.Keys))|
  }

  /** The row a successful deploy of the next missing migration adds. */
  predicate IsDeployOf(row: TableRow, active: Inventory, name: string) {
    row.name == name && name in active.sha && row.checksum == active.sha[name] && row.finished && !row.rolledBack
  }

  function Deployed(db: Database, row: TableRow, userTables: nat): Database {
    Database(true, userTables, Attempts(db) + [row])
  }

  predicate Accepted(m: Manifest, active: Inventory, legacy: seq<LedgerRow>, db: Database, lineage: Lineage) {
    Classify(m, active, legacy, db) == Ok(lineage)
  }

  /** The lineage, unless a recovery policy does not match its migration. */
  function Judged(m: Manifest, active: Inventory, lineage: Lineage): Result<Lineage, Problem> {
    if PoliciesHold(m, active) then Ok(lineage) else Err(ActiveRejected)
  }

  /** What a deploy starts from, in every database the classifier accepts: an empty one says nothing about policies. */
  lemma AcceptedMeans(m: Manifest, active: Inventory, legacy: seq<LedgerRow>, db: Database, lineage: Lineage)
    requires Inventories(m, active, legacy) && Accepted(m, active, legacy, db, lineage)
    ensures History(Attempts(db)).Ok?
    ensures Settled(m, active, legacy, History(Attempts(db)).value, lineage)
    ensures Attempts(db) != [] ==> PoliciesHold(m, active)
  {
    var actual := History(Attempts(db)).value;
    if actual == [] {
      assert Named(actual, Names(legacy)) == [] && Named(actual, active.sha.Keys) == [];
      AppliedOrderOfPrefix(active.order, [], 0);
    }
  }

  /** The conditions both lineages share, without the ones that need a first row. */
  predicate Settled(m: Manifest, active: Inventory, legacy: seq<LedgerRow>, actual: seq<LedgerRow>, lineage: Lineage) {
    && (forall row :: row in actual ==> row.name in Names(legacy) + active.sha.Keys)
    && LegacySettled(legacy, Named(actual, Names(legacy)), lineage)
    && ActiveSettled(m, active, Named(actual, active.sha.Keys), lineage)
  }

  predicate LegacySettled(legacy: seq<LedgerRow>, actualLegacy: seq<LedgerRow>, lineage: Lineage) {
    if lineage == Fresh then actualLegacy == [] else actualLegacy != [] && SameLedger(actualLegacy, legacy)
  }

  predicate ActiveSettled(m: Manifest, active: Inventory, activeRows: seq<LedgerRow>, lineage: Lineage) {
    && RowsAccepted(m, active, activeRows)
    && NoneSucceededTwice(activeRows)
    && AppliedIsPrefix(active.order, activeRows)
    && (activeRows != [] ==> Applied(activeRows, m.baseline))
    && (lineage == Cutover ==> activeRows != [])
  }

  lemma SettledIsJudged(m: Manifest, active: Inventory, legacy: seq<LedgerRow>, db: Database, lineage: Lineage)
    requires Inventories(m, active, legacy) && db.hasHistory && History(db.rows).Ok?
    requires Settled(m, active, legacy, History(db.rows).value, lineage)
    requires Named(History(db.rows).value, active.sha.Keys) != []
    ensures Classify(m, active, legacy, db) == Judged(m, active, lineage)
  {
    assert History(db.rows).value != [];
  }

  /** Appending the success of the next missing migration keeps every shared condition. */
  lemma NextSuccessKeepsSettled(m: Manifest, active: Inventory, legacy: seq<LedgerRow>, actual: seq<LedgerRow>,
                                lineage: Lineage, row: LedgerRow)
    requires Inventories(m, active, legacy) && Settled(m, active, legacy, actual, lineage)
    requires var k := |AppliedOrder(active.order, Named(actual, active.sha.Keys))|;
             k < |active.order| && row.name == active.order[k]
    requires row.checksum == active.sha[row.name] && row.status == SUCCEEDED
    ensures Settled(m, active, legacy, actual + [row], lineage)
    ensures Named(actual + [row], active.sha.Keys) != []
    ensures |AppliedOrder(active.order, Named(actual + [row], active.sha.Keys))|
         == |AppliedOrder(active.order, Named(actual, active.sha.Keys))| + 1
  {
    assert row.name in active.order && row.name in active.sha.Keys && row.name !in Names(legacy);
    NamedOfAppend(actual, row, Names(legacy));
    assert Named(actual + [row], Names(legacy)) == Named(actual, Names(legacy));
    NamedOfAppend(actual, row, active.sha.Keys);
    assert Named(actual + [row], active.sha.Keys) == Named(actual, active.sha.Keys) + [row];
    NextSuccessKeepsActive(m, active, Named(actual, active.sha.Keys), lineage, row);
    assert forall x :: x in actual + [row] ==> x in actual || x == row;
  }

  lemma NextSuccessKeepsActive(m: Manifest, active: Inventory, rows: seq<LedgerRow>, lineage: Lineage, row: LedgerRow)
    requires forall i, j :: 0 <= i < j < |active.order| ==> active.order[i] != active.order[j]
    requires active.order != [] && active.order[0] == m.baseline && ActiveSettled(m, active, rows, lineage)
    requires var k := |AppliedOrder(active.order, rows)|; k < |active.order| && row.name == active.order[k]
    requires RowHolds(active, row) && row.status == SUCCEEDED
    ensures ActiveSettled(m, active, rows + [row], lineage)
    ensures |AppliedOrder(active.order, rows + [row])| == |AppliedOrder(active.order, rows)| + 1
  {
    NextSuccessAdvances(active, rows, row);
    NextSuccessIsAccepted(m, active, rows, row);
    BaselineStaysApplied(m, active, rows, row);
  }

  /** The first success is the baseline's, and later rows do not undo it. */
  lemma BaselineStaysApplied(m: Manifest, active: Inventory, rows: seq<LedgerRow>, row: LedgerRow)
    requires active.order != [] && active.order[0] == m.baseline && AppliedIsPrefix(active.order, rows)
    requires var k := |AppliedOrder(active.order, rows)|; k < |active.order| && row.name == active.order[k]
    requires row.status == SUCCEEDED && (rows != [] ==> Applied(rows, m.baseline))
    ensures Applied(rows + [row], m.baseline)
  {
    CountOfAppend(rows, row, m.baseline, SUCCEEDED);
    if rows == [] {
      AppliedOrderOfPrefix(active.order, [], 0);
    }
  }

  lemma NextSuccessAdvances(active: Inventory, rows: seq<LedgerRow>, row: LedgerRow)
    requires forall i, j :: 0 <= i < j < |active.order| ==> active.order[i] != active.order[j]
    requires AppliedIsPrefix(active.order, rows)
    requires var k := |AppliedOrder(active.order, rows)|; k < |active.order| && row.name == active.order[k]
    requires row.status == SUCCEEDED
    ensures !Applied(rows, row.name)
    ensures AppliedIsPrefix(active.order, rows + [row])
    ensures |AppliedOrder(active.order, rows + [row])| == |AppliedOrder(active.order, rows)| + 1
  {
    var k := |AppliedOrder(active.order, rows)|;
    PrefixIffNoGap(active.order, rows);
    var length := AppliedLength(active.order, rows);
    AppliedOrderOfPrefix(active.order, rows, length);
    forall i | 0 <= i < |active.order|
      ensures Applied(rows + [row], active.order[i]) <==> i < k + 1
    {
      CountOfAppend(rows, row, active.order[i], SUCCEEDED);
    }
    AppliedOrderOfPrefix(active.order, rows + [row], k + 1);
  }

  lemma NextSuccessIsAccepted(m: Manifest, active: Inventory, rows: seq<LedgerRow>, row: LedgerRow)
    requires RowsAccepted(m, active, rows) && NoneSucceededTwice(rows)
    requires RowHolds(active, row) && row.status == SUCCEEDED && !Applied(rows, row.name)
    ensures RowsAccepted(m, active, rows + [row]) && NoneSucceededTwice(rows + [row])
  {
    CountedRowExists(rows);
    forall x | x in rows + [row]
      ensures RowHolds(active, x) && RollbacksAllowed(m, active, rows + [row], x.name)
      ensures Count(rows + [row], x.name, SUCCEEDED) <= 1
    {
      CountOfAppend(rows, row, x.name, ROLLED_BACK);
      CountOfAppend(rows, row, x.name, SUCCEEDED);
    }
  }

  /** The classifier has read these rows as the lineage, whatever it says about policies. */
  predicate InLineage(m: Manifest, active: Inventory, legacy: seq<LedgerRow>, db: Database, lineage: Lineage) {
    match History(Attempts(db))
    case Err(_) => false
    case Ok(actual) => Settled(m, active, legacy, actual, lineage)
  }

  /**
   A deploy of the next missing migration advances by one. It stays in the lineage exactly if
   the recovery policies match their migrations, which an accepted database with any attempt
   in its ledger implies.
   */
  lemma DeployKeepsLineage(m: Manifest, active: Inventory, legacy: seq<LedgerRow>, db: Database, lineage: Lineage,
                           row: TableRow, userTables: nat)
    requires Inventories(m, active, legacy) && Accepted(m, active, legacy, db, lineage)
    requires Progress(active, db) < |active.order| && IsDeployOf(row, active, active.order[Progress(active, db)])
    ensures Classify(m, active, legacy, Deployed(db, row, userTables)) == Judged(m, active, lineage)
    ensures Attempts(db) != [] ==> PoliciesHold(m, active)
    ensures Progress(active, Deployed(db, row, userTables)) == Progress(active, db) + 1
  {
    AcceptedMeans(m, active, legacy, db, lineage);
    DeployIsJudged(m, active, legacy, db, lineage, row, userTables);
  }

  lemma DeployIsJudged(m: Manifest, active: Inventory, legacy: seq<LedgerRow>, db: Database, lineage: Lineage,
                       row: TableRow, userTables: nat)
    requires Inventories(m, active, legacy) && InLineage(m, active, legacy, db, lineage)
    requires Progress(active, db) < |active.order| && IsDeployOf(row, active, active.order[Progress(active, db)])
    ensures InLineage(m, active, legacy, Deployed(db, row, userTables), lineage)
    ensures Classify(m, active, legacy, Deployed(db, row, userTables)) == Judged(m, active, lineage)
    ensures Progress(active, Deployed(db, row, userTables)) == Progress(active, db) + 1
  {
    var rows := Attempts(db);
    HistoryOfAppend(rows, row);
    NextSuccessKeepsSettled(m, active, legacy, History(rows).value, lineage, ReadRow(rows + [row], |rows|));
    SettledIsJudged(m, active, legacy, Deployed(db, row, userTables), lineage);
  }

  /** An empty database is accepted with a policy that the first deploy shows to be broken. */
  lemma EmptyDatabaseHidesPolicies()
    ensures
      var m := Manifest("1", "a", map["1" := Policy("b", 1, true)]);
      var active := Inventory(["1"], map["1" := "a"]);
      var db := Database(false, 0, []);
      && Inventories(m, active, [])
      && Accepted(m, active, [], db, Fresh)
      && forall row: TableRow, userTables: nat :: IsDeployOf(row, active, "1") ==>
           Classify(m, active, [], Deployed(db, row, userTables)) == Err(ActiveRejected)
  {
    var m := Manifest("1", "a", map["1" := Policy("b", 1, true)]);
    var active := Inventory(["1"], map["1" := "a"]);
    var db := Database(false, 0, []);
    assert Allowance(m, active, "1").None?;
    AppliedOrderOfPrefix(active.order, [], 0);
    forall row: TableRow, userTables: nat | IsDeployOf(row, active, "1")
      ensures Classify(m, active, [], Deployed(db, row, userTables)) == Err(ActiveRejected)
    {
      assert History(Attempts(db)).value == [];
      DeployKeepsLineage(m, active, [], db, Fresh, row, userTables);
    }
  }

  function ModeOf(lineage: Lineage): Mode {
    if lineage == Fresh then FreshMode else CutoverMode
  }

  /** Nothing is missing any more. */
  predicate Complete(active: Inventory, db: Database) {
    Progress(active, db) == |active.order|
  }

  /** verifyHistory accepts the ledger in the mode of the lineage. */
  predicate Verified(m: Manifest, active: Inventory, legacy: seq<LedgerRow>, db: Database, lineage: Lineage) {
    match History(Attempts(db))
    case Err(_) => false
    case Ok(actual) => VerifyHistory(ModeOf(lineage), m, active, legacy, actual).None?
  }

  lemma {:induction false} FullyAppliedCounts(order: seq<string>, rows: seq<LedgerRow>)
    requires |AppliedOrder(order, rows)| == |order|
    ensures forall name :: name in order ==> Applied(rows, name)
  {
    if order != [] {
      AppliedOrderIsShorter(order[..|order| - 1], rows);
      FullyAppliedCounts(order[..|order| - 1], rows);
    }
  }

  /** A ledger accepted as a lineage and fully applied passes verifyHistory in that mode. */
  lemma FullyAppliedVerifies(m: Manifest, active: Inventory, legacy: seq<LedgerRow>, db: Database, lineage: Lineage)
    requires Inventories(m, active, legacy) && Accepted(m, active, legacy, db, lineage)
    requires Complete(active, db)
    ensures Verified(m, active, legacy, db, lineage)
  {
    AcceptedMeans(m, active, legacy, db, lineage);
    if Attempts(db) == [] {
      AppliedOrderOfPrefix(active.order, [], 0);
    }
    CompleteLedgerVerifies(m, active, legacy, History(Attempts(db)).value, lineage);
  }

  lemma CompleteLedgerVerifies(m: Manifest, active: Inventory, legacy: seq<LedgerRow>, actual: seq<LedgerRow>, lineage: Lineage)
    requires Inventories(m, active, legacy) && Settled(m, active, legacy, actual, lineage)
    requires |AppliedOrder(active.order, Named(actual, active.sha.Keys))| == |active.order|
    ensures VerifyHistory(ModeOf(lineage), m, active, legacy, actual).None? <==> PoliciesHold(m, active)
  {
    var activeRows := Named(actual, active.sha.Keys);
    NamedMembers(actual, Names(legacy));
    EverySuccessIsSingle(active, activeRows);
  }

  lemma EverySuccessIsSingle(active: Inventory, rows: seq<LedgerRow>)
    requires active.sha.Keys == (set name | name in active.order) && NoneSucceededTwice(rows)
    requires |AppliedOrder(active.order, rows)| == |active.order|
    ensures AllSucceededOnce(active, rows)
  {
    FullyAppliedCounts(active.order, rows);
    CountedRowExists(rows);
    forall name | name in active.order
      ensures Count(rows, name, SUCCEEDED) == 1
    {
      assert Applied(rows, name);
    }
  }

  /** One deploy: the next missing migration has been appended, and tables may have come or gone. */
  predicate DeployStep(active: Inventory, db: Database, db': Database) {
    && Progress(active, db) < |active.order|
    && db'.hasHistory && db'.rows != [] && db'.rows[..|db'.rows| - 1] == Attempts(db)
    && IsDeployOf(db'.rows[|db'.rows| - 1], active, active.order[Progress(active, db)])
  }

  lemma DeployStepIsJudged(m: Manifest, active: Inventory, legacy: seq<LedgerRow>, db: Database, db': Database,
                           lineage: Lineage)
    requires Inventories(m, active, legacy) && InLineage(m, active, legacy, db, lineage) && DeployStep(active, db, db')
    ensures InLineage(m, active, legacy, db', lineage)
    ensures Classify(m, active, legacy, db') == Judged(m, active, lineage)
    ensures Progress(active, db') == Progress(active, db) + 1
  {
    var row := db'.rows[|db'.rows| - 1];
    assert db'.rows == Attempts(db) + [row];
    assert db' == Deployed(db, row, db'.userTables);
    DeployIsJudged(m, active, legacy, db, lineage, row, db'.userTables);
  }

  lemma {:induction false} DeployRunIsJudged(m: Manifest, active: Inventory, legacy: seq<LedgerRow>,
                                             dbs: seq<Database>, lineage: Lineage, n: nat)
    requires Inventories(m, active, legacy) && n < |dbs| && InLineage(m, active, legacy, dbs[0], lineage)
    requires forall i :: 0 < i < |dbs| ==> DeployStep(active, dbs[i - 1], dbs[i])
    ensures InLineage(m, active, legacy, dbs[n], lineage)
    ensures n > 0 ==> Classify(m, active, legacy, dbs[n]) == Judged(m, active, lineage)
    ensures Progress(active, dbs[n]) == Progress(active, dbs[0]) + n
  {
    if n > 0 {
      DeployRunIsJudged(m, active, legacy, dbs, lineage, n - 1);
      DeployStepIsJudged(m, active, legacy, dbs[n - 1], dbs[n], lineage);
    }
  }

  /**
   Along every run of deploys the classifier keeps answering the same lineage, and when
   nothing is missing any more verifyHistory accepts the ledger in the mode of the lineage:
   both exactly if the recovery policies match their migrations, which is known before the
   first deploy unless the database was empty.
   */
  lemma DeployRunKeepsLineage(m: Manifest, active: Inventory, legacy: seq<LedgerRow>,
                              dbs: seq<Database>, lineage: Lineage, n: nat)
    requires Inventories(m, active, legacy) && n < |dbs| && Accepted(m, active, legacy, dbs[0], lineage)
    requires forall i :: 0 < i < |dbs| ==> DeployStep(active, dbs[i - 1], dbs[i])
    ensures Classify(m, active, legacy, dbs[n]) == if n == 0 then Ok(lineage) else Judged(m, active, lineage)
    ensures Attempts(dbs[0]) != [] ==> PoliciesHold(m, active)
    ensures Progress(active, dbs[n]) == Progress(active, dbs[0]) + n
    ensures Complete(active, dbs[n]) ==> (Verified(m, active, legacy, dbs[n], lineage) <==> PoliciesHold(m, active))
  {
    AcceptedMeans(m, active, legacy, dbs[0], lineage);
    DeployRunIsJudged(m, active, legacy, dbs, lineage, n);
    if Complete(active, dbs[n]) {
      CompleteLedgerVerifies(m, active, legacy, History(Attempts(dbs[n])).value, lineage);
    }
  }

  // ------------------------------------------ what verifyHistory refuses

  /** The positions of the successes of a migration. */
  function Successes(rows: seq<LedgerRow>, name: string): set<nat> {
    set i: nat | i < |rows| && rows[i].name == name && rows[i].status == SUCCEEDED
  }

  lemma {:induction false} CountIsPositions(rows: seq<LedgerRow>, name: string)
    ensures Count(rows, name, SUCCEEDED) == |Successes(rows, name)|
  {
    if rows != [] {
      var n := |rows| - 1;
      CountIsPositions(rows[..n], name);
      var last := rows[n].name == name && rows[n].status == SUCCEEDED;
      assert Successes(rows, name) == Successes(rows[..n], name) + if last then {n} else {};
    }
  }

  lemma {:induction false} CountOfNamed(rows: seq<LedgerRow>, names: set<string>, name: string, status: RowStatus)
    requires name in names
    ensures Count(Named(rows, names), name, status) == Count(rows, name, status)
  {
    if rows != [] {
      var n := |rows| - 1;
      CountOfNamed(rows[..n], names, name, status);
      if rows[n].name in names {
        CountOfAppend(Named(rows[..n], names), rows[n], name, status);
      } else {
        assert Named(rows[..n], names) + [] == Named(rows[..n], names);
      }
    }
  }

  lemma NamedSuccesses(active: Inventory, actual: seq<LedgerRow>)
    requires active.sha.Keys == (set name | name in active.order)
    ensures AllSucceededOnce(active, Named(actual, active.sha.Keys))
       <==> forall name :: name in active.order ==> |Successes(actual, name)| == 1
  {
    forall name | name in active.order
      ensures Count(Named(actual, active.sha.Keys), name, SUCCEEDED) == |Successes(actual, name)|
    {
      CountOfNamed(actual, active.sha.Keys, name, SUCCEEDED);
      CountIsPositions(actual, name);
    }
  }

  /** The legacy rows are none, or the frozen ones with the same multiplicity. */
  predicate LegacyFits(mode: Mode, legacy: seq<LedgerRow>, actual: seq<LedgerRow>) {
    if mode == FreshMode then forall row :: row in actual ==> row.name !in Names(legacy)
    else multiset(Named(actual, Names(legacy))) == multiset(legacy)
  }

  predicate OnlyKnown(active: Inventory, legacy: seq<LedgerRow>, actual: seq<LedgerRow>) {
    forall row :: row in actual ==> row.name in active.sha || exists frozen :: frozen in legacy && frozen.name == row.name
  }

  predicate BaselineFits(m: Manifest, active: Inventory) {
    m.baseline in active.sha && active.sha[m.baseline] == m.baselineSha
  }

  /** Before the cutover verifyHistory accepts exactly the frozen rows, and no active one. */
  lemma LegacyHistoryIs(m: Manifest, active: Inventory, legacy: seq<LedgerRow>, actual: seq<LedgerRow>)
    requires forall row :: row in legacy ==> TabFree(row)
    ensures VerifyHistory(LegacyMode, m, active, legacy, actual).None? <==>
      && BaselineFits(m, active) && LegacyFits(LegacyMode, legacy, actual) && OnlyKnown(active, legacy, actual)
      && forall row :: row in actual ==> row.name !in active.sha
  {
    SameLedgerIsSameRows(Named(actual, Names(legacy)), legacy);
    NoneIsNamed(actual, active.sha.Keys);
    UnknownIsFound(active, legacy, actual);
  }

  /** Otherwise each active migration has exactly one success and the active rows are in order. */
  predicate ActiveFits(m: Manifest, active: Inventory, actual: seq<LedgerRow>) {
    && (forall name :: name in active.order ==> |Successes(actual, name)| == 1)
    && ActiveAccepted(m, active, Named(actual, active.sha.Keys))
  }

  lemma FreshHistoryIs(m: Manifest, active: Inventory, legacy: seq<LedgerRow>, actual: seq<LedgerRow>)
    requires active.sha.Keys == (set name | name in active.order)
    ensures VerifyHistory(FreshMode, m, active, legacy, actual).None? <==>
      && BaselineFits(m, active) && LegacyFits(FreshMode, legacy, actual) && OnlyKnown(active, legacy, actual)
      && ActiveFits(m, active, actual)
  {
    NamedSuccesses(active, actual);
    UnknownIsFound(active, legacy, actual);
  }

  lemma CutoverHistoryIs(m: Manifest, active: Inventory, legacy: seq<LedgerRow>, actual: seq<LedgerRow>)
    requires active.sha.Keys == (set name | name in active.order) && forall row :: row in legacy ==> TabFree(row)
    ensures VerifyHistory(CutoverMode, m, active, legacy, actual).None? <==>
      && BaselineFits(m, active) && LegacyFits(CutoverMode, legacy, actual) && OnlyKnown(active, legacy, actual)
      && ActiveFits(m, active, actual)
  {
    SameLedgerIsSameRows(Named(actual, Names(legacy)), legacy);
    NamedSuccesses(active, actual);
    UnknownIsFound(active, legacy, actual);
  }

  lemma NoneIsNamed(rows: seq<LedgerRow>, names: set<string>)
    ensures Named(rows, names) == [] <==> forall row :: row in rows ==> row.name !in names
  {
    NamedMembers(rows, names);
    if Named(rows, names) != [] {
      assert Named(rows, names)[0] in Named(rows, names);
    }
  }

  lemma UnknownIsFound(active: Inventory, legacy: seq<LedgerRow>, actual: seq<LedgerRow>)
    ensures OnlyKnown(active, legacy, actual)
       <==> !(exists row :: row in actual && row.name !in Names(legacy) + active.sha.Keys)
  {
  }

  /** A ledger the classifier accepts passes verifyHistory in the mode of its lineage exactly if nothing is missing. */
  lemma VerifiedIffComplete(m: Manifest, active: Inventory, legacy: seq<LedgerRow>, db: Database, lineage: Lineage)
    requires Inventories(m, active, legacy) && Accepted(m, active, legacy, db, lineage)
    ensures Verified(m, active, legacy, db, lineage) <==> Complete(active, db)
  {
    if Complete(active, db) {
      FullyAppliedVerifies(m, active, legacy, db, lineage);
    }
    if Verified(m, active, legacy, db, lineage) {
      var rows := Named(History(Attempts(db)).value, active.sha.Keys);
      assert AllSucceededOnce(active, rows);
      AppliedOrderOfPrefix(active.order, rows, |active.order|);
    }
  }

  /**
   The rollbacks a migration is allowed: none without a policy, the policy's number with one
   that is for its bytes, has a reason and a number from 1 to 2^53 - 1; a broken one is an error.
   */
  lemma AllowanceMeans(m: Manifest, active: Inventory, name: string)
    ensures name !in m.recovery ==> Allowance(m, active, name) == Some(0)
    ensures name in m.recovery ==>
      var policy := m.recovery[name];
      var holds := name in active.sha && policy.sha256 == active.sha[name] && policy.hasReason
        && 0 < policy.maxRolledBack < 9007199254740992;
      Allowance(m, active, name) == if holds then Some(policy.maxRolledBack) else None
  {
  }

  // ------------------------------------------------- every refusal is true

  /** The reasons verifyHistory gives, as it computes them. */
  lemma HistoryReasons(mode: Mode, m: Manifest, active: Inventory, legacy: seq<LedgerRow>, actual: seq<LedgerRow>, problem: Problem)
    requires VerifyHistory(mode, m, active, legacy, actual) == Some(problem)
    ensures problem == BaselineMismatch ==> !BaselineFits(m, active)
    ensures problem == LegacyMismatch ==> mode != FreshMode && !SameLedger(Named(actual, Names(legacy)), legacy)
    ensures problem == LegacyRowInFresh ==> mode == FreshMode && exists row :: row in actual && row.name in Names(legacy)
    ensures problem == ActiveRowBeforeCutover ==> mode == LegacyMode && Named(actual, active.sha.Keys) != []
    ensures problem == ActiveRejected ==> mode != LegacyMode && !ActiveAccepted(m, active, Named(actual, active.sha.Keys))
    ensures problem == SuccessNotUnique ==> mode != LegacyMode && !AllSucceededOnce(active, Named(actual, active.sha.Keys))
    ensures problem == UnknownMigration ==> exists row :: row in actual && row.name !in Names(legacy) + active.sha.Keys
    ensures problem in {BaselineMismatch, LegacyMismatch, LegacyRowInFresh, ActiveRowBeforeCutover, ActiveRejected,
                        SuccessNotUnique, UnknownMigration}
  {
  }

  /** They are true of the ledger. */
  predicate HistoryHas(mode: Mode, m: Manifest, active: Inventory, legacy: seq<LedgerRow>, actual: seq<LedgerRow>, problem: Problem) {
    match problem
    case BaselineMismatch => !BaselineFits(m, active)
    case LegacyMismatch => mode != FreshMode && multiset(Named(actual, Names(legacy))) != multiset(legacy)
    case LegacyRowInFresh => mode == FreshMode && exists row :: row in actual && row.name in Names(legacy)
    case ActiveRowBeforeCutover => mode == LegacyMode && exists row :: row in actual && row.name in active.sha
    case ActiveRejected => mode != LegacyMode && !ActiveAccepted(m, active, Named(actual, active.sha.Keys))
    case SuccessNotUnique => mode != LegacyMode && exists name :: name in active.order && |Successes(actual, name)| != 1
    case UnknownMigration => !OnlyKnown(active, legacy, actual)
    case _ => false
  }

  lemma HistoryRefusalIsTrue(mode: Mode, m: Manifest, active: Inventory, legacy: seq<LedgerRow>, actual: seq<LedgerRow>,
                             problem: Problem)
    requires active.sha.Keys == (set name | name in active.order) && forall row :: row in legacy ==> TabFree(row)
    requires VerifyHistory(mode, m, active, legacy, actual) == Some(problem)
    ensures HistoryHas(mode, m, active, legacy, actual, problem)
  {
    HistoryReasons(mode, m, active, legacy, actual, problem);
    match problem
    case LegacyMismatch => SameLedgerIsSameRows(Named(actual, Names(legacy)), legacy);
    case ActiveRowBeforeCutover => NoneIsNamed(actual, active.sha.Keys);
    case SuccessNotUnique => NamedSuccesses(active, actual);
    case UnknownMigration => UnknownIsFound(active, legacy, actual);
    case _ =>
  }

  /** The classifier's reasons about the rows it finds are true as well, */
  lemma ClassifierRefusalIsTrue(m: Manifest, active: Inventory, legacy: seq<LedgerRow>, userTables: nat, actual: seq<LedgerRow>)
    requires forall row :: row in legacy ==> TabFree(row)
    ensures ClassifyRows(m, active, legacy, userTables, actual) == Err(UnknownMigration) ==> !OnlyKnown(active, legacy, actual)
    ensures ClassifyRows(m, active, legacy, userTables, actual) == Err(LegacyMismatch) ==>
      Named(actual, Names(legacy)) != [] && multiset(Named(actual, Names(legacy))) != multiset(legacy)
    ensures ClassifyRows(m, active, legacy, userTables, actual) == Err(ActiveRejected) ==>
      !ActiveAccepted(m, active, Named(actual, active.sha.Keys))
  {
    ClassifierReasons(m, active, legacy, userTables, actual);
    SameLedgerIsSameRows(Named(actual, Names(legacy)), legacy);
    UnknownIsFound(active, legacy, actual);
  }

  lemma ClassifierReasons(m: Manifest, active: Inventory, legacy: seq<LedgerRow>, userTables: nat, actual: seq<LedgerRow>)
    ensures ClassifyRows(m, active, legacy, userTables, actual) == Err(UnknownMigration) ==>
      exists row :: row in actual && row.name !in Names(legacy) + active.sha.Keys
    ensures ClassifyRows(m, active, legacy, userTables, actual) == Err(LegacyMismatch) ==>
      Named(actual, Names(legacy)) != [] && !SameLedger(Named(actual, Names(legacy)), legacy)
    ensures ClassifyRows(m, active, legacy, userTables, actual) == Err(ActiveRejected) ==>
      !ActiveAccepted(m, active, Named(actual, active.sha.Keys))
  {
  }

  /** about the successes among the active ones, */
  lemma SuccessRefusalIsTrue(m: Manifest, active: Inventory, legacy: seq<LedgerRow>, userTables: nat, actual: seq<LedgerRow>)
    ensures
      var rows := Named(actual, active.sha.Keys);
      && (ClassifyRows(m, active, legacy, userTables, actual) == Err(SuccessNotUnique) ==>
           exists row :: row in rows && |Successes(rows, row.name)| > 1)
      && (ClassifyRows(m, active, legacy, userTables, actual) == Err(NotAPrefix) ==> !NoGap(active.order, rows))
  {
    var rows := Named(actual, active.sha.Keys);
    PrefixIffNoGap(active.order, rows);
    if ClassifyRows(m, active, legacy, userTables, actual) == Err(SuccessNotUnique) {
      DoubledSuccess(rows);
    }
  }

  /** and about the lineage they leave open; there is no other reason. */
  lemma OpenLineageIsTrue(m: Manifest, active: Inventory, legacy: seq<LedgerRow>, userTables: nat, actual: seq<LedgerRow>)
    ensures
      var frozen, rows := Named(actual, Names(legacy)), Named(actual, active.sha.Keys);
      match ClassifyRows(m, active, legacy, userTables, actual)
      case Ok(lineage) => (lineage == Cutover <==> frozen != []) && (rows == [] ==> userTables == 0 && actual == [])
      case Err(UnknownLineage) => frozen == [] && rows == [] && (userTables > 0 || actual != [])
      case Err(BaselineMissing) => rows != [] && Successes(rows, m.baseline) == {}
      case Err(BaselineResolveRequired) => frozen != [] && rows == []
      case Err(problem) => problem in {UnknownMigration, LegacyMismatch, ActiveRejected, SuccessNotUnique, NotAPrefix}
  {
    CountIsPositions(Named(actual, active.sha.Keys), m.baseline);
  }

  lemma DoubledSuccess(rows: seq<LedgerRow>)
    requires !NoneSucceededTwice(rows)
    ensures exists row :: row in rows && |Successes(rows, row.name)| > 1
  {
    var row :| row in rows && Count(rows, row.name, SUCCEEDED) > 1;
    CountIsPositions(rows, row.name);
  }

  /** The gate lets exactly the expected lineage pass, or any one that is accepted if none is expected. */
  lemma GateMeans(m: Manifest, active: Inventory, legacy: seq<LedgerRow>, db: Database, expected: Option<Lineage>)
    ensures forall lineage :: Gate(m, active, legacy, db, expected) == Ok(lineage) <==>
              Accepted(m, active, legacy, db, lineage) && (expected == None || expected == Some(lineage))
    ensures Classify(m, active, legacy, db).Err? ==> Gate(m, active, legacy, db, expected) == Err(Classify(m, active, legacy, db).error)
    ensures Classify(m, active, legacy, db).Ok? && Gate(m, active, legacy, db, expected).Err? ==>
              Gate(m, active, legacy, db, expected) == Err(LineageMismatch)
  {
  }

  /** What the classifier answers without looking at a row. */
  lemma RowlessAnswers(m: Manifest, active: Inventory, legacy: seq<LedgerRow>, db: Database)
    ensures !db.hasHistory ==>
      Classify(m, active, legacy, db) == if db.userTables == 0 then Ok(Fresh) else Err(HistoryMissing)
    ensures db.hasHistory ==>
      (Classify(m, active, legacy, db) == Err(UnresolvedAttempt) <==>
        exists row :: row in db.rows && !row.finished && !row.rolledBack)
    ensures db.hasHistory && db.rows == [] && db.userTables == 0 ==> Classify(m, active, legacy, db) == Ok(Fresh)
    ensures db.hasHistory && db.rows == [] && db.userTables > 0 ==>
      (Classify(m, active, legacy, db) == Err(UnknownLineage) || Classify(m, active, legacy, db) == Err(ActiveRejected))
  {
    if db.rows == [] {
      assert History(db.rows).value == [];
      AppliedOrderOfPrefix(active.order, [], 0);
    }
  }
}
