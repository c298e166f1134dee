/**
 The five judgements scripts/verify-migration-state.ts passes on an attempt ledger:
 verifyActiveRows, verifyHistory, inspectRecoveryState, classifyPredeploy and the
 expected-lineage gate of main.
 */
module MigrationVerify {
  import opened Options
  import opened MigrationLedger

  /** activeMigrations(): the directories in lexicographic order with the hash of each file. */
  datatype Inventory = Inventory(order: seq<string>, sha: map<string, string>)

  datatype Policy = Policy(sha256: string, maxRolledBack: int, hasReason: bool)

  datatype Manifest = Manifest(baseline: string, baselineSha: string, recovery: map<string, Policy>)

  datatype Mode = FreshMode | LegacyMode | CutoverMode

  datatype Lineage = Fresh | Cutover

  datatype Problem =
    | UnresolvedAttempt
    | BaselineMismatch
    | LegacyMismatch
    | LegacyRowInFresh
    | ActiveRowBeforeCutover
    | ActiveRejected
    | SuccessNotUnique
    | UnknownMigration
    | HistoryMissing
    | NotAPrefix
    | UnknownLineage
    | BaselineMissing
    | BaselineResolveRequired
    | LineageMismatch

  const MAX_SAFE_INTEGER: int := 9007199254740991

  function Names(rows: seq<LedgerRow>): set<string> {
    set row | row in rows :: row.name
  }

  /** rows.filter(row => names.has(row.name)). */
  function Named(rows: seq<LedgerRow>, names: set<string>): seq<LedgerRow> {
    if rows == [] then []
    else
      var before := Named(rows[..|rows| - 1], names);
      before + (if rows[|rows| - 1].name in names then [rows[|rows| - 1]] else [])
  }

  function Count(rows: seq<LedgerRow>, name: string, status: RowStatus): nat {
    if rows == [] then 0
    else
      var before := Count(rows[..|rows| - 1], name, status);
      before + (if rows[|rows| - 1].name == name && rows[|rows| - 1].status == status then 1 else 0)
  }

  // ------------------------------------------------------ active migrations

  predicate PolicyHolds(active: Inventory, name: string, policy: Policy) {
    && name in active.sha && active.sha[name] == policy.sha256
    && 1 <= policy.maxRolledBack <= MAX_SAFE_INTEGER && policy.hasReason
  }

  /** activeRecoveryAllowance; None is its exception. */
  function Allowance(m: Manifest, active: Inventory, name: string): Option<int> {
    if name !in m.recovery then Some(0)
    else if PolicyHolds(active, name, m.recovery[name]) then Some(m.recovery[name].maxRolledBack)
    else None
  }

  predicate RowHolds(active: Inventory, row: LedgerRow) {
    && row.name in active.sha && row.checksum == active.sha[row.name]
    && (row.status == SUCCEEDED || row.steps == 0)
  }

  predicate RollbacksAllowed(m: Manifest, active: Inventory, rows: seq<LedgerRow>, name: string) {
    var count := Count(rows, name, ROLLED_BACK);
    count > 0 ==> Allowance(m, active, name).Some? && count <= Allowance(m, active, name).value
  }

  predicate PoliciesHold(m: Manifest, active: Inventory) {
    forall name :: name in m.recovery ==> Allowance(m, active, name).Some?
  }

  predicate RowsAccepted(m: Manifest, active: Inventory, rows: seq<LedgerRow>) {
    && (forall row :: row in rows ==> RowHolds(active, row))
    && (forall row :: row in rows ==> RollbacksAllowed(m, active, rows, row.name))
  }

  /** What verifyActiveRows accepts: the policies of migrations without any row count as well. */
  predicate ActiveAccepted(m: Manifest, active: Inventory, rows: seq<LedgerRow>) {
    RowsAccepted(m, active, rows) && PoliciesHold(m, active)
  }

  ghost predicate CountsAre(counts: map<string, nat>, rows: seq<LedgerRow>, status: RowStatus) {
    && (forall name :: name in counts <==> Count(rows, name, status) > 0)
    && (forall name :: name in counts ==> counts[name] == Count(rows, name, status))
  }

  /** The first loop of verifyActiveRows (lines 174-189). */
  method TallyRows(active: Inventory, rows: seq<LedgerRow>)
    returns (accepted: bool, succeeded: map<string, nat>, rolledBack: map<string, nat>)
    ensures accepted <==> forall row :: row in rows ==> RowHolds(active, row)
    ensures accepted ==> CountsAre(succeeded, rows, SUCCEEDED) && CountsAre(rolledBack, rows, ROLLED_BACK)
  {
    succeeded, rolledBack := map[], map[];
    for i := 0 to |rows|
      invariant forall row :: row in rows[..i] ==> RowHolds(active, row)
      invariant CountsAre(succeeded, rows[..i], SUCCEEDED)
      invariant CountsAre(rolledBack, rows[..i], ROLLED_BACK)
    {
      var row := rows[i];
      assert row in rows && rows[..i + 1][..i] == rows[..i];
      if !(row.name in active.sha && row.checksum == active.sha[row.name]) {
        return false, succeeded, rolledBack;
      }
      if row.status == SUCCEEDED {
        succeeded := succeeded[row.name := (if row.name in succeeded then succeeded[row.name] else 0) + 1];
      } else {
        if row.steps != 0 {
          return false, succeeded, rolledBack;
        }
        rolledBack := rolledBack[row.name := (if row.name in rolledBack then rolledBack[row.name] else 0) + 1];
      }
    }
    assert rows[..|rows|] == rows;
    accepted := true;
  }

  /** The second and third loops (lines 190-197): allowances of counted names, then of every policy. */
  method CheckAllowances(m: Manifest, active: Inventory, rolledBack: map<string, nat>) returns (accepted: bool)
    ensures accepted <==>
      && (forall name :: name in rolledBack ==>
           Allowance(m, active, name).Some? && rolledBack[name] <= Allowance(m, active, name).value)
      && PoliciesHold(m, active)
  {
    var unchecked := rolledBack.Keys;
    while unchecked != {}
      invariant unchecked <= rolledBack.Keys
      invariant forall name :: name in rolledBack.Keys - unchecked ==>
                  Allowance(m, active, name).Some? && rolledBack[name] <= Allowance(m, active, name).value
      decreases |unchecked|
    {
      var name :| name in unchecked;
      var allowance := Allowance(m, active, name);
      if allowance.None? || rolledBack[name] > allowance.value {
        return false;
      }
      unchecked := unchecked - {name};
    }
    var policies := m.recovery.Keys;
    while policies != {}
      invariant policies <= m.recovery.Keys
      invariant forall name :: name in m.recovery.Keys - policies ==> Allowance(m, active, name).Some?
      decreases |policies|
    {
      var name :| name in policies;
      if Allowance(m, active, name).None? {
        return false;
      }
      policies := policies - {name};
    }
    return true;
  }

  /** verifyActiveRows (lines 170-199): None is its exception, Some the count of successes per name. */
  method VerifyActiveRows(m: Manifest, active: Inventory, rows: seq<LedgerRow>) returns (r: Option<map<string, nat>>)
    ensures r.Some? <==> ActiveAccepted(m, active, rows)
    ensures r.Some? ==> CountsAre(r.value, rows, SUCCEEDED)
  {
    var accepted, succeeded, rolledBack := TallyRows(active, rows);
    if !accepted {
      return None;
    }
    CountedRowExists(rows);
    var allowed := CheckAllowances(m, active, rolledBack);
    if !allowed {
      return None;
    }
    return Some(succeeded);
  }

  /** A counted name is the name of some row. */
  lemma {:induction false} CountedRowExists(rows: seq<LedgerRow>)
    ensures forall name, status :: Count(rows, name, status) > 0 ==>
              exists row :: row in rows && row.name == name && row.status == status
  {
    if rows != [] {
      var n := |rows| - 1;
      CountedRowExists(rows[..n]);
      forall name, status | Count(rows, name, status) > 0
        ensures exists row :: row in rows && row.name == name && row.status == status
      {
        if Count(rows[..n], name, status) > 0 {
          var row :| row in rows[..n] && row.name == name && row.status == status;
          assert row in rows;
        } else {
          assert rows[n] in rows;
        }
      }
    }
  }

  predicate Applied(rows: seq<LedgerRow>, name: string) {
    Count(rows, name, SUCCEEDED) > 0
  }

  predicate AllSucceededOnce(active: Inventory, rows: seq<LedgerRow>) {
    forall name :: name in active.order ==> Count(rows, name, SUCCEEDED) == 1
  }

  predicate NoneSucceededTwice(rows: seq<LedgerRow>) {
    forall row :: row in rows ==> Count(rows, row.name, SUCCEEDED) <= 1
  }

  // --------------------------------------------------------- verifyHistory

  /** verifyHistory (lines 279-322). */
  function VerifyHistory(mode: Mode, m: Manifest, active: Inventory, legacy: seq<LedgerRow>, actual: seq<LedgerRow>)
    : Option<Problem>
  {
    var activeRows := Named(actual, active.sha.Keys);
    if !(m.baseline in active.sha && active.sha[m.baseline] == m.baselineSha) then Some(BaselineMismatch)
    else if (mode == LegacyMode || mode == CutoverMode) && !SameLedger(Named(actual, Names(legacy)), legacy) then
      Some(LegacyMismatch)
    else if mode == FreshMode && (exists row :: row in actual && row.name in Names(legacy)) then Some(LegacyRowInFresh)
    else if mode == LegacyMode && activeRows != [] then Some(ActiveRowBeforeCutover)
    else if mode != LegacyMode && !ActiveAccepted(m, active, activeRows) then Some(ActiveRejected)
    else if mode != LegacyMode && !AllSucceededOnce(active, activeRows) then Some(SuccessNotUnique)
    else if exists row :: row in actual && row.name !in Names(legacy) + active.sha.Keys then Some(UnknownMigration)
    else None
  }

  // --------------------------------------------------- inspectRecoveryState

  datatype RecoveryState = RecoverySucceeded | UnresolvedExact

  function CountTable(rows: seq<TableRow>, finished: bool, rolledBack: bool): nat {
    if rows == [] then 0
    else
      var before := CountTable(rows[..|rows| - 1], finished, rolledBack);
      before + (if rows[|rows| - 1].finished == finished && rows[|rows| - 1].rolledBack == rolledBack then 1 else 0)
  }

  function RowsOf(table: seq<TableRow>, name: string): seq<TableRow> {
    if table == [] then []
    else
      var before := RowsOf(table[..|table| - 1], name);
      before + (if table[|table| - 1].name == name then [table[|table| - 1]] else [])
  }

  /** inspectRecoveryState (lines 324-365); None is its exception. */
  function Inspect(m: Manifest, active: Inventory, table: seq<TableRow>, name: string): Option<RecoveryState> {
    if Allowance(m, active, name).None? || name !in active.sha || name !in m.recovery then None
    else
      var rows := RowsOf(table, name);
      var succeeded := CountTable(rows, true, false);
      var rolledBack := CountTable(rows, true, true) + CountTable(rows, false, true);
      var unresolved := CountTable(rows, false, false);
      if exists row :: row in rows && row.checksum != active.sha[name] then None
      else if exists row :: row in rows && Unresolved(row) && row.steps != 0 then None
      else if succeeded == 1 && unresolved == 0 && rolledBack <= Allowance(m, active, name).value then
        Some(RecoverySucceeded)
      else if succeeded == 0 && unresolved == 1 && rolledBack == 0 && |rows| == 1 then Some(UnresolvedExact)
      else None
  }

  // -------------------------------------------------------- classifyPredeploy

  /** The database before a deploy: rows are in the order of started_at. */
  datatype Database = Database(hasHistory: bool, userTables: nat, rows: seq<TableRow>)

  /** activeOrder.filter(name => activeCounts.has(name)). */
  function AppliedOrder(order: seq<string>, rows: seq<LedgerRow>): seq<string> {
    if order == [] then []
    else
      var before := AppliedOrder(order[..|order| - 1], rows);
      before + (if Applied(rows, order[|order| - 1]) then [order[|order| - 1]] else [])
  }

  lemma {:induction false} AppliedOrderIsShorter(order: seq<string>, rows: seq<LedgerRow>)
    ensures |AppliedOrder(order, rows)| <= |order|
  {
    if order != [] {
      AppliedOrderIsShorter(order[..|order| - 1], rows);
    }
  }

  /** The check of lines 411-416. */
  predicate AppliedIsPrefix(order: seq<string>, rows: seq<LedgerRow>) {
    && |AppliedOrder(order, rows)| <= |order|
    && AppliedOrder(order, rows) == order[..|AppliedOrder(order, rows)|]
  }

  /** The part of classifyPredeploy that follows readHistory (lines 382-434). */
  function ClassifyRows(m: Manifest, active: Inventory, legacy: seq<LedgerRow>, userTables: nat, actual: seq<LedgerRow>)
    : Result<Lineage, Problem>
  {
    var actualLegacy := Named(actual, Names(legacy));
    var activeRows := Named(actual, active.sha.Keys);
    if userTables == 0 && actual == [] then Ok(Fresh)
    else if exists row :: row in actual && row.name !in Names(legacy) + active.sha.Keys then Err(UnknownMigration)
    else if actualLegacy != [] && !SameLedger(actualLegacy, legacy) then Err(LegacyMismatch)
    else if !ActiveAccepted(m, active, activeRows) then Err(ActiveRejected)
    else if !NoneSucceededTwice(activeRows) then Err(SuccessNotUnique)
    else if !AppliedIsPrefix(active.order, activeRows) then Err(NotAPrefix)
    else if actualLegacy == [] then
      if activeRows == [] then Err(UnknownLineage)
      else if !Applied(activeRows, m.baseline) then Err(BaselineMissing)
      else Ok(Fresh)
    else if activeRows == [] then Err(BaselineResolveRequired)
    else if !Applied(activeRows, m.baseline) then Err(BaselineMissing)
    else Ok(Cutover)
  }

  /** classifyPredeploy (lines 367-435). */
  function Classify(m: Manifest, active: Inventory, legacy: seq<LedgerRow>, db: Database): Result<Lineage, Problem> {
    if !db.hasHistory && db.userTables == 0 then Ok(Fresh)
    else if !db.hasHistory then Err(HistoryMissing)
    else
      match History(db.rows)
      case Err(_) => Err(UnresolvedAttempt)
      case Ok(actual) => ClassifyRows(m, active, legacy, db.userTables, actual)
  }

  /** The predeploy branch of main with --expected-lineage (lines 621-627). */
  function Gate(m: Manifest, active: Inventory, legacy: seq<LedgerRow>, db: Database, expected: Option<Lineage>)
    : Result<Lineage, Problem>
  {
    match Classify(m, active, legacy, db)
    case Err(problem) => Err(problem)
    case Ok(lineage) => if expected.Some? && expected.value != lineage then Err(LineageMismatch) else Ok(lineage)
  }
}
