/**
 dataFingerprint of scripts/verify-migration-state.ts (lines 556-612): row counts of all
 tables before and after a migration, with the tables that go and the tables that come
 declared by name. A database is the row count of each base table but the history table.
 */
module DataFingerprint {
  import opened Options
  import opened SortedKeys

  type Tables = map<string, nat>

  datatype TableCount = TableCount(tableName: string, rowCount: nat)

  datatype Fingerprint = Fingerprint(count: nat, digest: string)

  /** The names /^[a-zA-Z0-9_]+$/ admits. */
  predicate SafeName(name: string) {
    name != "" && forall i :: 0 <= i < |name| ==>
      'a' <= name[i] <= 'z' || 'A' <= name[i] <= 'Z' || '0' <= name[i] <= '9' || name[i] == '_'
  }

  const LETTERS := "abcdefghijklmnopqrstuvwxyz"
  const CAPITALS := "ABCDEFGHIJKLMNOPQRSTUVWXYZ"

  predicate IsPlain(c: char) {
    c in LETTERS || c in CAPITALS || c in "0123456789_"
  }

  lemma PlainCharacters(c: char)
    ensures IsPlain(c) <==> 'a' <= c <= 'z' || 'A' <= c <= 'Z' || '0' <= c <= '9' || c == '_'
  {
    SmallLetters(c);
    CapitalLetters(c);
    DigitsAndUnderscore(c);
  }

  lemma SmallLetters(c: char)
    ensures c in LETTERS <==> 'a' <= c <= 'z'
  {
    assert 'a' <= c <= 'z' ==> LETTERS[c as int - 97] == c;
  }

  lemma CapitalLetters(c: char)
    ensures c in CAPITALS <==> 'A' <= c <= 'Z'
  {
    assert 'A' <= c <= 'Z' ==> CAPITALS[c as int - 65] == c;
  }

  lemma DigitsAndUnderscore(c: char)
    ensures c in "0123456789_" <==> '0' <= c <= '9' || c == '_'
  {
    assert '0' <= c <= '9' ==> "0123456789_"[c as int - 48] == c;
    assert "0123456789_"[10] == '_';
  }

  /** A safe name is not empty and has letters, digits and underscores only. */
  lemma SafeNameIs(name: string)
    ensures SafeName(name) <==> |name| > 0 && forall i :: 0 <= i < |name| ==> IsPlain(name[i])
  {
    forall i | 0 <= i < |name|
      ensures IsPlain(name[i]) <==>
        'a' <= name[i] <= 'z' || 'A' <= name[i] <= 'Z' || '0' <= name[i] <= '9' || name[i] == '_'
    {
      PlainCharacters(name[i]);
    }
  }

  /** ORDER BY TABLE_NAME: every table once, in one fixed order of names. */
  ghost predicate Lists(names: seq<string>, keys: set<string>) {
    && Ordered(names)
    && (forall i, j :: 0 <= i < j < |names| ==> names[i] != names[j])
    && (forall name :: name in names <==> name in keys)
  }

  /** The listed names that are not left out. */
  function Kept(names: seq<string>, out: set<string>): seq<string> {
    if names == [] then []
    else
      var n := |names| - 1;
      Kept(names[..n], out) + (if names[n] in out then [] else [names[n]])
  }

  function CountsOf(names: seq<string>, db: Tables): seq<TableCount>
    requires forall name :: name in names ==> name in db
  {
    seq(|names|, i requires 0 <= i < |names| => TableCount(names[i], db[names[i]]))
  }

  /** What the loop and the two checks after it require of the database. */
  predicate Admitted(db: Tables, allowedEmpty: set<string>, removed: set<string>, beforeMigration: bool) {
    && (forall name :: name in db ==> SafeName(name))
    && (forall name :: name in allowedEmpty ==> name in db && name !in removed && db[name] == 0)
    && (forall name :: name in removed ==> (name in db <==> beforeMigration))
  }

  lemma {:induction false} KeptMembers(names: seq<string>, out: set<string>)
    ensures forall name :: name in Kept(names, out) <==> name in names && name !in out
  {
    if names != [] {
      var n := |names| - 1;
      KeptMembers(names[..n], out);
      assert names == names[..n] + [names[n]];
    }
  }

  lemma PrefixLists(names: seq<string>, keys: set<string>)
    requires Lists(names, keys) && names != []
    ensures Lists(names[..|names| - 1], keys - {names[|names| - 1]})
  {
    var n := |names| - 1;
    assert names == names[..n] + [names[n]];
    forall name | name in names[..n]
      ensures name != names[n]
    {
      var i :| 0 <= i < n && names[..n][i] == name;
      assert names[i] != names[n];
    }
  }

  lemma {:induction false} KeptLists(names: seq<string>, keys: set<string>, out: set<string>)
    requires Lists(names, keys)
    ensures Lists(Kept(names, out), keys - out)
  {
    KeptMembers(names, out);
    if names != [] {
      var n := |names| - 1;
      PrefixLists(names, keys);
      KeptLists(names[..n], keys - {names[n]}, out);
      KeptMembers(names[..n], out);
      forall i | 0 <= i < |Kept(names[..n], out)|
        ensures Before(Kept(names[..n], out)[i], names[n]) && Kept(names[..n], out)[i] != names[n]
      {
        var name := Kept(names[..n], out)[i];
        assert name in names[..n];
        var j :| 0 <= j < n && names[..n][j] == name;
        assert Before(names[j], names[n]);
      }
    }
  }

  /** What the loop has found out about the tables it has seen. */
  ghost predicate Observed(db: Tables, seen: set<string>, allowedEmpty: set<string>, removed: set<string>,
                           beforeMigration: bool, observedEmpty: set<string>, observedRemoved: set<string>)
  {
    && seen <= db.Keys
    && (forall name :: name in seen ==> SafeName(name))
    && observedRemoved == seen * removed && (observedRemoved != {} ==> beforeMigration)
    && observedEmpty == seen * allowedEmpty - removed
    && (forall name :: name in observedEmpty ==> db[name] == 0)
  }

  /** One turn of the loop: `counted` says that the table is in neither declaration. */
  method VisitTable(db: Tables, name: string, ghost seen: set<string>, allowedEmpty: set<string>, removed: set<string>,
                    beforeMigration: bool, empty0: set<string>, removed0: set<string>)
    returns (ok: bool, counted: bool, empty1: set<string>, removed1: set<string>)
    requires name in db && Observed(db, seen, allowedEmpty, removed, beforeMigration, empty0, removed0)
    ensures ok ==> Observed(db, seen + {name}, allowedEmpty, removed, beforeMigration, empty1, removed1)
    ensures ok ==> (counted <==> name !in removed + allowedEmpty)
    ensures !ok ==> !Admitted(db, allowedEmpty, removed, beforeMigration)
  {
    ok, counted, empty1, removed1 := true, false, empty0, removed0;
    if !SafeName(name) {
      ok := false;
    } else if name in removed {
      ok := beforeMigration;
      removed1 := removed0 + {name};
    } else if name in allowedEmpty {
      ok := db[name] == 0;
      empty1 := empty0 + {name};
    } else {
      counted := true;
    }
  }

  /** The loop over the listed tables (lines 571-596). */
  method CountTables(db: Tables, names: seq<string>, allowedEmpty: set<string>, removed: set<string>, beforeMigration: bool)
    returns (ok: bool, counts: seq<TableCount>, observedEmpty: set<string>, observedRemoved: set<string>)
    requires NamesOf(names) == db.Keys
    ensures forall name :: name in Kept(names, removed + allowedEmpty) ==> name in db
    ensures ok ==> Observed(db, db.Keys, allowedEmpty, removed, beforeMigration, observedEmpty, observedRemoved)
    ensures ok ==> counts == CountsOf(Kept(names, removed + allowedEmpty), db)
    ensures !ok ==> !Admitted(db, allowedEmpty, removed, beforeMigration)
  {
    var out := removed + allowedEmpty;
    KeptAreTables(names, out, db);
    ok, counts, observedEmpty, observedRemoved := true, [], {}, {};
    ghost var seen: set<string> := {};
    for i := 0 to |names|
      invariant ok && Observed(db, seen, allowedEmpty, removed, beforeMigration, observedEmpty, observedRemoved)
      invariant seen == NamesOf(names[..i]) && AreCounts(counts, Kept(names[..i], out), db)
    {
      var name := names[i];
      assert name in names;
      KeptStep(names, i, out);
      var counted;
      ok, counted, observedEmpty, observedRemoved :=
        VisitTable(db, name, seen, allowedEmpty, removed, beforeMigration, observedEmpty, observedRemoved);
      if !ok {
        return;
      }
      seen := seen + {name};
      if counted {
        counts := counts + [TableCount(name, db[name])];
      }
    }
    assert names[..|names|] == names;
  }

  ghost function NamesOf(names: seq<string>): set<string> {
    set name | name in names
  }

  ghost predicate AreCounts(counts: seq<TableCount>, names: seq<string>, db: Tables) {
    |counts| == |names| && forall i :: 0 <= i < |names| ==> names[i] in db && counts[i] == TableCount(names[i], db[names[i]])
  }

  lemma KeptAreTables(names: seq<string>, out: set<string>, db: Tables)
    requires NamesOf(names) == db.Keys
    ensures forall name :: name in Kept(names, out) ==> name in db
  {
    KeptMembers(names, out);
  }

  lemma KeptStep(names: seq<string>, i: nat, out: set<string>)
    requires i < |names|
    ensures Kept(names[..i + 1], out) == Kept(names[..i], out) + (if names[i] in out then [] else [names[i]])
    ensures NamesOf(names[..i + 1]) == NamesOf(names[..i]) + {names[i]}
  {
    assert names[..i + 1] == names[..i] + [names[i]] && names[..i + 1][..i] == names[..i];
  }

  /** dataFingerprint; None is its exception. The hash is a parameter. */
  method ComputeFingerprint(db: Tables, names: seq<string>, allowedEmpty: set<string>, removed: set<string>,
                            beforeMigration: bool, hash: seq<TableCount> -> string)
    returns (r: Option<Fingerprint>)
    requires Lists(names, db.Keys)
    ensures r.Some? <==> Admitted(db, allowedEmpty, removed, beforeMigration)
    ensures forall name :: name in Kept(names, removed + allowedEmpty) ==> name in db
    ensures r.Some? ==> r.value == FingerprintOf(db, names, allowedEmpty, removed, hash)
  {
    assert NamesOf(names) == db.Keys;
    var ok, counts, observedEmpty, observedRemoved := CountTables(db, names, allowedEmpty, removed, beforeMigration);
    if !ok {
      return None;
    }
    if exists name :: name in allowedEmpty && name !in observedEmpty {
      return None;
    }
    if beforeMigration && exists name :: name in removed && name !in observedRemoved {
      return None;
    }
    assert forall name :: name in removed && name in db ==> name in observedRemoved;
    return Some(Fingerprint(|counts|, hash(counts)));
  }

  /** The fingerprint of an admitted database. */
  function FingerprintOf(db: Tables, names: seq<string>, allowedEmpty: set<string>, removed: set<string>,
                         hash: seq<TableCount> -> string): Fingerprint
    requires forall name :: name in Kept(names, removed + allowedEmpty) ==> name in db
  {
    var counts := CountsOf(Kept(names, removed + allowedEmpty), db);
    Fingerprint(|counts|, hash(counts))
  }

  /** The tables a fingerprint is taken of. */
  function Judged(db: Tables, allowedEmpty: set<string>, removed: set<string>): Tables {
    db - (removed + allowedEmpty)
  }

  lemma {:induction false} ListingIsUnique(a: seq<string>, b: seq<string>, keys: set<string>)
    requires Lists(a, keys) && Lists(b, keys)
    ensures a == b
  {
    forall name
      ensures multiset(a)[name] == multiset(b)[name]
    {
      DistinctOccurOnce(a, name);
      DistinctOccurOnce(b, name);
    }
    assert multiset(a) == multiset(b);
    OrderedIsUnique(a, b);
  }

  lemma {:induction false} DistinctOccurOnce(names: seq<string>, name: string)
    requires forall i, j :: 0 <= i < j < |names| ==> names[i] != names[j]
    ensures multiset(names)[name] == if name in names then 1 else 0
  {
    if names != [] {
      var n := |names| - 1;
      DistinctOccurOnce(names[..n], name);
      assert names == names[..n] + [names[n]];
    }
  }

  /** The ordered counts determine the judged tables, and the other way round. */
  lemma CountsDetermineTables(names0: seq<string>, db0: Tables, names1: seq<string>, db1: Tables)
    requires Lists(names0, db0.Keys) && Lists(names1, db1.Keys)
    ensures CountsOf(names0, db0) == CountsOf(names1, db1) <==> db0 == db1
  {
    if db0 == db1 {
      ListingIsUnique(names0, names1, db0.Keys);
    }
    if CountsOf(names0, db0) == CountsOf(names1, db1) {
      assert |names0| == |CountsOf(names0, db0)| && |names1| == |CountsOf(names1, db1)|;
      forall i | 0 <= i < |names0|
        ensures names0[i] == names1[i] && db0[names0[i]] == db1[names0[i]]
      {
        assert CountsOf(names0, db0)[i] == CountsOf(names1, db1)[i];
      }
      assert names0 == names1;
      assert db0.Keys == db1.Keys;
    }
  }

  /** Names a fingerprint counts, taken from the restricted tables, are the same counts. */
  lemma JudgedCounts(db: Tables, names: seq<string>, allowedEmpty: set<string>, removed: set<string>)
    requires Lists(names, db.Keys)
    ensures Lists(Kept(names, removed + allowedEmpty), Judged(db, allowedEmpty, removed).Keys)
    ensures CountsOf(Kept(names, removed + allowedEmpty), db)
         == CountsOf(Kept(names, removed + allowedEmpty), Judged(db, allowedEmpty, removed))
  {
    KeptLists(names, db.Keys, removed + allowedEmpty);
    assert Judged(db, allowedEmpty, removed).Keys == db.Keys - (removed + allowedEmpty);
  }

  /** A hash without collisions on count lists. */
  ghost predicate CollisionFree(hash: seq<TableCount> -> string) {
    forall a, b :: hash(a) == hash(b) ==> a == b
  }

  /** A table that is in neither declaration is there on both sides with the same count. */
  predicate Undisturbed(before: Tables, after: Tables, created: set<string>, removed: set<string>) {
    && (forall name :: name in before && name !in removed + created ==> name in after && after[name] == before[name])
    && (forall name :: name in after && name !in removed + created ==> name in before)
  }

  /**
   Equal fingerprints mean exactly that the undeclared tables are undisturbed and that no
   table declared new was there before. The declarations themselves are checked by the two
   calls: removed tables were there and are gone, new tables are there and empty.
   */
  lemma EqualFingerprintsMeanUndisturbed(before: Tables, after: Tables, names0: seq<string>, names1: seq<string>,
                                         created: set<string>, removed: set<string>, hash: seq<TableCount> -> string)
    requires CollisionFree(hash) && Lists(names0, before.Keys) && Lists(names1, after.Keys)
    requires Admitted(before, {}, removed, true) && Admitted(after, created, removed, false)
    ensures forall name :: name in Kept(names0, removed + {}) ==> name in before
    ensures forall name :: name in Kept(names1, removed + created) ==> name in after
    ensures FingerprintOf(before, names0, {}, removed, hash) == FingerprintOf(after, names1, created, removed, hash)
       <==> Undisturbed(before, after, created, removed) && created !! before.Keys
    ensures forall name :: name in created ==> name in after && after[name] == 0
    ensures forall name :: name in removed ==> name in before && name !in after
  {
    var left, right := Judged(before, {}, removed), Judged(after, created, removed);
    JudgedCounts(before, names0, {}, removed);
    JudgedCounts(after, names1, created, removed);
    CountsDetermineTables(Kept(names0, removed + {}), left, Kept(names1, removed + created), right);
    JudgedTablesAgree(before, after, created, removed);
  }

  /**
   Undisturbed tables are not enough: a table declared new that was there before, and has been
   emptied, is counted before and left out after.
   */
  lemma EmptiedTableIsNoticed(hash: seq<TableCount> -> string)
    requires CollisionFree(hash)
    ensures
      var before, after := map["t" := 5], map["t" := 0];
      && Admitted(before, {}, {}, true) && Admitted(after, {"t"}, {}, false)
      && Undisturbed(before, after, {"t"}, {})
      && FingerprintOf(before, ["t"], {}, {}, hash) != FingerprintOf(after, ["t"], {"t"}, {}, hash)
  {
    var before: Tables, after: Tables := map["t" := 5], map["t" := 0];
    assert "t" in before.Keys;
    EqualFingerprintsMeanUndisturbed(before, after, ["t"], ["t"], {"t"}, {}, hash);
  }

  lemma JudgedTablesAgree(before: Tables, after: Tables, created: set<string>, removed: set<string>)
    requires Admitted(before, {}, removed, true) && Admitted(after, created, removed, false)
    ensures Judged(before, {}, removed) == Judged(after, created, removed)
       <==> Undisturbed(before, after, created, removed) && created !! before.Keys
  {
    var left, right := Judged(before, {}, removed), Judged(after, created, removed);
    if left == right {
      forall name | name in before && name !in removed + created
        ensures name in after && after[name] == before[name]
      {
        assert name in left && left[name] == right[name];
      }
      forall name | name in after && name !in removed + created
        ensures name in before
      {
        assert name in right && name in left;
      }
      forall name | name in created
        ensures name !in before
      {
        assert name !in right && name !in left;
      }
    }
    if Undisturbed(before, after, created, removed) && created !! before.Keys {
      assert left.Keys == right.Keys;
    }
  }
}
