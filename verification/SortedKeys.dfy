/**
 Comparing two lists of strings by sorting both: Array.prototype.sort orders strings by
 their code units, and the sorted lists are equal exactly when the lists have the same
 elements with the same multiplicities.
 */
module SortedKeys {
  /** The code-unit order of JavaScript strings. */
  predicate Before(a: string, b: string) {
    a == "" || (b != "" && (a[0] < b[0] || (a[0] == b[0] && Before(a[1..], b[1..]))))
  }

  predicate Ordered(keys: seq<string>) {
    forall i, j :: 0 <= i < j < |keys| ==> Before(keys[i], keys[j])
  }

  function Insert(key: string, keys: seq<string>): seq<string> {
    if keys == [] || Before(key, keys[0]) then [key] + keys else [keys[0]] + Insert(key, keys[1..])
  }

  function Sort(keys: seq<string>): seq<string> {
    if keys == [] then [] else Insert(keys[0], Sort(keys[1..]))
  }

  lemma {:induction false} BeforeIsTotal(a: string, b: string)
    ensures Before(a, b) || Before(b, a)
  {
    if a != "" && b != "" && a[0] == b[0] {
      BeforeIsTotal(a[1..], b[1..]);
    }
  }

  lemma {:induction false} BeforeIsAntisymmetric(a: string, b: string)
    requires Before(a, b) && Before(b, a)
    ensures a == b
  {
    if a != "" && b != "" {
      BeforeIsAntisymmetric(a[1..], b[1..]);
      assert a == [a[0]] + a[1..] && b == [b[0]] + b[1..];
    }
  }

  lemma {:induction false} BeforeIsTransitive(a: string, b: string, c: string)
    requires Before(a, b) && Before(b, c)
    ensures Before(a, c)
  {
    if a != "" && a[0] == b[0] == c[0] {
      BeforeIsTransitive(a[1..], b[1..], c[1..]);
    }
  }

  lemma {:induction false} InsertOrders(key: string, keys: seq<string>)
    requires Ordered(keys)
    ensures Ordered(Insert(key, keys))
    ensures multiset(Insert(key, keys)) == multiset{key} + multiset(keys)
  {
    if keys == [] {
    } else if Before(key, keys[0]) {
      assert multiset([key] + keys) == multiset{key} + multiset(keys);
      forall j | 0 <= j < |keys|
        ensures Before(key, keys[j])
      {
        if j > 0 { BeforeIsTransitive(key, keys[0], keys[j]); }
      }
    } else {
      var tail := Insert(key, keys[1..]);
      InsertOrders(key, keys[1..]);
      BeforeIsTotal(key, keys[0]);
      assert keys == [keys[0]] + keys[1..];
      forall j | 0 <= j < |tail|
        ensures Before(keys[0], tail[j])
      {
        assert tail[j] in multiset(tail);
        if tail[j] != key {
          assert tail[j] in keys[1..];
        }
      }
    }
  }

  lemma {:induction false} SortOrders(keys: seq<string>)
    ensures Ordered(Sort(keys)) && multiset(Sort(keys)) == multiset(keys)
  {
    if keys != [] {
      SortOrders(keys[1..]);
      InsertOrders(keys[0], Sort(keys[1..]));
      assert keys == [keys[0]] + keys[1..];
    }
  }

  lemma OrderedHeadsAgree(a: seq<string>, b: seq<string>)
    requires Ordered(a) && Ordered(b) && multiset(a) == multiset(b) && a != []
    ensures b != [] && a[0] == b[0]
  {
    assert a[0] in multiset(b);
    assert b[0] in multiset(a);
    var i :| 0 <= i < |b| && b[i] == a[0];
    var j :| 0 <= j < |a| && a[j] == b[0];
    if i != 0 && j != 0 {
      BeforeIsAntisymmetric(a[0], b[0]);
    }
  }

  lemma MultisetOfTail<T>(a: seq<T>)
    requires a != []
    ensures multiset(a[1..]) == multiset(a) - multiset{a[0]}
  {
    assert a == [a[0]] + a[1..];
  }

  lemma {:induction false} OrderedIsUnique(a: seq<string>, b: seq<string>)
    requires Ordered(a) && Ordered(b) && multiset(a) == multiset(b)
    ensures a == b
  {
    if a == [] {
      assert |multiset(b)| == |b|;
    } else {
      OrderedHeadsAgree(a, b);
      MultisetOfTail(a);
      MultisetOfTail(b);
      OrderedIsUnique(a[1..], b[1..]);
      assert a == [a[0]] + a[1..] && b == [b[0]] + b[1..];
    }
  }

  /** Sorted lists are equal exactly when the multisets are. */
  lemma SortedEqualIffSameMultiset(a: seq<string>, b: seq<string>)
    ensures Sort(a) == Sort(b) <==> multiset(a) == multiset(b)
  {
    SortOrders(a);
    SortOrders(b);
    if multiset(a) == multiset(b) {
      OrderedIsUnique(Sort(a), Sort(b));
    }
  }
}
