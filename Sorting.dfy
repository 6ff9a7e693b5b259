/**
 * Collecting the keys of a `url.Values` (a Go `range` over a map, whose
 * order is unspecified) and `sort.Strings`, and the one sorted key order
 * they always produce.
 */
module Sorting {
  import opened GoStrings

  predicate LessEq(a: Bytes, b: Bytes) { a == b || Less(a, b) }

  ghost predicate Sorted(s: seq<Bytes>) {
    forall i, j | 0 <= i < j < |s| :: LessEq(s[i], s[j])
  }

  ghost predicate StrictlySorted(s: seq<Bytes>) {
    forall i, j | 0 <= i < j < |s| :: Less(s[i], s[j])
  }

  ghost predicate Distinct(s: seq<Bytes>) {
    forall i, j | 0 <= i < j < |s| :: s[i] != s[j]
  }

  /** `s` lists exactly the elements of `keys`. */
  ghost predicate Enumerates(s: seq<Bytes>, keys: set<Bytes>) {
    forall x :: x in s <==> x in keys
  }

  lemma LessEqTransitive(a: Bytes, b: Bytes, c: Bytes)
    requires LessEq(a, b) && LessEq(b, c)
    ensures LessEq(a, c)
  {
    if a != b && b != c { LessTransitive(a, b, c); }
  }

  /** Inserts `x` into a sorted sequence, before the first element not below it. */
  function Insert(s: seq<Bytes>, x: Bytes): (r: seq<Bytes>)
    ensures multiset(r) == multiset(s) + multiset{x}
  {
    if |s| == 0 then [x]
    else if Less(s[0], x) then
      assert s == [s[0]] + s[1..];
      [s[0]] + Insert(s[1..], x)
    else [x] + s
  }

  lemma {:induction false} InsertSorted(s: seq<Bytes>, x: Bytes)
    requires Sorted(s)
    ensures Sorted(Insert(s, x))
  {
    if |s| > 0 {
      if Less(s[0], x) {
        var t := Insert(s[1..], x);
        InsertSorted(s[1..], x);
        forall j | 0 <= j < |t| ensures LessEq(s[0], t[j]) {
          assert t[j] in multiset(t);
          if t[j] != x {
            assert t[j] in multiset(s[1..]);
            var k :| 0 <= k < |s[1..]| && s[1..][k] == t[j];
            assert s[k + 1] == t[j];
          }
        }
      } else {
        if s[0] != x { LessTotal(s[0], x); }
        forall j | 0 <= j < |s| ensures LessEq(x, s[j]) { LessEqTransitive(x, s[0], s[j]); }
      }
    }
  }

  /** `sort.Strings`: the result is sorted and a permutation of its input. */
  method SortStrings(a: seq<Bytes>) returns (r: seq<Bytes>)
    ensures Sorted(r) && multiset(r) == multiset(a)
  {
    r := [];
    for i := 0 to |a|
      invariant Sorted(r) && multiset(r) == multiset(a[..i])
    {
      assert a[..i + 1] == a[..i] + [a[i]];
      InsertSorted(r, a[i]);
      r := Insert(r, a[i]);
    }
    assert a[..|a|] == a;
  }

  /** `for key := range values { keys = append(keys, key) }`: the keys in an unspecified order. */
  method CollectKeys<V>(values: map<Bytes, V>) returns (keys: seq<Bytes>)
    ensures Enumerates(keys, values.Keys) && Distinct(keys)
  {
    keys := [];
    var rest := values.Keys;
    while rest != {}
      invariant forall x :: x in values.Keys <==> x in keys || x in rest
      invariant forall x | x in keys :: x !in rest
      invariant Distinct(keys)
      decreases rest
    {
      var key :| key in rest;
      keys := keys + [key];
      rest := rest - {key};
    }
  }

  /** A permutation of a sequence without repetitions has none either. */
  lemma PermutationDistinct(a: seq<Bytes>, b: seq<Bytes>)
    requires Distinct(a) && multiset(a) == multiset(b)
    ensures Distinct(b) && forall x :: x in a <==> x in b
  {
    forall x ensures x in a <==> x in b {
      assert x in a <==> x in multiset(a);
      assert x in b <==> x in multiset(b);
    }
    forall i, j | 0 <= i < j < |b| ensures b[i] != b[j] {
      DistinctCount(a, b[i]);
      RepeatCount(b, i, j);
    }
  }

  lemma RepeatCount(b: seq<Bytes>, i: nat, j: nat)
    requires i < j < |b|
    ensures b[i] == b[j] ==> multiset(b)[b[i]] >= 2
  {
    if b[i] == b[j] {
      assert b == b[..j] + [b[j]] + b[j + 1..];
      assert b[i] in b[..j];
      assert multiset(b) == multiset(b[..j]) + multiset{b[j]} + multiset(b[j + 1..]);
    }
  }

  lemma {:induction false} DistinctCount(a: seq<Bytes>, x: Bytes)
    requires Distinct(a)
    ensures multiset(a)[x] <= 1
  {
    if |a| > 0 {
      assert a == [a[0]] + a[1..];
      assert multiset(a) == multiset{a[0]} + multiset(a[1..]);
      DistinctCount(a[1..], x);
      if a[0] == x {
        assert x !in a[1..];
        assert multiset(a[1..])[x] == 0;
      }
    }
  }

  /**
   * Two strictly sorted sequences with the same elements are equal: a sorted
   * key list does not depend on the order in which the keys were found.
   */
  lemma {:induction false} StrictlySortedUnique(a: seq<Bytes>, b: seq<Bytes>)
    requires StrictlySorted(a) && StrictlySorted(b)
    requires forall x :: x in a <==> x in b
    ensures a == b
  {
    assert |a| > 0 ==> a[0] in a;
    assert |b| > 0 ==> b[0] in b;
    if |a| > 0 && |b| > 0 {
      assert a[0] in b && b[0] in a;
      if a[0] != b[0] {
        var i :| 0 <= i < |a| && a[i] == b[0];
        var j :| 0 <= j < |b| && b[j] == a[0];
        assert Less(a[0], b[0]) && Less(b[0], a[0]);
        LessAsymmetric(a[0], b[0]);
      }
      forall x ensures x in a[1..] <==> x in b[1..] {
        if x in a[1..] {
          var i :| 1 <= i < |a| && a[i] == x;
          assert Less(a[0], x);
          LessIrreflexive(x);
        }
        if x in b[1..] {
          var j :| 1 <= j < |b| && b[j] == x;
          assert Less(b[0], x);
          LessIrreflexive(x);
        }
        assert x in a <==> x == a[0] || x in a[1..] by { assert a == [a[0]] + a[1..]; }
        assert x in b <==> x == b[0] || x in b[1..] by { assert b == [b[0]] + b[1..]; }
      }
      StrictlySortedUnique(a[1..], b[1..]);
      assert a == [a[0]] + a[1..] && b == [b[0]] + b[1..];
    }
  }

  lemma {:induction false} MinimumExists(keys: set<Bytes>)
    requires keys != {}
    ensures exists m :: m in keys && forall x | x in keys && x != m :: Less(m, x)
  {
    var y :| y in keys;
    if keys - {y} == {} {
      assert keys == {y};
    } else {
      MinimumExists(keys - {y});
      var m :| m in keys - {y} && forall x | x in keys - {y} && x != m :: Less(m, x);
      if Less(m, y) {
        assert forall x | x in keys && x != m :: Less(m, x);
      } else {
        LessTotal(m, y);
        forall x | x in keys && x != y ensures Less(y, x) {
          if x != m { LessTransitive(y, m, x); }
        }
      }
    }
  }

  /** The keys of a set in increasing byte-wise order: the order the signer sorts them into. */
  ghost function SortedKeys(keys: set<Bytes>): (r: seq<Bytes>)
    ensures StrictlySorted(r) && Enumerates(r, keys)
    decreases |keys|
  {
    if keys == {} then []
    else
      MinimumExists(keys);
      var m :| m in keys && forall x | x in keys && x != m :: Less(m, x);
      var t := SortedKeys(keys - {m});
      assert forall x | x in t :: Less(m, x);
      [m] + t
  }

  /**
   * Whatever order a map's keys are collected in, sorting them gives
   * `SortedKeys`: the sorted list is independent of map iteration order.
   */
  lemma SortedCollectedKeys(collected: seq<Bytes>, sorted: seq<Bytes>, keys: set<Bytes>)
    requires Enumerates(collected, keys) && Distinct(collected)
    requires Sorted(sorted) && multiset(sorted) == multiset(collected)
    ensures sorted == SortedKeys(keys)
  {
    PermutationDistinct(collected, sorted);
    StrictlySortedUnique(sorted, SortedKeys(keys));
  }
}
