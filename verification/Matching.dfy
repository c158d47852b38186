/** The order-insensitive list comparisons: equal length plus inclusion of the second list
    in the first. They are exact, that is, permutation equality, for every first list
    precisely when the second list repeats nothing. */
module Matching {
  import opened Types

  predicate SameLengthIncluded<T(==)>(a: seq<T>, b: seq<T>)
  {
    |a| == |b| && forall x | x in b :: x in a
  }

  ghost predicate NoDuplicates<T>(s: seq<T>)
  {
    forall i, j | 0 <= i < j < |s| :: s[i] != s[j]
  }

  /** The value a map built from `es` holds for `key`; a later entry overwrites an earlier
      one and a missing key reads as `zero`. */
  function Lookup<V>(es: seq<Entry<V>>, key: string, zero: V): V
  {
    if es == [] then zero
    else if es[|es| - 1].key == key then es[|es| - 1].value
    else Lookup(es[..|es| - 1], key, zero)
  }

  predicate EntriesMatch<V(==)>(a: seq<Entry<V>>, b: seq<Entry<V>>, zero: V)
  {
    |a| == |b| && forall e | e in b :: Lookup(a, e.key, zero) == e.value
  }

  ghost predicate DistinctKeys<V>(es: seq<Entry<V>>)
  {
    forall i, j | 0 <= i < j < |es| :: es[i].key != es[j].key
  }

  /** No two entries share a key with different values. */
  ghost predicate ConflictFree<V>(es: seq<Entry<V>>)
  {
    forall e, f | e in es && f in es && e.key == f.key :: e.value == f.value
  }

  // The comparison loops.

  method StringSliceEqual(a: seq<string>, b: seq<string>) returns (r: bool)
    ensures r <==> SameLengthIncluded(a, b)
  {
    if |a| != |b| { return false; }
    var known := {};
    for i := 0 to |a|
      invariant known == set x | x in a[..i]
    {
      known := known + {a[i]};
    }
    assert a[..|a|] == a;
    for i := 0 to |b|
      invariant forall x | x in b[..i] :: x in a
    {
      if b[i] !in known { return false; }
    }
    assert b[..|b|] == b;
    return true;
  }

  method EntriesEqual<V(==)>(a: seq<Entry<V>>, b: seq<Entry<V>>, zero: V) returns (r: bool)
    ensures r <==> EntriesMatch(a, b, zero)
  {
    if |a| != |b| { return false; }
    var values: map<string, V> := map[];
    for i := 0 to |a|
      invariant forall k :: Lookup(a[..i], k, zero) == if k in values then values[k] else zero
    {
      values := values[a[i].key := a[i].value];
      assert a[..i + 1][..i] == a[..i];
    }
    assert a[..|a|] == a;
    for i := 0 to |b|
      invariant forall e | e in b[..i] :: Lookup(a, e.key, zero) == e.value
    {
      var found := if b[i].key in values then values[b[i].key] else zero;
      if found != b[i].value { return false; }
    }
    assert b[..|b|] == b;
    return true;
  }

  // Pigeonhole.

  ghost function Elements<T>(s: seq<T>): set<T> { set x | x in s }

  lemma {:induction false} ElementsBound<T>(s: seq<T>)
    ensures |Elements(s)| <= |s|
    ensures |Elements(s)| == |s| <==> NoDuplicates(s)
  {
    if s != [] {
      var n := |s| - 1;
      var init := s[..n];
      ElementsBound(init);
      assert s == init + [s[n]];
      assert Elements(s) == Elements(init) + {s[n]};
      if s[n] in init {
        assert Elements(s) == Elements(init);
        var i :| 0 <= i < n && init[i] == s[n];
        assert s[i] == s[n];
      } else {
        assert forall i | 0 <= i < n :: s[i] == init[i] && s[i] != s[n];
      }
    }
  }

  lemma {:induction false} MultiplicityWithoutDuplicates<T>(s: seq<T>, x: T)
    requires NoDuplicates(s)
    ensures multiset(s)[x] == if x in s then 1 else 0
  {
    if x in s {
      var i :| 0 <= i < |s| && s[i] == x;
      assert s == s[..i] + [x] + s[i + 1..];
      assert x !in s[..i] && x !in s[i + 1..];
    }
  }

  /** Length plus one-way inclusion is permutation equality when the second list has no
      duplicates. */
  lemma IncludedIsPermutation<T>(a: seq<T>, b: seq<T>)
    requires NoDuplicates(b)
    ensures SameLengthIncluded(a, b) <==> multiset(a) == multiset(b)
  {
    if SameLengthIncluded(a, b) {
      ElementsBound(a);
      ElementsBound(b);
      SubsetOfSameSize(Elements(b), Elements(a));
      forall x ensures multiset(a)[x] == multiset(b)[x] {
        assert x in Elements(a) <==> x in Elements(b);
        MultiplicityWithoutDuplicates(a, x);
        MultiplicityWithoutDuplicates(b, x);
      }
    }
    if multiset(a) == multiset(b) {
      assert |a| == |multiset(a)| == |multiset(b)| == |b|;
      forall x | x in b ensures x in a { assert x in multiset(b); }
    }
  }

  lemma {:induction false} SubsetOfSameSize<T>(small: set<T>, big: set<T>)
    requires small <= big && |big| <= |small|
    ensures small == big && |big| == |small|
  {
    if small != {} {
      var x :| x in small;
      SubsetOfSameSize(small - {x}, big - {x});
      assert small == small - {x} + {x} && big == big - {x} + {x};
    }
  }

  /** The side condition is exact: a second list with a repetition accepts some first list
      that is no permutation of it. */
  lemma InclusionExactness(b: seq<string>)
    ensures NoDuplicates(b) <==> forall a :: SameLengthIncluded(a, b) <==> multiset(a) == multiset(b)
  {
    if NoDuplicates(b) {
      forall a: seq<string> ensures SameLengthIncluded(a, b) <==> multiset(a) == multiset(b) {
        IncludedIsPermutation(a, b);
      }
    } else {
      var i, j :| 0 <= i < j < |b| && b[i] == b[j];
      var unused := Longer(b);
      var a := b[j := unused];
      assert a[j] == unused;
      assert unused in multiset(a) && unused !in multiset(b);
      forall x | x in b ensures x in a {
        var k :| 0 <= k < |b| && b[k] == x;
        assert x == a[if k == j then i else k];
      }
      assert SameLengthIncluded(a, b) && multiset(a) != multiset(b);
    }
  }

  /** A string longer than every string of `b`. */
  ghost function Longer(b: seq<string>): (s: string)
    ensures forall x | x in b :: |x| < |s|
  {
    if b == [] then "a"
    else
      var rest := Longer(b[1..]);
      assert b == [b[0]] + b[1..];
      rest + b[0]
  }

  // Keyed entries.

  lemma {:induction false} LookupFinds<V>(es: seq<Entry<V>>, key: string, zero: V)
    ensures (exists e :: e in es && e.key == key) ==> Entry(key, Lookup(es, key, zero)) in es
    ensures Lookup(es, key, zero) != zero ==> Entry(key, Lookup(es, key, zero)) in es
  {
    if es != [] {
      LookupFinds(es[..|es| - 1], key, zero);
      assert es == es[..|es| - 1] + [es[|es| - 1]];
    }
  }

  lemma LookupConflictFree<V>(es: seq<Entry<V>>, e: Entry<V>, zero: V)
    requires e in es && ConflictFree(es)
    ensures Lookup(es, e.key, zero) == e.value
  {
    LookupFinds(es, e.key, zero);
    assert Entry(e.key, Lookup(es, e.key, zero)) in es;
  }

  /** A list read back unchanged compares equal exactly when it is free of conflicts. */
  lemma SelfMatch<V>(es: seq<Entry<V>>, zero: V)
    ensures EntriesMatch(es, es, zero) <==> ConflictFree(es)
  {
    if ConflictFree(es) {
      forall e | e in es ensures Lookup(es, e.key, zero) == e.value { LookupConflictFree(es, e, zero); }
    }
  }

  lemma DistinctKeysAreConflictFree<V>(es: seq<Entry<V>>)
    requires DistinctKeys(es)
    ensures ConflictFree(es) && NoDuplicates(es)
  {
  }

  /** Comparing parameters or tags is permutation equality when the second list has distinct
      keys and no value that reads like a missing one. */
  lemma EntriesMatchIsPermutation<V>(a: seq<Entry<V>>, b: seq<Entry<V>>, zero: V)
    requires DistinctKeys(b) && forall e | e in b :: e.value != zero
    ensures EntriesMatch(a, b, zero) <==> multiset(a) == multiset(b)
  {
    DistinctKeysAreConflictFree(b);
    IncludedIsPermutation(a, b);
    if EntriesMatch(a, b, zero) {
      forall e | e in b ensures e in a { LookupFinds(a, e.key, zero); }
    }
    if multiset(a) == multiset(b) {
      forall e | e in a ensures e in b { assert e in multiset(a); }
      forall e | e in b ensures Lookup(a, e.key, zero) == e.value {
        LookupFinds(a, e.key, zero);
        assert e in a;
        assert Entry(e.key, Lookup(a, e.key, zero)) in b;
      }
    }
  }

  /** The side condition is exact here too: with a repeated key, or a value that reads like a missing
      one, some first list is accepted that is no permutation or refused though it is one. */
  lemma EntriesExactness<V(!new)>(b: seq<Entry<V>>, zero: V)
    ensures DistinctKeys(b) && (forall e | e in b :: e.value != zero)
            <==> forall a :: EntriesMatch(a, b, zero) <==> multiset(a) == multiset(b)
  {
    if DistinctKeys(b) && forall e | e in b :: e.value != zero {
      forall a: seq<Entry<V>> ensures EntriesMatch(a, b, zero) <==> multiset(a) == multiset(b) {
        EntriesMatchIsPermutation(a, b, zero);
      }
    } else if !ConflictFree(b) {
      SelfMatch(b, zero);
    } else {
      var a := Impostor(b, zero);
    }
  }

  lemma Impostor<V(!new)>(b: seq<Entry<V>>, zero: V) returns (a: seq<Entry<V>>)
    requires ConflictFree(b) && (!DistinctKeys(b) || exists e :: e in b && e.value == zero)
    ensures EntriesMatch(a, b, zero) && multiset(a) != multiset(b)
  {
    var i: nat, j: nat;
    if !DistinctKeys(b) {
      i, j :| i < j < |b| && b[i].key == b[j].key;
      assert b[i] in b && b[j] in b;
    } else {
      j :| j < |b| && b[j].value == zero;
      i := j;
    }
    var key := NewKey(b);
    a := b[j := Entry(key, zero)];
    assert a[j] == Entry(key, zero);
    assert Entry(key, zero) in multiset(a) && Entry(key, zero) !in multiset(b);
    Unnoticed(b, i, j, key, zero);
  }

  lemma NewKey<V>(b: seq<Entry<V>>) returns (key: string)
    ensures forall e | e in b :: e.key != key
  {
    var keys := seq(|b|, k requires 0 <= k < |b| => b[k].key);
    key := Longer(keys);
    forall e | e in b ensures e.key != key {
      var k :| 0 <= k < |b| && b[k] == e;
      assert keys[k] in keys;
    }
  }

  /** Replacing an entry goes unnoticed if it has a twin or a value that reads like a missing one. */
  lemma Unnoticed<V>(b: seq<Entry<V>>, i: nat, j: nat, key: string, zero: V)
    requires ConflictFree(b) && i <= j < |b| && forall e | e in b :: e.key != key
    requires b[i] == b[j] && (i == j ==> b[j].value == zero)
    ensures EntriesMatch(b[j := Entry(key, zero)], b, zero)
  {
    var a := b[j := Entry(key, zero)];
    forall e | e in a && e.key != key ensures e in b {}
    assert ConflictFree(a);
    forall e | e in b ensures Lookup(a, e.key, zero) == e.value {
      var k :| 0 <= k < |b| && b[k] == e;
      var l := if k == j then i else k;
      if l != j {
        assert a[l] == e;
        LookupConflictFree(a, e, zero);
      } else {
        LookupFinds(a, e.key, zero);
      }
    }
  }

  // Filtering a list.

  function Filter<T>(s: seq<T>, keep: T -> bool): seq<T>
  {
    if s == [] then []
    else Filter(s[..|s| - 1], keep) + if keep(s[|s| - 1]) then [s[|s| - 1]] else []
  }

  /** `s` is `t` with some elements left out. */
  ghost predicate Subsequence<T>(s: seq<T>, t: seq<T>)
  {
    if s == [] then true
    else if t == [] then false
    else Subsequence(s, t[..|t| - 1])
         || (s[|s| - 1] == t[|t| - 1] && Subsequence(s[..|s| - 1], t[..|t| - 1]))
  }

  lemma {:induction false} FilterKeeps<T>(s: seq<T>, keep: T -> bool)
    ensures Subsequence(Filter(s, keep), s)
    ensures forall x :: multiset(Filter(s, keep))[x] == if keep(x) then multiset(s)[x] else 0
  {
    if s != [] {
      var n := |s| - 1;
      FilterKeeps(s[..n], keep);
      assert s == s[..n] + [s[n]];
      var f := Filter(s[..n], keep);
      if keep(s[n]) {
        assert (f + [s[n]])[..|f|] == f;
      } else {
        assert f + [] == f;
      }
    }
  }
}
