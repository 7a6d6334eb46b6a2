/**
  Orders used to visit map keys in a deterministic sequence, as the
  configuration engine does by sorting keys before every loop.
 */
module Ordering {

  /**
    Go compares strings byte by byte. On UTF-8 text that is the order of the
    code points, which is the order `<` of Dafny's char.
   */
  predicate StrLess(a: string, b: string)
    decreases |a|
  {
    if |a| == 0 then |b| > 0
    else if |b| == 0 then false
    else if a[0] != b[0] then a[0] < b[0]
    else StrLess(a[1..], b[1..])
  }

  lemma {:induction false} StrLessIrreflexive(a: string)
    ensures !StrLess(a, a)
    decreases |a|
  {
    if |a| > 0 {
      StrLessIrreflexive(a[1..]);
    }
  }

  lemma {:induction false} StrLessAsymmetric(a: string, b: string)
    requires StrLess(a, b)
    ensures !StrLess(b, a)
    decreases |a|
  {
    if |a| > 0 && |b| > 0 && a[0] == b[0] {
      StrLessAsymmetric(a[1..], b[1..]);
    }
  }

  lemma {:induction false} StrLessTransitive(a: string, b: string, c: string)
    requires StrLess(a, b) && StrLess(b, c)
    ensures StrLess(a, c)
    decreases |a|
  {
    if |a| > 0 && a[0] == b[0] && b[0] == c[0] {
      StrLessTransitive(a[1..], b[1..], c[1..]);
    }
  }

  lemma {:induction false} StrLessTotal(a: string, b: string)
    requires a != b
    ensures StrLess(a, b) || StrLess(b, a)
    decreases |a|
  {
    if |a| > 0 && |b| > 0 && a[0] == b[0] {
      assert a == [a[0]] + a[1..] && b == [b[0]] + b[1..];
      StrLessTotal(a[1..], b[1..]);
    }
  }

  /** A strict total order on the values of K. */
  ghost predicate StrictTotalOrder<K(!new)>(less: (K, K) -> bool) {
    && (forall a :: !less(a, a))
    && (forall a, b :: less(a, b) ==> !less(b, a))
    && (forall a, b, c :: less(a, b) && less(b, c) ==> less(a, c))
    && (forall a, b :: a != b ==> less(a, b) || less(b, a))
  }

  lemma StrLessIsStrictTotalOrder()
    ensures StrictTotalOrder(StrLess)
  {
    forall a: string ensures !StrLess(a, a) {
      StrLessIrreflexive(a);
    }
    forall a: string, b: string | StrLess(a, b) ensures !StrLess(b, a) {
      StrLessAsymmetric(a, b);
    }
    forall a: string, b: string, c: string | StrLess(a, b) && StrLess(b, c) ensures StrLess(a, c) {
      StrLessTransitive(a, b, c);
    }
    forall a: string, b: string | a != b ensures StrLess(a, b) || StrLess(b, a) {
      StrLessTotal(a, b);
    }
  }

  /** Strictly ascending, hence free of duplicates. */
  ghost predicate Sorted<K>(s: seq<K>, less: (K, K) -> bool) {
    forall i, j :: 0 <= i < j < |s| ==> less(s[i], s[j])
  }

  /** Free of repetitions. */
  ghost predicate Distinct<K>(s: seq<K>) {
    forall i, j :: 0 <= i < j < |s| ==> s[i] != s[j]
  }

  lemma SortedStringsDistinct(s: seq<string>)
    requires Sorted(s, StrLess)
    ensures Distinct(s)
  {
    forall i, j | 0 <= i < j < |s| ensures s[i] != s[j] {
      StrLessIrreflexive(s[i]);
    }
  }

  /** `s` lists exactly the elements of `keys`, in ascending order. */
  ghost predicate Enumerates<K(!new)>(s: seq<K>, keys: set<K>, less: (K, K) -> bool) {
    Sorted(s, less) && forall x :: x in s <==> x in keys
  }

  /** Inserts `x` in front of the first element it is less than. */
  function Insert<K(!new)>(s: seq<K>, x: K, less: (K, K) -> bool): (r: seq<K>)
    ensures |r| == |s| + 1
    ensures forall y :: y in r <==> y in s || y == x
  {
    if |s| == 0 then [x]
    else if less(x, s[0]) then [x] + s
    else [s[0]] + Insert(s[1..], x, less)
  }

  lemma {:induction false} InsertKeepsSorted<K(!new)>(s: seq<K>, x: K, less: (K, K) -> bool)
    requires StrictTotalOrder(less) && Sorted(s, less) && x !in s
    ensures Sorted(Insert(s, x, less), less)
  {
    if |s| > 0 && !less(x, s[0]) {
      var tail := Insert(s[1..], x, less);
      InsertKeepsSorted(s[1..], x, less);
      assert less(s[0], x);
      var r := [s[0]] + tail;
      forall i, j | 0 <= i < j < |r| ensures less(r[i], r[j]) {
        if i == 0 {
          assert r[j] in tail;
          if r[j] != x {
            var k :| 0 <= k < |s[1..]| && s[1..][k] == r[j];
            assert s[k + 1] == r[j];
          }
        } else {
          assert r[i] == tail[i - 1] && r[j] == tail[j - 1];
        }
      }
    }
  }

  /** The first element of a listing is its least; the rest lists the remaining keys. */
  lemma EnumerationTail<K(!new)>(s: seq<K>, keys: set<K>, less: (K, K) -> bool)
    requires StrictTotalOrder(less) && Enumerates(s, keys, less) && |s| > 0
    ensures s[0] in keys
    ensures forall x :: x in keys ==> x == s[0] || less(s[0], x)
    ensures Enumerates(s[1..], keys - {s[0]}, less)
  {
    forall x | x in keys ensures x == s[0] || less(s[0], x) {
      var k :| 0 <= k < |s| && s[k] == x;
      if k > 0 {
        assert less(s[0], s[k]);
      }
    }
    forall x ensures x in s[1..] <==> x in keys - {s[0]} {
      if x in s[1..] {
        var k :| 0 <= k < |s[1..]| && s[1..][k] == x;
        assert less(s[0], s[k + 1]);
      }
      if x in keys - {s[0]} {
        var k :| 0 <= k < |s| && s[k] == x;
        assert s[1..][k - 1] == x;
      }
    }
  }

  lemma {:induction false} EnumerationLength<K(!new)>(s: seq<K>, keys: set<K>, less: (K, K) -> bool)
    requires StrictTotalOrder(less) && Enumerates(s, keys, less)
    ensures |s| == |keys|
    decreases |s|
  {
    if |s| == 0 {
      assert keys == {};
    } else {
      EnumerationTail(s, keys, less);
      EnumerationLength(s[1..], keys - {s[0]}, less);
    }
  }

  /** Two ascending listings of the same set are the same sequence. */
  lemma {:induction false} EnumerationUnique<K(!new)>(a: seq<K>, b: seq<K>, keys: set<K>, less: (K, K) -> bool)
    requires StrictTotalOrder(less)
    requires Enumerates(a, keys, less) && Enumerates(b, keys, less)
    ensures a == b
    decreases |a|
  {
    EnumerationLength(a, keys, less);
    EnumerationLength(b, keys, less);
    if |a| > 0 {
      EnumerationTail(a, keys, less);
      EnumerationTail(b, keys, less);
      assert a[0] == b[0];
      EnumerationUnique(a[1..], b[1..], keys - {a[0]}, less);
      assert a == [a[0]] + a[1..] && b == [b[0]] + b[1..];
    }
  }

  /** Some element of a non-empty set, the same one every time. */
  ghost function Pick<K>(keys: set<K>): (x: K)
    requires keys != {}
    ensures x in keys
  {
    var x :| x in keys; x
  }

  /** The ascending listing of `keys`, built by insertion. */
  ghost function Enumeration<K(!new)>(keys: set<K>, less: (K, K) -> bool): seq<K>
    decreases keys
  {
    if keys == {} then [] else Insert(Enumeration(keys - {Pick(keys)}, less), Pick(keys), less)
  }

  lemma {:induction false} EnumerationEnumerates<K(!new)>(keys: set<K>, less: (K, K) -> bool)
    requires StrictTotalOrder(less)
    ensures Enumerates(Enumeration(keys, less), keys, less)
    decreases keys
  {
    if keys != {} {
      var x := Pick(keys);
      EnumerationEnumerates(keys - {x}, less);
      InsertKeepsSorted(Enumeration(keys - {x}, less), x, less);
    }
  }

  /** The ascending listing of a set of strings, as sort.Strings leaves it. */
  ghost function SortedStrings(keys: set<string>): seq<string> {
    Enumeration(keys, StrLess)
  }

  lemma SortedStringsEnumerates(keys: set<string>)
    ensures Enumerates(SortedStrings(keys), keys, StrLess)
  {
    StrLessIsStrictTotalOrder();
    EnumerationEnumerates(keys, StrLess);
  }

  /** Appending a key larger than everything already listed keeps a listing ascending. */
  lemma AppendKeepsSorted<K>(s: seq<K>, x: K, less: (K, K) -> bool)
    requires Sorted(s, less)
    requires forall y :: y in s ==> less(y, x)
    ensures Sorted(s + [x], less)
  {
    var r := s + [x];
    forall i, j | 0 <= i < j < |r| ensures less(r[i], r[j]) {
      if j == |s| {
        assert r[i] in s;
      } else {
        assert r[i] == s[i] && r[j] == s[j];
      }
    }
  }

  /** The elements of `s` outside `excluded`, in their order. */
  function Without<K>(s: seq<K>, excluded: set<K>): seq<K> {
    if |s| == 0 then []
    else
      var r := Without(s[..|s| - 1], excluded);
      if s[|s| - 1] in excluded then r else r + [s[|s| - 1]]
  }

  lemma {:induction false} WithoutMembership<K(!new)>(s: seq<K>, excluded: set<K>)
    ensures forall x :: x in Without(s, excluded) <==> x in s && x !in excluded
  {
    if |s| > 0 {
      assert s == s[..|s| - 1] + [s[|s| - 1]];
      WithoutMembership(s[..|s| - 1], excluded);
    }
  }

  /** One more step of a loop that keeps the elements outside `excluded`. */
  lemma WithoutStep<K>(s: seq<K>, i: nat, excluded: set<K>)
    requires i < |s|
    ensures s[i] in excluded ==> Without(s[..i + 1], excluded) == Without(s[..i], excluded)
    ensures s[i] !in excluded ==> Without(s[..i + 1], excluded) == Without(s[..i], excluded) + [s[i]]
  {
    assert s[..i + 1][..i] == s[..i];
  }

  lemma {:induction false} WithoutKeepsSorted<K(!new)>(s: seq<K>, excluded: set<K>, less: (K, K) -> bool)
    requires Sorted(s, less)
    ensures Sorted(Without(s, excluded), less)
  {
    if |s| > 0 {
      var prefix := s[..|s| - 1];
      WithoutKeepsSorted(prefix, excluded, less);
      WithoutMembership(prefix, excluded);
      forall y | y in Without(prefix, excluded) ensures less(y, s[|s| - 1]) {
        var k :| 0 <= k < |prefix| && prefix[k] == y;
        assert s[k] == y;
      }
      AppendKeepsSorted(Without(prefix, excluded), s[|s| - 1], less);
    }
  }

  /** Dropping the excluded keys from a listing lists the remaining keys. */
  lemma WithoutEnumerates<K(!new)>(s: seq<K>, keys: set<K>, excluded: set<K>, less: (K, K) -> bool)
    requires StrictTotalOrder(less) && Enumerates(s, keys, less)
    ensures Without(s, excluded) == Enumeration(keys - excluded, less)
  {
    WithoutKeepsSorted(s, excluded, less);
    WithoutMembership(s, excluded);
    EnumerationEnumerates(keys - excluded, less);
    EnumerationUnique(Without(s, excluded), Enumeration(keys - excluded, less), keys - excluded, less);
  }

  /** Dropping the excluded keys from the ascending listing of strings. */
  lemma SortedStringsWithout(s: seq<string>, keys: set<string>, excluded: set<string>)
    requires s == SortedStrings(keys)
    ensures Without(s, excluded) == SortedStrings(keys - excluded)
  {
    SortedStringsEnumerates(keys);
    StrLessIsStrictTotalOrder();
    WithoutEnumerates(s, keys, excluded, StrLess);
  }

  /** The keys of `m` in ascending order: the getSorted...Keys helpers. */
  method SortedKeys<K(==, !new), V>(m: map<K, V>, less: (K, K) -> bool) returns (ks: seq<K>)
    requires StrictTotalOrder(less)
    ensures ks == Enumeration(m.Keys, less)
    ensures forall x :: x in ks <==> x in m
  {
    ks := [];
    var rest := m.Keys;
    while rest != {}
      invariant rest <= m.Keys
      invariant forall x :: x in ks <==> x in m.Keys && x !in rest
      invariant Sorted(ks, less)
      decreases |rest|
    {
      var x :| x in rest;
      InsertKeepsSorted(ks, x, less);
      ks := Insert(ks, x, less);
      rest := rest - {x};
    }
    EnumerationEnumerates(m.Keys, less);
    EnumerationUnique(ks, Enumeration(m.Keys, less), m.Keys, less);
  }

  /** The keys of a string-keyed map in the order sort.Strings gives them. */
  method SortedStringKeys<V>(m: map<string, V>) returns (ks: seq<string>)
    ensures ks == SortedStrings(m.Keys)
    ensures forall x :: x in ks <==> x in m
  {
    StrLessIsStrictTotalOrder();
    ks := SortedKeys(m, StrLess);
  }
}
