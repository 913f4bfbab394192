/** Lexicographic order on integer tuples, and a stable sort by such a key. */
module Ordering {
  import opened Prelude

  /** Python's `<=` on tuples of integers: a proper prefix comes first. */
  predicate LexLe(a: seq<int>, b: seq<int>) {
    if a == [] then true
    else if b == [] then false
    else a[0] < b[0] || (a[0] == b[0] && LexLe(a[1..], b[1..]))
  }

  lemma {:induction false} LexTotal(a: seq<int>, b: seq<int>)
    ensures LexLe(a, b) || LexLe(b, a)
  {
    if a != [] && b != [] { LexTotal(a[1..], b[1..]); }
  }

  lemma {:induction false} LexAntisymmetric(a: seq<int>, b: seq<int>)
    requires LexLe(a, b) && LexLe(b, a)
    ensures a == b
  {
    if a != [] {
      LexAntisymmetric(a[1..], b[1..]);
      assert a == [a[0]] + a[1..] && b == [b[0]] + b[1..];
    }
  }

  lemma {:induction false} LexTransitive(a: seq<int>, b: seq<int>, c: seq<int>)
    requires LexLe(a, b) && LexLe(b, c)
    ensures LexLe(a, c)
  {
    if a != [] && a[0] == b[0] == c[0] { LexTransitive(a[1..], b[1..], c[1..]); }
  }

  predicate SortedBy<T>(s: seq<T>, key: T -> seq<int>) {
    forall i, j :: 0 <= i < j < |s| ==> LexLe(key(s[i]), key(s[j]))
  }

  /** Puts `x` in front of the first element whose key is not smaller. */
  function InsertByKey<T>(x: T, s: seq<T>, key: T -> seq<int>): seq<T> {
    if s == [] || LexLe(key(x), key(s[0])) then [x] + s
    else [s[0]] + InsertByKey(x, s[1..], key)
  }

  /** Python's `sorted(s, key=key)`. */
  function StableSort<T>(s: seq<T>, key: T -> seq<int>): seq<T> {
    if s == [] then [] else InsertByKey(s[0], StableSort(s[1..], key), key)
  }

  function HasKey<T>(key: T -> seq<int>, k: seq<int>): T -> bool { x => key(x) == k }

  function WithKey<T>(s: seq<T>, key: T -> seq<int>, k: seq<int>): seq<T> {
    Filter(s, HasKey(key, k))
  }

  lemma {:induction false} InsertByKeyMultiset<T>(x: T, s: seq<T>, key: T -> seq<int>)
    ensures multiset(InsertByKey(x, s, key)) == multiset{x} + multiset(s)
  {
    if !(s == [] || LexLe(key(x), key(s[0]))) {
      InsertByKeyMultiset(x, s[1..], key);
      assert s == [s[0]] + s[1..];
    }
  }

  lemma {:induction false} InsertByKeySorted<T>(x: T, s: seq<T>, key: T -> seq<int>)
    requires SortedBy(s, key)
    ensures SortedBy(InsertByKey(x, s, key), key)
  {
    var r := InsertByKey(x, s, key);
    if s == [] || LexLe(key(x), key(s[0])) {
      forall i, j | 0 <= i < j < |r| ensures LexLe(key(r[i]), key(r[j])) {
        if i == 0 && j > 1 { LexTransitive(key(x), key(s[0]), key(s[j - 1])); }
      }
    } else {
      var rest := InsertByKey(x, s[1..], key);
      InsertByKeySorted(x, s[1..], key);
      InsertByKeyMultiset(x, s[1..], key);
      LexTotal(key(x), key(s[0]));
      forall j | 0 <= j < |rest| ensures LexLe(key(s[0]), key(rest[j])) {
        assert rest[j] in multiset(rest);
        assert rest[j] == x || rest[j] in s[1..];
      }
      forall i, j | 0 <= i < j < |r| ensures LexLe(key(r[i]), key(r[j])) {
        if i > 0 { assert r[i] == rest[i - 1] && r[j] == rest[j - 1]; }
      }
    }
  }

  lemma {:induction false} InsertByKeyStable<T>(x: T, s: seq<T>, key: T -> seq<int>, k: seq<int>)
    ensures WithKey(InsertByKey(x, s, key), key, k) == (if key(x) == k then [x] else []) + WithKey(s, key, k)
  {
    WithKeyCons(x, s, key, k);
    if !(s == [] || LexLe(key(x), key(s[0]))) {
      var rest := InsertByKey(x, s[1..], key);
      InsertByKeyStable(x, s[1..], key, k);
      WithKeyCons(s[0], rest, key, k);
      WithKeyCons(s[0], s[1..], key, k);
      assert s == [s[0]] + s[1..];
      if key(x) == k && key(s[0]) == k { LexLeReflexive(k); }
    }
  }

  lemma WithKeyCons<T>(x: T, s: seq<T>, key: T -> seq<int>, k: seq<int>)
    ensures WithKey([x] + s, key, k) == (if key(x) == k then [x] else []) + WithKey(s, key, k)
  {
    assert ([x] + s)[1..] == s;
  }

  lemma {:induction false} LexLeReflexive(a: seq<int>)
    ensures LexLe(a, a)
  {
    if a != [] { LexLeReflexive(a[1..]); }
  }

  /** The sort orders by key, keeps every element, and keeps the order inside each key. */
  lemma {:induction false} StableSortProperties<T>(s: seq<T>, key: T -> seq<int>, k: seq<int>)
    ensures SortedBy(StableSort(s, key), key)
    ensures multiset(StableSort(s, key)) == multiset(s)
    ensures WithKey(StableSort(s, key), key, k) == WithKey(s, key, k)
  {
    if s != [] {
      StableSortProperties(s[1..], key, k);
      InsertByKeySorted(s[0], StableSort(s[1..], key), key);
      InsertByKeyMultiset(s[0], StableSort(s[1..], key), key);
      InsertByKeyStable(s[0], StableSort(s[1..], key), key, k);
      assert s == [s[0]] + s[1..];
    }
  }

  ghost predicate SamePerKey<T>(a: seq<T>, b: seq<T>, key: T -> seq<int>) {
    forall k :: WithKey(a, key, k) == WithKey(b, key, k)
  }

  lemma {:induction false} SamePerKeySameElements<T>(a: seq<T>, b: seq<T>, key: T -> seq<int>, x: T)
    requires SamePerKey(a, b, key) && x in a
    ensures x in b
  {
    var k := key(x);
    FilterKeeps(a, HasKey(key, k), x);
    FilterKeeps(b, HasKey(key, k), x);
    assert WithKey(a, key, k) == WithKey(b, key, k);
  }

  /** A sorted sequence is determined by what it holds under each key. */
  lemma {:induction false} SortedIsDetermined<T>(a: seq<T>, b: seq<T>, key: T -> seq<int>)
    requires SortedBy(a, key) && SortedBy(b, key) && SamePerKey(a, b, key)
    ensures a == b
  {
    if a == [] {
      if b != [] { SamePerKeySameElements(b, a, key, b[0]); }
    } else {
      SamePerKeySameElements(a, b, key, a[0]);
      SamePerKeySameElements(b, a, key, b[0]);
      var i :| 0 <= i < |b| && b[i] == a[0];
      var j :| 0 <= j < |a| && a[j] == b[0];
      LexLeReflexive(key(a[0]));
      LexAntisymmetric(key(a[0]), key(b[0]));
      var k0 := key(a[0]);
      assert WithKey(a, key, k0) == WithKey(b, key, k0);
      assert a[0] == WithKey(a, key, k0)[0] == WithKey(b, key, k0)[0] == b[0];
      forall k ensures WithKey(a[1..], key, k) == WithKey(b[1..], key, k) {
        assert WithKey(a, key, k) == WithKey(b, key, k);
        var head := if k == k0 then [a[0]] else [];
        assert WithKey(a, key, k) == head + WithKey(a[1..], key, k);
        assert WithKey(b, key, k) == head + WithKey(b[1..], key, k);
        assert WithKey(a[1..], key, k) == WithKey(a, key, k)[|head|..];
        assert WithKey(b[1..], key, k) == WithKey(b, key, k)[|head|..];
      }
      SortedIsDetermined(a[1..], b[1..], key);
      assert a == [a[0]] + a[1..] && b == [b[0]] + b[1..];
    }
  }

  /** Two sequences with the same elements in the same order under each key sort to the same result. */
  lemma SamePerKeySortsAlike<T>(a: seq<T>, b: seq<T>, key: T -> seq<int>)
    requires SamePerKey(a, b, key)
    ensures StableSort(a, key) == StableSort(b, key)
  {
    var sa, sb := StableSort(a, key), StableSort(b, key);
    StableSortProperties(a, key, []);
    StableSortProperties(b, key, []);
    forall k ensures WithKey(sa, key, k) == WithKey(sb, key, k) {
      StableSortProperties(a, key, k);
      StableSortProperties(b, key, k);
      assert WithKey(a, key, k) == WithKey(b, key, k);
    }
    SortedIsDetermined(sa, sb, key);
  }
}
