/**
 * A stable sort by key under an abstract comparison, standing in for
 * `Array.prototype.sort` with a `localeCompare` comparator.
 */
module Sorting {

  /** The comparison is total and transitive: `le(a, b)` means a sorts no later than b. */
  ghost predicate TotalPreorder<K(!new)>(le: (K, K) -> bool) {
    && (forall a, b :: le(a, b) || le(b, a))
    && (forall a, b, c :: le(a, b) && le(b, c) ==> le(a, c))
  }

  ghost predicate SortedBy<T, K>(s: seq<T>, key: T -> K, le: (K, K) -> bool) {
    forall i, j :: 0 <= i < j < |s| ==> le(key(s[i]), key(s[j]))
  }

  /** Inserts `x` before the first element it sorts no later than. */
  function Insert<T, K>(x: T, s: seq<T>, key: T -> K, le: (K, K) -> bool): (r: seq<T>)
    ensures multiset(r) == multiset(s) + multiset{x}
    ensures |r| == |s| + 1
  {
    if s == [] || le(key(x), key(s[0])) then [x] + s
    else
      assert s == [s[0]] + s[1..];
      [s[0]] + Insert(x, s[1..], key, le)
  }

  /** Insertion sort from the back: earlier elements go in front of equal ones, so the sort is stable. */
  function SortBy<T, K>(s: seq<T>, key: T -> K, le: (K, K) -> bool): (r: seq<T>)
    ensures multiset(r) == multiset(s)
    ensures |r| == |s|
  {
    if s == [] then []
    else
      assert s == [s[0]] + s[1..];
      Insert(s[0], SortBy(s[1..], key, le), key, le)
  }

  lemma {:induction false} InsertSorted<T, K(!new)>(x: T, s: seq<T>, key: T -> K, le: (K, K) -> bool)
    requires TotalPreorder(le) && SortedBy(s, key, le)
    ensures SortedBy(Insert(x, s, key, le), key, le)
    ensures forall i :: 0 <= i < |Insert(x, s, key, le)| ==>
      Insert(x, s, key, le)[i] == x || Insert(x, s, key, le)[i] in s
  {
    if s != [] && !le(key(x), key(s[0])) {
      InsertSorted(x, s[1..], key, le);
      var r := Insert(x, s[1..], key, le);
      assert le(key(s[0]), key(x));
      forall i | 0 <= i < |r| ensures le(key(s[0]), key(r[i])) {
        if r[i] != x {
          assert r[i] in s[1..];
          var k :| 0 <= k < |s[1..]| && s[1..][k] == r[i];
          assert s[k + 1] == r[i];
        }
      }
    } else if s != [] {
      forall j | 0 <= j < |s| ensures le(key(x), key(s[j])) {
        if j > 0 { assert le(key(s[0]), key(s[j])); }
      }
    }
  }

  /** Under a total preorder the result is sorted; with the multiset ensures, it is a sorted permutation. */
  lemma {:induction false} SortBySorted<T, K(!new)>(s: seq<T>, key: T -> K, le: (K, K) -> bool)
    requires TotalPreorder(le)
    ensures SortedBy(SortBy(s, key, le), key, le)
  {
    if s != [] {
      SortBySorted(s[1..], key, le);
      InsertSorted(s[0], SortBy(s[1..], key, le), key, le);
    }
  }

  /** `le` ranks `a` and `b` equal: each sorts no later than the other. */
  predicate Tied<K>(le: (K, K) -> bool, a: K, b: K) {
    le(a, b) && le(b, a)
  }

  /** The elements of `s` whose key ties with `k`, in the order of `s`. */
  function TiedWith<T, K>(s: seq<T>, key: T -> K, le: (K, K) -> bool, k: K): (r: seq<T>)
    ensures |r| <= |s|
    ensures forall i :: 0 <= i < |r| ==> Tied(le, key(r[i]), k)
  {
    if s == [] then []
    else (if Tied(le, key(s[0]), k) then [s[0]] else []) + TiedWith(s[1..], key, le, k)
  }

  /** Inserting `x` keeps it in front of every element it ties with. */
  lemma {:induction false} InsertTied<T, K(!new)>(x: T, s: seq<T>, key: T -> K, le: (K, K) -> bool, k: K)
    requires TotalPreorder(le)
    ensures TiedWith(Insert(x, s, key, le), key, le, k) == TiedWith([x] + s, key, le, k)
  {
    if s != [] && !le(key(x), key(s[0])) {
      var r := Insert(x, s[1..], key, le);
      assert Insert(x, s, key, le) == [s[0]] + r;
      assert ([s[0]] + r)[1..] == r;
      InsertTied(x, s[1..], key, le, k);
      assert ([x] + s[1..])[1..] == s[1..];
      assert ([x] + s)[1..] == s && s[1..] == ([s[0]] + s[1..])[1..];
      if Tied(le, key(x), k) {
        assert !Tied(le, key(s[0]), k);
      }
    }
  }

  /**
   * The sort is stable: the elements whose keys tie come out in their input order. This is
   * what ES2019 demands of `Array.prototype.sort` with a consistent comparator.
   */
  lemma {:induction false} SortByStable<T, K(!new)>(s: seq<T>, key: T -> K, le: (K, K) -> bool, k: K)
    requires TotalPreorder(le)
    ensures TiedWith(SortBy(s, key, le), key, le, k) == TiedWith(s, key, le, k)
  {
    if s != [] {
      var rest := SortBy(s[1..], key, le);
      SortByStable(s[1..], key, le, k);
      InsertTied(s[0], rest, key, le, k);
      assert ([s[0]] + rest)[1..] == rest;
    }
  }
}

