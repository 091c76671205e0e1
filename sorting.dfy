/** Stable sorting, as done by Kotlin's `sortedByDescending` (a stable merge
    sort) and by the store's `ORDER BY` clauses. `before(a, b)` means that `a`
    must come strictly before `b`; elements neither of which must come first
    are tied, and the sort keeps tied elements in their input order. */
module Sorting {
  import opened Seqs

  /** `before(a, b)`, named so that the order axioms below are only
      instantiated where a proof mentions this name. */
  ghost predicate Before<T>(before: (T, T) -> bool, a: T, b: T) {
    before(a, b)
  }

  /** `before` is a strict weak order: asymmetric, and "not before" is transitive. */
  ghost predicate StrictWeakOrder<T(!new)>(before: (T, T) -> bool) {
    && (forall a, b :: Before(before, a, b) ==> !Before(before, b, a))
    && (forall a, b, c :: !Before(before, a, b) && !Before(before, b, c) ==> !Before(before, a, c))
  }

  /** No element of `s` must come before an element to its left. */
  ghost predicate SortedBy<T>(s: seq<T>, before: (T, T) -> bool) {
    forall i, j :: 0 <= i < j < |s| ==> !before(s[j], s[i])
  }

  /** The elements tied with `k`. */
  function TiedWith<T>(before: (T, T) -> bool, k: T): T -> bool {
    y => !before(y, k) && !before(k, y)
  }

  /** Inserts `x` in front of the first element that need not precede it. */
  function Insert<T>(x: T, s: seq<T>, before: (T, T) -> bool): (r: seq<T>)
    ensures |r| == |s| + 1
    ensures multiset(r) == multiset{x} + multiset(s)
  {
    if s == [] || !before(s[0], x) then [x] + s
    else
      assert s == [s[0]] + s[1..];
      [s[0]] + Insert(x, s[1..], before)
  }

  /** Insertion sort; each element is inserted ahead of the later elements it is tied with. */
  function SortBy<T>(s: seq<T>, before: (T, T) -> bool): (r: seq<T>)
    ensures |r| == |s|
    ensures multiset(r) == multiset(s)
  {
    if s == [] then []
    else
      assert s == [s[0]] + s[1..];
      Insert(s[0], SortBy(s[1..], before), before)
  }

  lemma {:induction false} InsertSorted<T(!new)>(x: T, s: seq<T>, before: (T, T) -> bool)
    requires StrictWeakOrder(before)
    requires SortedBy(s, before)
    ensures SortedBy(Insert(x, s, before), before)
  {
    if s != [] && before(s[0], x) {
      var t := Insert(x, s[1..], before);
      InsertSorted(x, s[1..], before);
      forall i | 0 <= i < |t| ensures !before(t[i], s[0]) {
        assert t[i] in multiset(t);
        if t[i] == x {
          assert Before(before, s[0], x);
        } else {
          assert t[i] in multiset(s[1..]);
          var j :| 0 <= j < |s[1..]| && s[1..][j] == t[i];
          assert s[j + 1] == t[i];
        }
      }
      ConsSorted(s[0], t, before);
    } else {
      forall i | 0 <= i < |s| ensures !before(s[i], x) {
        assert !Before(before, s[0], x);
        assert i == 0 || !Before(before, s[i], s[0]);
      }
      ConsSorted(x, s, before);
    }
  }

  /** A sorted sequence stays sorted under a head none of its elements must precede. */
  lemma ConsSorted<T>(h: T, t: seq<T>, before: (T, T) -> bool)
    requires SortedBy(t, before)
    requires forall i :: 0 <= i < |t| ==> !before(t[i], h)
    ensures SortedBy([h] + t, before)
  {
    var r := [h] + t;
    forall i, j | 0 <= i < j < |r| ensures !before(r[j], r[i]) {
      assert r[j] == t[j - 1];
      if i > 0 {
        assert r[i] == t[i - 1];
      }
    }
  }

  /** The result of `SortBy` is ordered. */
  lemma {:induction false} SortBySorted<T(!new)>(s: seq<T>, before: (T, T) -> bool)
    requires StrictWeakOrder(before)
    ensures SortedBy(SortBy(s, before), before)
  {
    if s != [] {
      SortBySorted(s[1..], before);
      InsertSorted(s[0], SortBy(s[1..], before), before);
    }
  }

  lemma {:induction false} InsertTies<T(!new)>(x: T, s: seq<T>, before: (T, T) -> bool, k: T)
    requires StrictWeakOrder(before)
    ensures Filter(Insert(x, s, before), TiedWith(before, k))
         == (if TiedWith(before, k)(x) then [x] else []) + Filter(s, TiedWith(before, k))
  {
    var tied := TiedWith(before, k);
    var xs: seq<T> := if tied(x) then [x] else [];
    if s == [] || !before(s[0], x) {
      FilterAppend([x], s, tied);
    } else {
      var h: seq<T> := if tied(s[0]) then [s[0]] else [];
      var rest := Insert(x, s[1..], before);
      assert Insert(x, s, before) == [s[0]] + rest;
      InsertTies(x, s[1..], before, k);
      assert Filter(rest, tied) == xs + Filter(s[1..], tied);
      assert Filter([s[0]] + rest, tied) == h + Filter(rest, tied);
      assert Filter(s, tied) == h + Filter(s[1..], tied);
      if tied(x) {
        assert Before(before, s[0], x) && !Before(before, k, x);
        assert Before(before, s[0], k);
        assert h == [];
      }
    }
  }

  /** `SortBy` is stable: the elements tied with any `k` keep their input order. */
  lemma {:induction false} SortByStable<T(!new)>(s: seq<T>, before: (T, T) -> bool, k: T)
    requires StrictWeakOrder(before)
    ensures Filter(SortBy(s, before), TiedWith(before, k)) == Filter(s, TiedWith(before, k))
  {
    if s != [] {
      SortByStable(s[1..], before, k);
      InsertTies(s[0], SortBy(s[1..], before), before, k);
    }
  }

  lemma {:induction false} InsertSum<T>(x: T, s: seq<T>, before: (T, T) -> bool, f: T -> real)
    ensures SumReal(Insert(x, s, before), f) == f(x) + SumReal(s, f)
  {
    if s != [] && before(s[0], x) {
      InsertSum(x, s[1..], before, f);
      assert Insert(x, s, before)[1..] == Insert(x, s[1..], before);
    }
  }

  /** Sorting does not change a sum. */
  lemma {:induction false} SortBySum<T>(s: seq<T>, before: (T, T) -> bool, f: T -> real)
    ensures SumReal(SortBy(s, before), f) == SumReal(s, f)
  {
    if s != [] {
      SortBySum(s[1..], before, f);
      InsertSum(s[0], SortBy(s[1..], before), before, f);
    }
  }

  lemma {:induction false} InsertSumInt<T>(x: T, s: seq<T>, before: (T, T) -> bool, f: T -> int)
    ensures SumInt(Insert(x, s, before), f) == f(x) + SumInt(s, f)
  {
    if s != [] && before(s[0], x) {
      InsertSumInt(x, s[1..], before, f);
      assert Insert(x, s, before)[1..] == Insert(x, s[1..], before);
    }
  }

  lemma {:induction false} SortBySumInt<T>(s: seq<T>, before: (T, T) -> bool, f: T -> int)
    ensures SumInt(SortBy(s, before), f) == SumInt(s, f)
  {
    if s != [] {
      SortBySumInt(s[1..], before, f);
      InsertSumInt(s[0], SortBy(s[1..], before), before, f);
    }
  }

  /** No two elements of `s` share a key. */
  ghost predicate DistinctBy<T, K>(s: seq<T>, key: T -> K) {
    forall i, j :: 0 <= i < j < |s| ==> key(s[i]) != key(s[j])
  }

  lemma {:induction false} InsertDistinct<T, K>(x: T, s: seq<T>, before: (T, T) -> bool, key: T -> K)
    requires DistinctBy(s, key)
    requires forall i :: 0 <= i < |s| ==> key(s[i]) != key(x)
    ensures DistinctBy(Insert(x, s, before), key)
  {
    var r := Insert(x, s, before);
    if s == [] || !before(s[0], x) {
      forall i, j | 0 <= i < j < |r| ensures key(r[i]) != key(r[j]) {
        assert r[j] == s[j - 1];
        if i > 0 { assert r[i] == s[i - 1]; }
      }
    } else {
      var u := Insert(x, s[1..], before);
      InsertDistinct(x, s[1..], before, key);
      forall i, j | 0 <= i < j < |r| ensures key(r[i]) != key(r[j]) {
        assert r[j] == u[j - 1];
        if i == 0 {
          assert u[j - 1] in multiset(u);
          if u[j - 1] != x {
            assert u[j - 1] in multiset(s[1..]);
            var m :| 0 <= m < |s[1..]| && s[1..][m] == u[j - 1];
            assert s[m + 1] == u[j - 1];
          }
        } else {
          assert r[i] == u[i - 1];
        }
      }
    }
  }

  /** Sorting keeps keys distinct. */
  lemma {:induction false} SortByDistinct<T, K>(s: seq<T>, before: (T, T) -> bool, key: T -> K)
    requires DistinctBy(s, key)
    ensures DistinctBy(SortBy(s, before), key)
  {
    if s != [] {
      var t := SortBy(s[1..], before);
      SortByDistinct(s[1..], before, key);
      forall i | 0 <= i < |t| ensures key(t[i]) != key(s[0]) {
        assert t[i] in multiset(s[1..]);
        var m :| 0 <= m < |s[1..]| && s[1..][m] == t[i];
        assert s[m + 1] == t[i];
      }
      InsertDistinct(s[0], t, before, key);
    }
  }

  /** Tied elements of `s` appear in increasing `rank`. */
  ghost predicate TiesRanked<T>(s: seq<T>, before: (T, T) -> bool, rank: T -> int) {
    forall i, j :: 0 <= i < j < |s| && !before(s[i], s[j]) && !before(s[j], s[i]) ==> rank(s[i]) < rank(s[j])
  }

  lemma {:induction false} InsertTiesRanked<T>(x: T, s: seq<T>, before: (T, T) -> bool, rank: T -> int)
    requires TiesRanked(s, before, rank)
    requires forall i :: 0 <= i < |s| ==> rank(x) < rank(s[i])
    ensures TiesRanked(Insert(x, s, before), before, rank)
  {
    var r := Insert(x, s, before);
    if s == [] || !before(s[0], x) {
      forall i, j | 0 <= i < j < |r| && !before(r[i], r[j]) && !before(r[j], r[i])
        ensures rank(r[i]) < rank(r[j])
      {
        assert r[j] == s[j - 1];
        if i > 0 { assert r[i] == s[i - 1]; }
      }
    } else {
      var u := Insert(x, s[1..], before);
      assert TiesRanked(s[1..], before, rank) by {
        forall i, j | 0 <= i < j < |s[1..]| && !before(s[1..][i], s[1..][j]) && !before(s[1..][j], s[1..][i])
          ensures rank(s[1..][i]) < rank(s[1..][j])
        {
          assert s[1..][i] == s[i + 1] && s[1..][j] == s[j + 1];
        }
      }
      InsertTiesRanked(x, s[1..], before, rank);
      forall i, j | 0 <= i < j < |r| && !before(r[i], r[j]) && !before(r[j], r[i])
        ensures rank(r[i]) < rank(r[j])
      {
        assert r[j] == u[j - 1];
        if i == 0 {
          assert u[j - 1] in multiset(u);
          if u[j - 1] != x {
            assert u[j - 1] in multiset(s[1..]);
            var m :| 0 <= m < |s[1..]| && s[1..][m] == u[j - 1];
            assert s[m + 1] == u[j - 1];
          }
        } else {
          assert r[i] == u[i - 1];
        }
      }
    }
  }

  /** Stability in terms of a rank: when the input is in increasing `rank`,
      tied elements of the output are too. */
  lemma {:induction false} SortByTiesRanked<T>(s: seq<T>, before: (T, T) -> bool, rank: T -> int)
    requires forall i, j :: 0 <= i < j < |s| ==> rank(s[i]) < rank(s[j])
    ensures TiesRanked(SortBy(s, before), before, rank)
  {
    if s != [] {
      var t := SortBy(s[1..], before);
      SortByTiesRanked(s[1..], before, rank);
      forall i | 0 <= i < |t| ensures rank(s[0]) < rank(t[i]) {
        assert t[i] in multiset(s[1..]);
        var m :| 0 <= m < |s[1..]| && s[1..][m] == t[i];
        assert s[m + 1] == t[i];
      }
      InsertTiesRanked(s[0], t, before, rank);
    }
  }
}
