/** Filtering and summing over sequences: the list operations (`filter`,
    `sumOf`, `size`) that the report builders and the store's queries use. */
module Seqs {

  /** The elements of `s` that satisfy `p`, in their original order. */
  function Filter<T>(s: seq<T>, p: T -> bool): (r: seq<T>)
    ensures |r| <= |s|
    ensures forall i :: 0 <= i < |r| ==> r[i] in s && p(r[i])
  {
    if s == [] then []
    else
      assert s == [s[0]] + s[1..];
      (if p(s[0]) then [s[0]] else []) + Filter(s[1..], p)
  }

  /** Filtering keeps at most as many copies of each element as there are. */
  lemma {:induction false} FilterSubMultiset<T>(s: seq<T>, p: T -> bool)
    ensures multiset(Filter(s, p)) <= multiset(s)
  {
    if s != [] {
      FilterSubMultiset(s[1..], p);
      assert s == [s[0]] + s[1..];
    }
  }

  /** Nothing that satisfies `p` is dropped. */
  lemma {:induction false} FilterComplete<T>(s: seq<T>, p: T -> bool)
    ensures forall i :: 0 <= i < |s| && p(s[i]) ==> s[i] in Filter(s, p)
  {
    if s != [] {
      FilterComplete(s[1..], p);
      forall i | 0 <= i < |s| && p(s[i]) ensures s[i] in Filter(s, p) {
        if i > 0 { assert s[i] == s[1..][i - 1]; }
      }
    }
  }

  /** Two predicates that agree on every element filter alike. */
  lemma {:induction false} FilterAgree<T>(s: seq<T>, p: T -> bool, q: T -> bool)
    requires forall i :: 0 <= i < |s| ==> p(s[i]) == q(s[i])
    ensures Filter(s, p) == Filter(s, q)
  {
    if s != [] {
      FilterAgree(s[1..], p, q);
    }
  }

  /** An element is kept exactly when it occurs in `s` and satisfies `p`. */
  lemma FilterMembers<T>(s: seq<T>, p: T -> bool)
    ensures forall e :: e in Filter(s, p) <==> e in s && p(e)
  {
    var r := Filter(s, p);
    FilterComplete(s, p);
    forall e | e in r ensures e in s && p(e) {
      var i :| 0 <= i < |r| && r[i] == e;
    }
    forall e | e in s && p(e) ensures e in r {
      var i :| 0 <= i < |s| && s[i] == e;
    }
  }

  /** `sumOf` with a real-valued selector. */
  function SumReal<T>(s: seq<T>, f: T -> real): real {
    if s == [] then 0.0 else f(s[0]) + SumReal(s[1..], f)
  }

  /** `sumOf` with an integer-valued selector. */
  function SumInt<T>(s: seq<T>, f: T -> int): int {
    if s == [] then 0 else f(s[0]) + SumInt(s[1..], f)
  }

  lemma {:induction false} FilterAppend<T>(s: seq<T>, t: seq<T>, p: T -> bool)
    ensures Filter(s + t, p) == Filter(s, p) + Filter(t, p)
  {
    if s == [] {
      assert s + t == t;
    } else {
      assert (s + t)[1..] == s[1..] + t;
      FilterAppend(s[1..], t, p);
    }
  }

  lemma {:induction false} FilterKeepsAll<T>(s: seq<T>, p: T -> bool)
    requires forall i :: 0 <= i < |s| ==> p(s[i])
    ensures Filter(s, p) == s
  {
    if s != [] {
      FilterKeepsAll(s[1..], p);
    }
  }

  lemma {:induction false} FilterDropsAll<T>(s: seq<T>, p: T -> bool)
    requires forall i :: 0 <= i < |s| ==> !p(s[i])
    ensures Filter(s, p) == []
  {
    if s != [] {
      FilterDropsAll(s[1..], p);
    }
  }

  lemma {:induction false} SumRealAppend<T>(s: seq<T>, t: seq<T>, f: T -> real)
    ensures SumReal(s + t, f) == SumReal(s, f) + SumReal(t, f)
  {
    if s == [] {
      assert s + t == t;
    } else {
      assert (s + t)[1..] == s[1..] + t;
      SumRealAppend(s[1..], t, f);
    }
  }

  lemma {:induction false} SumIntAppend<T>(s: seq<T>, t: seq<T>, f: T -> int)
    ensures SumInt(s + t, f) == SumInt(s, f) + SumInt(t, f)
  {
    if s == [] {
      assert s + t == t;
    } else {
      assert (s + t)[1..] == s[1..] + t;
      SumIntAppend(s[1..], t, f);
    }
  }

  /** Splitting a filter into two disjoint filters splits its size and its sum. */
  lemma {:induction false} FilterSplit<T>(s: seq<T>, r: T -> bool, p: T -> bool, q: T -> bool, f: T -> real)
    requires forall i :: 0 <= i < |s| ==> (r(s[i]) <==> p(s[i]) || q(s[i]))
    requires forall i :: 0 <= i < |s| ==> !(p(s[i]) && q(s[i]))
    ensures |Filter(s, r)| == |Filter(s, p)| + |Filter(s, q)|
    ensures SumReal(Filter(s, r), f) == SumReal(Filter(s, p), f) + SumReal(Filter(s, q), f)
  {
    if s != [] {
      FilterSplit(s[1..], r, p, q, f);
      var x := s[0];
      var tail := Filter(s[1..], r);
      assert Filter(s, r) == (if r(x) then [x] else []) + tail;
      SumRealAppend(if r(x) then [x] else [], tail, f);
      SumRealAppend(if p(x) then [x] else [], Filter(s[1..], p), f);
      SumRealAppend(if q(x) then [x] else [], Filter(s[1..], q), f);
    }
  }

  /** A sequence is its part before `i`, its element at `i` and its part after `i`. */
  lemma SplitAt<T>(s: seq<T>, i: nat)
    requires i < |s|
    ensures s == s[..i] + [s[i]] + s[i + 1..]
  {
  }

  /** Filtering out one rejected element between accepted ones. */
  lemma FilterDropOne<T>(pre: seq<T>, x: T, post: seq<T>, p: T -> bool)
    requires forall j :: 0 <= j < |pre| ==> p(pre[j])
    requires forall j :: 0 <= j < |post| ==> p(post[j])
    requires !p(x)
    ensures Filter(pre + [x] + post, p) == pre + post
  {
    assert Filter(pre + [x], p) == pre by {
      FilterAppend(pre, [x], p);
      FilterKeepsAll(pre, p);
      FilterDropsAll([x], p);
    }
    assert Filter(post, p) == post by {
      FilterKeepsAll(post, p);
    }
    FilterAppend(pre + [x], post, p);
  }

  /** A relation that holds between every earlier and later element of `s` holds
      the same way in any filtered subsequence. */
  lemma {:induction false} FilterPairwise<T>(s: seq<T>, p: T -> bool, rel: (T, T) -> bool)
    requires forall i, j :: 0 <= i < j < |s| ==> rel(s[i], s[j])
    ensures forall i, j :: 0 <= i < j < |Filter(s, p)| ==> rel(Filter(s, p)[i], Filter(s, p)[j])
  {
    if s != [] {
      var f := Filter(s[1..], p);
      FilterPairwise(s[1..], p, rel);
      var r := Filter(s, p);
      assert r == (if p(s[0]) then [s[0]] else []) + f;
      forall i, j | 0 <= i < j < |r| ensures rel(r[i], r[j]) {
        if p(s[0]) {
          assert r[j] == f[j - 1];
          if i == 0 {
            var m :| 0 <= m < |s[1..]| && s[1..][m] == f[j - 1];
            assert s[m + 1] == f[j - 1];
          } else {
            assert r[i] == f[i - 1];
          }
        }
      }
    }
  }

  /** Reordering does not change a sum. */
  lemma {:induction false} PermutationSum<T>(s: seq<T>, t: seq<T>, f: T -> real)
    requires multiset(s) == multiset(t)
    ensures SumReal(s, f) == SumReal(t, f)
    decreases |s|
  {
    if s != [] {
      assert s[0] in multiset(t);
      var k :| 0 <= k < |t| && t[k] == s[0];
      RemoveAtMultiset(s, t, k);
      PermutationSum(s[1..], t[..k] + t[k + 1..], f);
      RemoveAtSum(t, k, f);
    }
  }

  /** Taking the first element of `s` out of `t` leaves the rest of `s`. */
  lemma RemoveAtMultiset<T>(s: seq<T>, t: seq<T>, k: int)
    requires multiset(s) == multiset(t)
    requires s != [] && 0 <= k < |t| && t[k] == s[0]
    ensures multiset(s[1..]) == multiset(t[..k] + t[k + 1..])
  {
    var pre, post := t[..k], t[k + 1..];
    assert t == pre + [s[0]] + post;
    assert s == [s[0]] + s[1..];
    forall y ensures multiset(s[1..])[y] == multiset(pre + post)[y] {
      assert multiset(s)[y] == multiset(s[1..])[y] + multiset{s[0]}[y];
      assert multiset(t)[y] == multiset(pre + post)[y] + multiset{s[0]}[y];
    }
  }

  /** The sum over `t` is `t[k]` plus the sum over the others. */
  lemma RemoveAtSum<T>(t: seq<T>, k: int, f: T -> real)
    requires 0 <= k < |t|
    ensures SumReal(t, f) == f(t[k]) + SumReal(t[..k] + t[k + 1..], f)
  {
    var pre, post := t[..k], t[k + 1..];
    assert t == pre + [t[k]] + post;
    SumRealAppend(pre + [t[k]], post, f);
    SumRealAppend(pre, [t[k]], f);
    SumRealAppend(pre, post, f);
    assert SumReal([t[k]], f) == f(t[k]) + SumReal([t[k]][1..], f);
  }
}
