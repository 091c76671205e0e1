/** Kotlin's `groupBy`: one group per distinct key, in the order in which the
    keys first appear, each holding its elements in input order. The result
    is an insertion-ordered map, modelled as a sequence of groups. */
module Grouping {
  import opened Seqs

  datatype Group<K, T> = Group(key: K, items: seq<T>)

  /** The elements whose key is `k`. */
  function KeyIs<T, K(==)>(key: T -> K, k: K): T -> bool {
    x => key(x) == k
  }

  function Keys<K, T>(gs: seq<Group<K, T>>): (ks: seq<K>)
    ensures |ks| == |gs|
    ensures forall i :: 0 <= i < |gs| ==> ks[i] == gs[i].key
  {
    seq(|gs|, i requires 0 <= i < |gs| => gs[i].key)
  }

  ghost predicate DistinctKeys<K, T>(gs: seq<Group<K, T>>) {
    forall i, j :: 0 <= i < j < |gs| ==> gs[i].key != gs[j].key
  }

  /** `getOrPut(k) { mutableListOf() }.add(x)` on an insertion-ordered map. */
  function AddTo<K(==), T>(gs: seq<Group<K, T>>, k: K, x: T): seq<Group<K, T>> {
    if gs == [] then [Group(k, [x])]
    else if gs[0].key == k then [Group(k, gs[0].items + [x])] + gs[1..]
    else [gs[0]] + AddTo(gs[1..], k, x)
  }

  /** `s.groupBy(key)`: the elements are added to their groups one by one, front to back. */
  function GroupBy<T, K(==)>(s: seq<T>, key: T -> K): seq<Group<K, T>> {
    if s == [] then [] else AddTo(GroupBy(s[..|s| - 1], key), key(s[|s| - 1]), s[|s| - 1])
  }

  /** `map[k].orEmpty()`. */
  function Lookup<K(==), T>(gs: seq<Group<K, T>>, k: K): seq<T> {
    if gs == [] then [] else if gs[0].key == k then gs[0].items else Lookup(gs[1..], k)
  }

  /** The position of the first element of `s` with key `k`, or `|s|` when there is none. */
  function FirstIndex<T, K(==)>(s: seq<T>, key: T -> K, k: K): (n: nat)
    ensures n <= |s|
    ensures n < |s| ==> key(s[n]) == k
    ensures forall j :: 0 <= j < n ==> key(s[j]) != k
  {
    if s == [] then 0 else if key(s[0]) == k then 0 else 1 + FirstIndex(s[1..], key, k)
  }

  /** Total of `f` over the members of all groups. */
  function ItemsSum<K, T>(gs: seq<Group<K, T>>, f: T -> real): real {
    if gs == [] then 0.0 else SumReal(gs[0].items, f) + ItemsSum(gs[1..], f)
  }

  /** Number of members of all groups. */
  function ItemsCount<K, T>(gs: seq<Group<K, T>>): int {
    if gs == [] then 0 else |gs[0].items| + ItemsCount(gs[1..])
  }

  lemma {:induction false} AddToShape<K, T>(gs: seq<Group<K, T>>, k: K, x: T)
    requires DistinctKeys(gs)
    ensures k in Keys(gs) ==>
              && |AddTo(gs, k, x)| == |gs|
              && forall i :: 0 <= i < |gs| ==>
                   AddTo(gs, k, x)[i] == (if gs[i].key == k then Group(k, gs[i].items + [x]) else gs[i])
    ensures k !in Keys(gs) ==> AddTo(gs, k, x) == gs + [Group(k, [x])]
  {
    if gs != [] && gs[0].key != k {
      assert Keys(gs) == [gs[0].key] + Keys(gs[1..]);
      AddToShape(gs[1..], k, x);
    } else if gs != [] {
      assert Keys(gs)[0] == k;
    }
  }

  lemma {:induction false} AddToNewKey<K, T>(gs: seq<Group<K, T>>, k: K, x: T)
    requires k !in Keys(gs)
    ensures AddTo(gs, k, x) == gs + [Group(k, [x])]
  {
    if gs != [] {
      assert gs[0].key != k by { assert Keys(gs)[0] == gs[0].key; }
      assert k !in Keys(gs[1..]) by { assert Keys(gs) == [gs[0].key] + Keys(gs[1..]); }
      AddToNewKey(gs[1..], k, x);
      assert gs == [gs[0]] + gs[1..];
    }
  }

  lemma {:induction false} AddToTotals<K, T>(gs: seq<Group<K, T>>, k: K, x: T, f: T -> real)
    ensures ItemsSum(AddTo(gs, k, x), f) == ItemsSum(gs, f) + f(x)
    ensures ItemsCount(AddTo(gs, k, x)) == ItemsCount(gs) + 1
  {
    if gs == [] {
      assert AddTo(gs, k, x)[1..] == [];
      assert SumReal([x], f) == f(x) + SumReal([x][1..], f);
    } else if gs[0].key == k {
      SumRealAppend(gs[0].items, [x], f);
      assert AddTo(gs, k, x)[1..] == gs[1..];
    } else {
      AddToTotals(gs[1..], k, x, f);
      assert AddTo(gs, k, x)[1..] == AddTo(gs[1..], k, x);
    }
  }

  /** The members of all groups are exactly the input: their sums and counts agree. */
  lemma {:induction false} GroupByTotals<T, K>(s: seq<T>, key: T -> K, f: T -> real)
    ensures ItemsSum(GroupBy(s, key), f) == SumReal(s, f)
    ensures ItemsCount(GroupBy(s, key)) == |s|
  {
    if s != [] {
      var p, x := s[..|s| - 1], s[|s| - 1];
      GroupByTotals(p, key, f);
      AddToTotals(GroupBy(p, key), key(x), x, f);
      assert s == p + [x];
      SumRealAppend(p, [x], f);
    }
  }

  lemma {:induction false} FilterLast<T, K>(p: seq<T>, x: T, key: T -> K, c: K)
    ensures Filter(p + [x], KeyIs(key, c)) == Filter(p, KeyIs(key, c)) + (if key(x) == c then [x] else [])
  {
    FilterAppend(p, [x], KeyIs(key, c));
    assert [x][1..] == [];
  }

  lemma {:induction false} FirstIndexExtend<T, K>(p: seq<T>, x: T, key: T -> K, c: K)
    requires FirstIndex(p, key, c) < |p|
    ensures FirstIndex(p + [x], key, c) == FirstIndex(p, key, c)
  {
    var m, m' := FirstIndex(p + [x], key, c), FirstIndex(p, key, c);
    assert (p + [x])[m'] == p[m'];
  }

  /** The keys `ks` are distinct, each occurs in `s`, every key of `s` is
      among them, and they are in the order of their first appearance in `s`. */
  ghost predicate KeysOf<T, K>(s: seq<T>, key: T -> K, ks: seq<K>) {
    && (forall i, j :: 0 <= i < j < |ks| ==> ks[i] != ks[j])
    && (forall i :: 0 <= i < |ks| ==> FirstIndex(s, key, ks[i]) < |s|)
    && (forall j :: 0 <= j < |s| ==> key(s[j]) in ks)
    && (forall i, j :: 0 <= i < j < |ks| ==> FirstIndex(s, key, ks[i]) < FirstIndex(s, key, ks[j]))
  }

  /** Each group of `gs` holds exactly the elements of `s` with its key, in input order. */
  ghost predicate ItemsOf<T, K>(s: seq<T>, key: T -> K, gs: seq<Group<K, T>>) {
    forall i :: 0 <= i < |gs| ==> gs[i].items == Filter(s, KeyIs(key, gs[i].key))
  }

  lemma {:induction false} AddToKeys<K, T>(gs: seq<Group<K, T>>, k: K, x: T)
    ensures Keys(AddTo(gs, k, x)) == if k in Keys(gs) then Keys(gs) else Keys(gs) + [k]
  {
    if gs != [] {
      assert gs == [gs[0]] + gs[1..];
      KeysCons(gs[0], gs[1..]);
      if gs[0].key == k {
        KeysCons(Group(k, gs[0].items + [x]), gs[1..]);
      } else {
        var r := AddTo(gs[1..], k, x);
        AddToKeys(gs[1..], k, x);
        KeysCons(gs[0], r);
        assert k in Keys(gs) <==> k in Keys(gs[1..]);
      }
    }
  }

  lemma KeysCons<K, T>(g: Group<K, T>, gs: seq<Group<K, T>>)
    ensures Keys([g] + gs) == [g.key] + Keys(gs)
  {
  }

  lemma {:induction false} AbsentKey<T, K>(s: seq<T>, key: T -> K, ks: seq<K>, k: K)
    requires forall j :: 0 <= j < |s| ==> key(s[j]) in ks
    requires k !in ks
    ensures Filter(s, KeyIs(key, k)) == []
    ensures FirstIndex(s, key, k) == |s|
  {
    forall j | 0 <= j < |s|
      ensures !KeyIs(key, k)(s[j])
    {
      assert key(s[j]) in ks;
    }
    FilterDropsAll(s, KeyIs(key, k));
  }

  lemma {:induction false} ExtendFirstIndices<T, K>(s: seq<T>, key: T -> K, ks: seq<K>)
    requires s != []
    requires forall i :: 0 <= i < |ks| ==> FirstIndex(s[..|s| - 1], key, ks[i]) < |s| - 1
    ensures forall i :: 0 <= i < |ks| ==> FirstIndex(s, key, ks[i]) == FirstIndex(s[..|s| - 1], key, ks[i])
  {
    var p, x := s[..|s| - 1], s[|s| - 1];
    assert s == p + [x];
    forall i | 0 <= i < |ks|
      ensures FirstIndex(s, key, ks[i]) == FirstIndex(p, key, ks[i])
    {
      FirstIndexExtend(p, x, key, ks[i]);
    }
  }

  lemma {:induction false} KeysOfPresent<T, K>(s: seq<T>, key: T -> K, ks: seq<K>)
    requires s != [] && key(s[|s| - 1]) in ks
    requires KeysOf(s[..|s| - 1], key, ks)
    ensures KeysOf(s, key, ks)
  {
    var p := s[..|s| - 1];
    ExtendFirstIndices(s, key, ks);
    forall j | 0 <= j < |p|
      ensures key(s[j]) in ks
    {
      assert s[j] == p[j];
    }
  }

  lemma {:induction false} KeysOfAbsent<T, K>(s: seq<T>, key: T -> K, ks: seq<K>)
    requires s != [] && key(s[|s| - 1]) !in ks
    requires KeysOf(s[..|s| - 1], key, ks)
    ensures KeysOf(s, key, ks + [key(s[|s| - 1])])
  {
    var p, k := s[..|s| - 1], key(s[|s| - 1]);
    var ks' := ks + [k];
    ExtendFirstIndices(s, key, ks);
    forall j | 0 <= j < |p|
      ensures key(s[j]) in ks
    {
      assert s[j] == p[j];
    }
    var n := FirstIndex(s, key, k);
    assert n == |p|;
    forall i | 0 <= i < |ks'|
      ensures FirstIndex(s, key, ks'[i]) < |s|
      ensures i < |ks| ==> FirstIndex(s, key, ks'[i]) < n
    {
    }
  }

  lemma {:induction false} GroupByKeys<T, K>(s: seq<T>, key: T -> K)
    ensures KeysOf(s, key, Keys(GroupBy(s, key)))
    ensures DistinctKeys(GroupBy(s, key))
  {
    var gs := GroupBy(s, key);
    if s != [] {
      var p, x := s[..|s| - 1], s[|s| - 1];
      GroupByKeys(p, key);
      AddToKeys(GroupBy(p, key), key(x), x);
      if key(x) in Keys(GroupBy(p, key)) {
        KeysOfPresent(s, key, Keys(GroupBy(p, key)));
      } else {
        KeysOfAbsent(s, key, Keys(GroupBy(p, key)));
      }
    }
    forall i, j | 0 <= i < j < |gs|
      ensures gs[i].key != gs[j].key
    {
      assert Keys(gs)[i] == gs[i].key && Keys(gs)[j] == gs[j].key;
    }
  }

  lemma {:induction false} AddToItemsPresent<T, K>(s: seq<T>, key: T -> K, gs: seq<Group<K, T>>)
    requires s != [] && key(s[|s| - 1]) in Keys(gs)
    requires DistinctKeys(gs)
    requires ItemsOf(s[..|s| - 1], key, gs)
    ensures ItemsOf(s, key, AddTo(gs, key(s[|s| - 1]), s[|s| - 1]))
  {
    var p, x := s[..|s| - 1], s[|s| - 1];
    assert s == p + [x];
    var gs' := AddTo(gs, key(x), x);
    AddToShape(gs, key(x), x);
    forall i | 0 <= i < |gs'|
      ensures gs'[i].items == Filter(s, KeyIs(key, gs'[i].key))
    {
      FilterLast(p, x, key, gs[i].key);
    }
  }

  lemma {:induction false} OtherGroupsUnchanged<T, K>(s: seq<T>, key: T -> K, gs: seq<Group<K, T>>)
    requires s != [] && key(s[|s| - 1]) !in Keys(gs)
    requires ItemsOf(s[..|s| - 1], key, gs)
    ensures ItemsOf(s, key, gs)
  {
    var p, x := s[..|s| - 1], s[|s| - 1];
    assert s == p + [x];
    forall i | 0 <= i < |gs|
      ensures gs[i].items == Filter(s, KeyIs(key, gs[i].key))
    {
      FilterLast(p, x, key, gs[i].key);
      assert Keys(gs)[i] == gs[i].key;
    }
  }

  lemma {:induction false} NewGroupItems<T, K>(s: seq<T>, key: T -> K, ks: seq<K>)
    requires s != [] && key(s[|s| - 1]) !in ks
    requires forall j :: 0 <= j < |s| - 1 ==> key(s[j]) in ks
    ensures Filter(s, KeyIs(key, key(s[|s| - 1]))) == [s[|s| - 1]]
  {
    var p, x := s[..|s| - 1], s[|s| - 1];
    assert s == p + [x];
    forall j | 0 <= j < |p|
      ensures key(p[j]) in ks
    {
      assert s[j] == p[j];
    }
    AbsentKey(p, key, ks, key(x));
    FilterLast(p, x, key, key(x));
  }

  lemma {:induction false} AddToItemsAbsent<T, K>(s: seq<T>, key: T -> K, gs: seq<Group<K, T>>)
    requires s != [] && key(s[|s| - 1]) !in Keys(gs)
    requires forall j :: 0 <= j < |s| - 1 ==> key(s[j]) in Keys(gs)
    requires ItemsOf(s[..|s| - 1], key, gs)
    ensures ItemsOf(s, key, AddTo(gs, key(s[|s| - 1]), s[|s| - 1]))
  {
    var x := s[|s| - 1];
    AddToNewKey(gs, key(x), x);
    OtherGroupsUnchanged(s, key, gs);
    NewGroupItems(s, key, Keys(gs));
    ItemsOfAppend(s, key, gs, Group(key(x), [x]));
  }

  lemma {:induction false} ItemsOfAppend<T, K>(s: seq<T>, key: T -> K, gs: seq<Group<K, T>>, g: Group<K, T>)
    requires ItemsOf(s, key, gs)
    requires g.items == Filter(s, KeyIs(key, g.key))
    ensures ItemsOf(s, key, gs + [g])
  {
    forall i | 0 <= i < |gs| + 1
      ensures (gs + [g])[i].items == Filter(s, KeyIs(key, (gs + [g])[i].key))
    {
      if i < |gs| { assert (gs + [g])[i] == gs[i]; }
    }
  }

  lemma {:induction false} GroupByItems<T, K>(s: seq<T>, key: T -> K)
    ensures ItemsOf(s, key, GroupBy(s, key))
  {
    if s != [] {
      var p := s[..|s| - 1];
      GroupByKeys(p, key);
      GroupByItems(p, key);
      forall j | 0 <= j < |s| - 1
        ensures key(s[j]) in Keys(GroupBy(p, key))
      {
        assert s[j] == p[j];
      }
      if key(s[|s| - 1]) in Keys(GroupBy(p, key)) {
        AddToItemsPresent(s, key, GroupBy(p, key));
      } else {
        AddToItemsAbsent(s, key, GroupBy(p, key));
      }
    }
  }

  /** `groupBy` yields one non-empty group per distinct key, in order of first
      appearance, holding exactly the elements with that key in input order. */
  lemma {:induction false} GroupByCorrect<T, K>(s: seq<T>, key: T -> K)
    ensures DistinctKeys(GroupBy(s, key))
    ensures KeysOf(s, key, Keys(GroupBy(s, key)))
    ensures ItemsOf(s, key, GroupBy(s, key))
    ensures forall i :: 0 <= i < |GroupBy(s, key)| ==> GroupBy(s, key)[i].items != []
  {
    var gs := GroupBy(s, key);
    GroupByKeys(s, key);
    GroupByItems(s, key);
    forall i | 0 <= i < |gs|
      ensures gs[i].items != []
    {
      assert Keys(gs)[i] == gs[i].key;
      var n := FirstIndex(s, key, gs[i].key);
      assert KeyIs(key, gs[i].key)(s[n]);
      FilterComplete(s, KeyIs(key, gs[i].key));
      assert s[n] in gs[i].items;
    }
  }

  lemma {:induction false} LookupAt<K, T>(gs: seq<Group<K, T>>, k: K)
    requires DistinctKeys(gs)
    ensures forall i :: 0 <= i < |gs| && gs[i].key == k ==> Lookup(gs, k) == gs[i].items
    ensures k !in Keys(gs) ==> Lookup(gs, k) == []
  {
    if gs != [] {
      assert Keys(gs) == [gs[0].key] + Keys(gs[1..]);
      LookupAt(gs[1..], k);
      forall i | 0 <= i < |gs| && gs[i].key == k
        ensures Lookup(gs, k) == gs[i].items
      {
        if i > 0 {
          assert gs[1..][i - 1] == gs[i];
        }
      }
    }
  }

  /** `groupBy(key)[k].orEmpty()` is the sublist of elements with key `k`, present or not. */
  lemma {:induction false} LookupGroupBy<T, K>(s: seq<T>, key: T -> K, k: K)
    ensures Lookup(GroupBy(s, key), k) == Filter(s, KeyIs(key, k))
  {
    var gs := GroupBy(s, key);
    GroupByCorrect(s, key);
    LookupAt(gs, k);
    if k !in Keys(gs) {
      AbsentKey(s, key, Keys(gs), k);
    } else {
      var i :| 0 <= i < |gs| && Keys(gs)[i] == k;
    }
  }
}
