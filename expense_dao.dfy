/** The `expenses` table and the queries of the data-access object, run against an
    in-memory table: a sequence of rows in insertion order. */
module Db {
  import opened Wrappers
  import opened Seqs
  import opened Sorting
  import opened Text
  import opened ExpenseModel

  // ---------------------------------------------------------------- row predicates

  /** `date >= :startOfDay AND date < :endOfDay` */
  function InRange(lo: int, hi: int): ExpenseEntity -> bool {
    (e: ExpenseEntity) => lo <= e.date < hi
  }

  /** `date = :date AND LOWER(title) = LOWER(:title) AND LOWER(category) = LOWER(:category)` */
  function IsDuplicateOf(date: int, title: string, category: string): ExpenseEntity -> bool {
    (e: ExpenseEntity) => e.date == date && Lower(e.title) == Lower(title) && Lower(e.category) == Lower(category)
  }

  /** The rows that a delete by primary key `id` leaves in place. */
  function OtherId(id: string): ExpenseEntity -> bool {
    (e: ExpenseEntity) => e.id != id
  }

  ghost predicate UniqueIds(rows: seq<ExpenseEntity>) {
    forall i, j :: 0 <= i < j < |rows| ==> rows[i].id != rows[j].id
  }

  // ---------------------------------------------------------------- orderings

  /** `ORDER BY date DESC` */
  function LaterFirst(a: ExpenseEntity, b: ExpenseEntity): bool {
    a.date > b.date
  }

  /** SQLite's BINARY collation on text: code point by code point, a proper prefix first. */
  function StrLess(a: string, b: string): bool {
    if a == [] then b != []
    else if b == [] then false
    else if a[0] != b[0] then a[0] < b[0]
    else StrLess(a[1..], b[1..])
  }

  /** `ORDER BY category, date DESC` */
  function CategoryThenLaterFirst(a: ExpenseEntity, b: ExpenseEntity): bool {
    StrLess(a.category, b.category) || (a.category == b.category && a.date > b.date)
  }

  lemma {:induction false} StrLessAsymmetric(a: string, b: string)
    ensures StrLess(a, b) ==> !StrLess(b, a)
  {
    if a != [] && b != [] && a[0] == b[0] {
      StrLessAsymmetric(a[1..], b[1..]);
    }
  }

  lemma {:induction false} StrLessTransitive(a: string, b: string, c: string)
    ensures StrLess(a, b) && StrLess(b, c) ==> StrLess(a, c)
  {
    if a != [] && b != [] && c != [] && a[0] == b[0] && b[0] == c[0] {
      StrLessTransitive(a[1..], b[1..], c[1..]);
    }
  }

  lemma {:induction false} StrLessTotal(a: string, b: string)
    ensures a != b ==> StrLess(a, b) || StrLess(b, a)
  {
    if a != [] && b != [] && a[0] == b[0] {
      assert a == [a[0]] + a[1..];
      assert b == [b[0]] + b[1..];
      StrLessTotal(a[1..], b[1..]);
    }
  }

  lemma LaterFirstOrder()
    ensures StrictWeakOrder(LaterFirst)
  {
  }

  lemma CategoryOrder()
    ensures StrictWeakOrder(CategoryThenLaterFirst)
  {
    forall a: ExpenseEntity, b: ExpenseEntity
      ensures Before(CategoryThenLaterFirst, a, b) ==> !Before(CategoryThenLaterFirst, b, a)
    {
      StrLessAsymmetric(a.category, b.category);
    }
    forall a: ExpenseEntity, b: ExpenseEntity, c: ExpenseEntity
      ensures !Before(CategoryThenLaterFirst, a, b) && !Before(CategoryThenLaterFirst, b, c)
              ==> !Before(CategoryThenLaterFirst, a, c)
    {
      StrLessTotal(a.category, b.category);
      StrLessTotal(b.category, c.category);
      StrLessTransitive(c.category, b.category, a.category);
      StrLessAsymmetric(a.category, c.category);
    }
  }

  // ---------------------------------------------------------------- table facts

  /** A subsequence of rows with distinct keys has distinct keys. */
  lemma {:induction false} FilterUniqueIds(rows: seq<ExpenseEntity>, p: ExpenseEntity -> bool)
    requires UniqueIds(rows)
    ensures UniqueIds(Filter(rows, p))
  {
    if rows != [] {
      FilterUniqueIds(rows[1..], p);
      var rest := Filter(rows[1..], p);
      forall j | 0 <= j < |rest| ensures rows[0].id != rest[j].id {
        var k :| 0 <= k < |rows[1..]| && rows[1..][k] == rest[j];
        assert rows[k + 1] == rest[j];
      }
    }
  }

  /** Deleting a key no row has leaves the table as it was. */
  lemma DeleteAbsent(rows: seq<ExpenseEntity>, id: string)
    requires forall i :: 0 <= i < |rows| ==> rows[i].id != id
    ensures Filter(rows, OtherId(id)) == rows
  {
    FilterKeepsAll(rows, OtherId(id));
  }

  /** Deleting the key of row `i` removes that row and keeps the others in order. */
  lemma DeletePresent(rows: seq<ExpenseEntity>, i: nat)
    requires UniqueIds(rows)
    requires i < |rows|
    ensures Filter(rows, OtherId(rows[i].id)) == rows[..i] + rows[i + 1..]
  {
    var id := rows[i].id;
    var p := OtherId(id);
    var pre, post := rows[..i], rows[i + 1..];
    forall j | 0 <= j < |pre| ensures p(pre[j]) {
      assert pre[j] == rows[j];
      assert rows[j].id != id;
    }
    forall j | 0 <= j < |post| ensures p(post[j]) {
      assert post[j] == rows[i + 1 + j];
      assert rows[i + 1 + j].id != id;
    }
    assert !p(rows[i]);
    FilterDropOne(pre, rows[i], post, p);
    SplitAt(rows, i);
  }

  /** A sequence with the same elements as the rows in `[lo, hi)`. */
  lemma RangeMembers(rows: seq<ExpenseEntity>, lo: int, hi: int, r: seq<ExpenseEntity>)
    requires multiset(r) == multiset(Filter(rows, InRange(lo, hi)))
    ensures forall i :: 0 <= i < |r| ==> lo <= r[i].date < hi && r[i] in rows
    ensures forall i :: 0 <= i < |rows| && lo <= rows[i].date < hi ==> rows[i] in r
  {
    RangeSound(rows, lo, hi, r);
    RangeComplete(rows, lo, hi, r);
  }

  lemma RangeSound(rows: seq<ExpenseEntity>, lo: int, hi: int, r: seq<ExpenseEntity>)
    requires multiset(r) == multiset(Filter(rows, InRange(lo, hi)))
    ensures forall i :: 0 <= i < |r| ==> lo <= r[i].date < hi && r[i] in rows
  {
    var f := Filter(rows, InRange(lo, hi));
    forall i | 0 <= i < |r| ensures lo <= r[i].date < hi && r[i] in rows {
      assert r[i] in multiset(f);
      var k :| 0 <= k < |f| && f[k] == r[i];
      assert InRange(lo, hi)(f[k]);
    }
  }

  lemma RangeComplete(rows: seq<ExpenseEntity>, lo: int, hi: int, r: seq<ExpenseEntity>)
    requires multiset(r) == multiset(Filter(rows, InRange(lo, hi)))
    ensures forall i :: 0 <= i < |rows| && lo <= rows[i].date < hi ==> rows[i] in r
  {
    var f := Filter(rows, InRange(lo, hi));
    FilterComplete(rows, InRange(lo, hi));
    forall i | 0 <= i < |rows| && lo <= rows[i].date < hi ensures rows[i] in r {
      assert InRange(lo, hi)(rows[i]);
      assert rows[i] in f;
      assert rows[i] in multiset(r);
    }
  }

  /** `COUNT(*) ... WHERE p` is positive exactly when some row satisfies `p`. */
  lemma CountPositive(rows: seq<ExpenseEntity>, p: ExpenseEntity -> bool)
    ensures |Filter(rows, p)| > 0 <==> exists i :: 0 <= i < |rows| && p(rows[i])
  {
    if exists i :: 0 <= i < |rows| && p(rows[i]) {
      var i :| 0 <= i < |rows| && p(rows[i]);
      FilterComplete(rows, p);
      assert rows[i] in Filter(rows, p);
    }
  }

  // ---------------------------------------------------------------- the table

  class ExpenseDao {
    /** The rows of `expenses`, in insertion order. */
    var rows: seq<ExpenseEntity>

    /** `id` is the primary key. */
    ghost predicate Valid()
      reads this
    {
      UniqueIds(rows)
    }

    constructor()
      ensures Valid() && rows == []
    {
      rows := [];
    }

    predicate HasKey(id: string)
      reads this
    {
      exists i :: 0 <= i < |rows| && rows[i].id == id
    }

    /** `@Insert(onConflict = ABORT)`: a row whose key is taken is refused and the table is left as it was. */
    method InsertExpense(e: ExpenseEntity) returns (ok: bool)
      requires Valid()
      modifies this
      ensures Valid()
      ensures ok <==> !old(HasKey(e.id))
      ensures rows == if ok then old(rows) + [e] else old(rows)
    {
      ok := !HasKey(e.id);
      if ok {
        rows := rows + [e];
      }
    }

    /** `@Delete`: removes the row whose primary key is `e.id`; the other fields of `e` play no part. */
    method DeleteExpense(e: ExpenseEntity)
      requires Valid()
      modifies this
      ensures Valid()
      ensures rows == Filter(old(rows), OtherId(e.id))
      ensures !HasKey(e.id)
    {
      FilterUniqueIds(rows, OtherId(e.id));
      rows := Filter(rows, OtherId(e.id));
    }

    /** `countDuplicates`: rows booked at exactly `date` whose title and category equal
        `title` and `category` up to ASCII case. */
    function CountDuplicates(date: int, title: string, category: string): (n: nat)
      reads this
      ensures n <= |rows|
      ensures n > 0 <==> exists i :: 0 <= i < |rows| && rows[i].date == date
                           && Lower(rows[i].title) == Lower(title)
                           && Lower(rows[i].category) == Lower(category)
    {
      CountPositive(rows, IsDuplicateOf(date, title, category));
      |Filter(rows, IsDuplicateOf(date, title, category))|
    }

    /** `getExpensesByDate`: the rows with `lo <= date < hi`, latest first. */
    function ExpensesByDate(lo: int, hi: int): (r: seq<ExpenseEntity>)
      reads this
      ensures multiset(r) == multiset(Filter(rows, InRange(lo, hi)))
      ensures forall i :: 0 <= i < |r| ==> lo <= r[i].date < hi && r[i] in rows
      ensures forall i :: 0 <= i < |rows| && lo <= rows[i].date < hi ==> rows[i] in r
      ensures forall i, j :: 0 <= i < j < |r| ==> r[i].date >= r[j].date
    {
      LaterFirstOrder();
      SortBySorted(Filter(rows, InRange(lo, hi)), LaterFirst);
      RangeMembers(rows, lo, hi, SortBy(Filter(rows, InRange(lo, hi)), LaterFirst));
      SortBy(Filter(rows, InRange(lo, hi)), LaterFirst)
    }

    /** `getAllExpenses`: every row, latest first. */
    function AllExpenses(): (r: seq<ExpenseEntity>)
      reads this
      ensures multiset(r) == multiset(rows)
      ensures forall i, j :: 0 <= i < j < |r| ==> r[i].date >= r[j].date
    {
      LaterFirstOrder();
      SortBySorted(rows, LaterFirst);
      SortBy(rows, LaterFirst)
    }

    /** `getExpensesByDateGroupedByCategory`: the rows of `ExpensesByDate(lo, hi)`, by
        category ascending, latest first within a category. */
    function ExpensesByDateGroupedByCategory(lo: int, hi: int): (r: seq<ExpenseEntity>)
      reads this
      ensures multiset(r) == multiset(ExpensesByDate(lo, hi))
      ensures forall i, j :: 0 <= i < j < |r| ==>
                !StrLess(r[j].category, r[i].category)
                && (r[i].category == r[j].category ==> r[i].date >= r[j].date)
    {
      CategoryOrder();
      SortBySorted(Filter(rows, InRange(lo, hi)), CategoryThenLaterFirst);
      SortBy(Filter(rows, InRange(lo, hi)), CategoryThenLaterFirst)
    }

    /** `getAllExpensesGroupedByCategory`: every row, by category ascending, latest first
        within a category. */
    function AllExpensesGroupedByCategory(): (r: seq<ExpenseEntity>)
      reads this
      ensures multiset(r) == multiset(rows)
      ensures forall i, j :: 0 <= i < j < |r| ==>
                !StrLess(r[j].category, r[i].category)
                && (r[i].category == r[j].category ==> r[i].date >= r[j].date)
    {
      CategoryOrder();
      SortBySorted(rows, CategoryThenLaterFirst);
      SortBy(rows, CategoryThenLaterFirst)
    }

    /** `getCountByDate`: the number of rows `ExpensesByDate(lo, hi)` returns. */
    function CountByDate(lo: int, hi: int): (n: nat)
      reads this
      ensures n == |ExpensesByDate(lo, hi)|
    {
      |Filter(rows, InRange(lo, hi))|
    }

    /** `getTotalAmountByDate`: SQL `SUM`, which is NULL over no rows. */
    function TotalAmountByDate(lo: int, hi: int): (r: Option<real>)
      reads this
      ensures r.None? <==> ExpensesByDate(lo, hi) == []
      ensures r.Some? ==> r.value == SumReal(ExpensesByDate(lo, hi), Amount)
    {
      var f := Filter(rows, InRange(lo, hi));
      SortBySum(f, LaterFirst, Amount);
      if f == [] then None else Some(SumReal(f, Amount))
    }

    /** `getTotalCount` */
    function TotalCount(): (n: nat)
      reads this
      ensures n == |AllExpenses()|
    {
      |rows|
    }

    /** `getTotalAmount`: NULL on an empty table. */
    function TotalAmount(): (r: Option<real>)
      reads this
      ensures r.None? <==> AllExpenses() == []
      ensures r.Some? ==> r.value == SumReal(AllExpenses(), Amount)
    {
      SortBySum(rows, LaterFirst, Amount);
      if rows == [] then None else Some(SumReal(rows, Amount))
    }
  }
}
