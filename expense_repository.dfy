/** The repository: the day ranges handed to the store, the statistics and
    grouped listings built on the store's queries, and the report engine. */
module Repository {
  import opened Wrappers
  import opened Seqs
  import opened Sorting
  import opened Grouping
  import opened Text
  import opened ExpenseModel
  import opened Db
  import opened ReportTypes

  // ---------------------------------------------------------------- time zone and day ranges

  /** The device's time zone as two functions: `startOfDay(d)` is the first instant
      (epoch milliseconds) of local day `d`, as `LocalDate.atStartOfDay(zone)` gives
      it, and `dayOf(m)` is the local day of instant `m`, as
      `Instant.atZone(zone).toLocalDate()` gives it. */
  datatype Zone = Zone(startOfDay: int -> int, dayOf: int -> int)

  /** Later days start no earlier, and every instant lies within its own local
      day. A day the zone skips entirely starts where the next one does. */
  ghost predicate Coherent(z: Zone) {
    && (forall d, e :: d < e ==> z.startOfDay(d) <= z.startOfDay(e))
    && (forall m :: z.startOfDay(z.dayOf(m)) <= m < z.startOfDay(z.dayOf(m) + 1))
  }

  /** The instants from the start of day `s` up to the start of day `e + 1` are
      exactly those whose local day lies in `s..e`. */
  lemma InstantInDays(z: Zone, s: int, e: int, m: int)
    requires Coherent(z)
    ensures z.startOfDay(s) <= m < z.startOfDay(e + 1) <==> s <= z.dayOf(m) <= e
  {
    var d := z.dayOf(m);
    assert z.startOfDay(d) <= m < z.startOfDay(d + 1);
    if d + 1 < s { assert z.startOfDay(d + 1) <= z.startOfDay(s); }
    if e + 1 < d { assert z.startOfDay(e + 1) <= z.startOfDay(d); }
    if s < d { assert z.startOfDay(s) <= z.startOfDay(d); }
    if d < e { assert z.startOfDay(d + 1) <= z.startOfDay(e + 1); }
  }

  /** `getDateRange(date)`: the half-open range of instants of local day `d`. */
  function DateRange(z: Zone, d: int): (r: (int, int))
    ensures Coherent(z) ==> forall m :: r.0 <= m < r.1 <==> z.dayOf(m) == d
  {
    assert Coherent(z) ==> forall m :: z.startOfDay(d) <= m < z.startOfDay(d + 1) <==> z.dayOf(m) == d by {
      if Coherent(z) {
        forall m ensures z.startOfDay(d) <= m < z.startOfDay(d + 1) <==> z.dayOf(m) == d {
          InstantInDays(z, d, d, m);
        }
      }
    }
    (z.startOfDay(d), z.startOfDay(d + 1))
  }

  /** `getDateRangeInclusive(start, end)`: the half-open range of instants of the
      local days `start..end`; for a single day it is `getDateRange`. */
  function DateRangeInclusive(z: Zone, start: int, end: int): (r: (int, int))
    ensures Coherent(z) ==> forall m :: r.0 <= m < r.1 <==> start <= z.dayOf(m) <= end
    ensures r == DateRange(z, start) <== start == end
  {
    assert Coherent(z) ==> forall m :: z.startOfDay(start) <= m < z.startOfDay(end + 1) <==> start <= z.dayOf(m) <= end by {
      if Coherent(z) {
        forall m ensures z.startOfDay(start) <= m < z.startOfDay(end + 1) <==> start <= z.dayOf(m) <= end {
          InstantInDays(z, start, end, m);
        }
      }
    }
    (z.startOfDay(start), z.startOfDay(end + 1))
  }

  // ---------------------------------------------------------------- listings and statistics

  /** The records booked on local day `d`. */
  function OfLocalDay(z: Zone, d: int): ExpenseEntity -> bool {
    (e: ExpenseEntity) => z.dayOf(e.date) == d
  }

  /** In a coherent zone, the rows in the instant range of local day `d` are
      the rows of that day, in the same order. */
  lemma DayFilter(rows: seq<ExpenseEntity>, z: Zone, d: int)
    requires Coherent(z)
    ensures Filter(rows, InRange(DateRange(z, d).0, DateRange(z, d).1)) == Filter(rows, OfLocalDay(z, d))
  {
    var r := DateRange(z, d);
    forall i | 0 <= i < |rows| ensures InRange(r.0, r.1)(rows[i]) == OfLocalDay(z, d)(rows[i]) {
      assert r.0 <= rows[i].date < r.1 <==> z.dayOf(rows[i].date) == d;
    }
    FilterAgree(rows, InRange(r.0, r.1), OfLocalDay(z, d));
  }

  /** `getExpensesByDate(date)`: the records of local day `d`, each once, latest first. */
  function ExpensesOn(dao: ExpenseDao, z: Zone, d: int): (r: seq<ExpenseEntity>)
    reads dao
    ensures multiset(r) == multiset(Filter(dao.rows, InRange(DateRange(z, d).0, DateRange(z, d).1)))
    ensures Coherent(z) ==> multiset(r) == multiset(Filter(dao.rows, OfLocalDay(z, d)))
    ensures Coherent(z) ==> forall i :: 0 <= i < |r| ==> z.dayOf(r[i].date) == d && r[i] in dao.rows
    ensures Coherent(z) ==> forall i :: 0 <= i < |dao.rows| && z.dayOf(dao.rows[i].date) == d ==> dao.rows[i] in r
    ensures Coherent(z) ==> forall e :: e in r <==> e in dao.rows && z.dayOf(e.date) == d
    ensures forall i, j :: 0 <= i < j < |r| ==> r[i].date >= r[j].date
  {
    var r := dao.ExpensesByDate(DateRange(z, d).0, DateRange(z, d).1);
    assert Coherent(z) ==> forall e :: e in r <==> e in dao.rows && z.dayOf(e.date) == d by {
      if Coherent(z) { DayMembers(dao.rows, r, z, d); }
    }
    assert Coherent(z) ==> multiset(r) == multiset(Filter(dao.rows, OfLocalDay(z, d))) by {
      if Coherent(z) { DayFilter(dao.rows, z, d); }
    }
    r
  }

  /** A reordering of the rows in the range of local day `d` holds exactly the
      table's rows of that day. */
  lemma DayMembers(rows: seq<ExpenseEntity>, r: seq<ExpenseEntity>, z: Zone, d: int)
    requires Coherent(z)
    requires multiset(r) == multiset(Filter(rows, InRange(DateRange(z, d).0, DateRange(z, d).1)))
    ensures forall e :: e in r <==> e in rows && z.dayOf(e.date) == d
  {
    var range := DateRange(z, d);
    var f := Filter(rows, InRange(range.0, range.1));
    FilterMembers(rows, InRange(range.0, range.1));
    forall e ensures e in r <==> e in rows && z.dayOf(e.date) == d {
      assert e in r <==> e in multiset(r);
      assert e in f <==> e in multiset(f);
      assert InRange(range.0, range.1)(e) <==> z.dayOf(e.date) == d;
    }
  }

  /** `getTotalStats(date)`: the number and the sum of the amounts of the records
      of local day `date`, or of all records; a NULL sum reads as 0.0. */
  function TotalStats(dao: ExpenseDao, z: Zone, date: Option<int>): (r: (int, real))
    reads dao
    ensures date.Some? ==> r.0 == |ExpensesOn(dao, z, date.value)| && r.1 == SumReal(ExpensesOn(dao, z, date.value), Amount)
    ensures date.None? ==> r.0 == |dao.AllExpenses()| && r.1 == SumReal(dao.AllExpenses(), Amount)
    ensures Coherent(z) && date.Some? ==>
              r.0 == |Filter(dao.rows, OfLocalDay(z, date.value))|
              && r.1 == SumReal(Filter(dao.rows, OfLocalDay(z, date.value)), Amount)
    ensures date.None? ==> r.0 == |dao.rows| && r.1 == SumReal(dao.rows, Amount)
  {
    assert Coherent(z) && date.Some? ==>
             |ExpensesOn(dao, z, date.value)| == |Filter(dao.rows, OfLocalDay(z, date.value))|
             && SumReal(ExpensesOn(dao, z, date.value), Amount) == SumReal(Filter(dao.rows, OfLocalDay(z, date.value)), Amount) by {
      if Coherent(z) && date.Some? {
        var l, f := ExpensesOn(dao, z, date.value), Filter(dao.rows, OfLocalDay(z, date.value));
        assert |multiset(l)| == |multiset(f)|;
        PermutationSum(l, f, Amount);
      }
    }
    assert date.None? ==> |dao.AllExpenses()| == |dao.rows| && SumReal(dao.AllExpenses(), Amount) == SumReal(dao.rows, Amount) by {
      if date.None? {
        assert |multiset(dao.AllExpenses())| == |multiset(dao.rows)|;
        PermutationSum(dao.AllExpenses(), dao.rows, Amount);
      }
    }
    match date
    case Some(d) =>
      var range := DateRange(z, d);
      (dao.CountByDate(range.0, range.1), dao.TotalAmountByDate(range.0, range.1).GetOr(0.0))
    case None =>
      (dao.TotalCount(), dao.TotalAmount().GetOr(0.0))
  }

  /** `checkDuplicate`: whether a record at exactly instant `date` has this title and
      category, ignoring ASCII case. */
  function CheckDuplicate(dao: ExpenseDao, date: int, title: string, category: string): (dup: bool)
    reads dao
    ensures dup <==> exists i :: 0 <= i < |dao.rows| && dao.rows[i].date == date
                       && Lower(dao.rows[i].title) == Lower(title)
                       && Lower(dao.rows[i].category) == Lower(category)
  {
    dao.CountDuplicates(date, title, category) > 0
  }

  /** `expenses.groupBy { it.category }`. */
  function GroupByCategory(s: seq<ExpenseEntity>): (gs: seq<Group<string, ExpenseEntity>>)
    ensures DistinctKeys(gs)
    ensures forall i :: 0 <= i < |gs| ==> gs[i].items == Filter(s, KeyIs(Category, gs[i].key)) && gs[i].items != []
    ensures forall j :: 0 <= j < |s| ==> s[j].category in Keys(gs)
    ensures ItemsCount(gs) == |s| && ItemsSum(gs, Amount) == SumReal(s, Amount)
  {
    GroupByCorrect(s, Category);
    GroupByTotals(s, Category, Amount);
    GroupBy(s, Category)
  }

  /** Within a category, later records come first. */
  function LaterFirstInCategory(a: ExpenseEntity, b: ExpenseEntity): bool {
    a.category == b.category ==> a.date >= b.date
  }

  /** `gs` groups `rows` by category: categories strictly ascending, every group
      non-empty, of its own category and latest first. */
  ghost predicate GroupedByCategory(gs: seq<Group<string, ExpenseEntity>>) {
    && (forall i, j :: 0 <= i < j < |gs| ==> StrLess(gs[i].key, gs[j].key))
    && (forall i :: 0 <= i < |gs| ==> gs[i].items != [])
    && (forall i, k :: 0 <= i < |gs| && 0 <= k < |gs[i].items| ==> gs[i].items[k].category == gs[i].key)
    && (forall i, a, b :: 0 <= i < |gs| && 0 <= a < b < |gs[i].items| ==> gs[i].items[a].date >= gs[i].items[b].date)
  }

  /** Grouping rows that arrive ordered by category, then latest first. */
  lemma GroupSortedRows(s: seq<ExpenseEntity>)
    requires forall i, j :: 0 <= i < j < |s| ==>
               !StrLess(s[j].category, s[i].category) && LaterFirstInCategory(s[i], s[j])
    ensures GroupedByCategory(GroupByCategory(s))
  {
    var gs := GroupByCategory(s);
    GroupKeysAscending(s);
    forall i | 0 <= i < |gs|
      ensures forall k :: 0 <= k < |gs[i].items| ==> gs[i].items[k].category == gs[i].key
      ensures forall a, b :: 0 <= a < b < |gs[i].items| ==> gs[i].items[a].date >= gs[i].items[b].date
    {
      GroupItemsOrdered(s, gs[i]);
    }
  }

  /** The first appearances of categories in category-ordered rows are in ascending order. */
  lemma GroupKeysAscending(s: seq<ExpenseEntity>)
    requires forall i, j :: 0 <= i < j < |s| ==> !StrLess(s[j].category, s[i].category)
    ensures forall i, j :: 0 <= i < j < |GroupByCategory(s)| ==> StrLess(GroupByCategory(s)[i].key, GroupByCategory(s)[j].key)
  {
    var gs := GroupByCategory(s);
    var ks := Keys(gs);
    GroupByCorrect(s, Category);
    forall i, j | 0 <= i < j < |gs| ensures StrLess(gs[i].key, gs[j].key) {
      var fi, fj := FirstIndex(s, Category, ks[i]), FirstIndex(s, Category, ks[j]);
      assert fi < fj;
      assert !StrLess(s[fj].category, s[fi].category);
      StrLessTotal(ks[i], ks[j]);
    }
  }

  /** The rows of one category, taken from rows ordered latest first within each category. */
  lemma GroupItemsOrdered(s: seq<ExpenseEntity>, g: Group<string, ExpenseEntity>)
    requires forall i, j :: 0 <= i < j < |s| ==> LaterFirstInCategory(s[i], s[j])
    requires g.items == Filter(s, KeyIs(Category, g.key))
    ensures forall k :: 0 <= k < |g.items| ==> g.items[k].category == g.key
    ensures forall a, b :: 0 <= a < b < |g.items| ==> g.items[a].date >= g.items[b].date
  {
    GroupItemsCategory(s, g);
    assert forall a, b :: 0 <= a < b < |g.items| ==> LaterFirstInCategory(g.items[a], g.items[b]) by {
      FilterPairwise(s, KeyIs(Category, g.key), LaterFirstInCategory);
    }
  }

  lemma GroupItemsCategory(s: seq<ExpenseEntity>, g: Group<string, ExpenseEntity>)
    requires g.items == Filter(s, KeyIs(Category, g.key))
    ensures forall k :: 0 <= k < |g.items| ==> g.items[k].category == g.key
  {
    forall k | 0 <= k < |g.items| ensures g.items[k].category == g.key {
      assert KeyIs(Category, g.key)(g.items[k]);
      assert Category(g.items[k]) == g.key;
    }
  }

  /** `getExpensesByDateGroupedByCategory(date)`: the records of local day `d`, one group per category. */
  function ExpensesOnGroupedByCategory(dao: ExpenseDao, z: Zone, d: int): (gs: seq<Group<string, ExpenseEntity>>)
    reads dao
    ensures GroupedByCategory(gs)
    ensures forall j :: 0 <= j < |ExpensesOn(dao, z, d)| ==> ExpensesOn(dao, z, d)[j].category in Keys(gs)
    ensures forall i, e :: 0 <= i < |gs| ==> (e in gs[i].items <==> e in ExpensesOn(dao, z, d) && e.category == gs[i].key)
    ensures ItemsCount(gs) == |ExpensesOn(dao, z, d)|
    ensures ItemsSum(gs, Amount) == SumReal(ExpensesOn(dao, z, d), Amount)
  {
    var range := DateRange(z, d);
    var s := dao.ExpensesByDateGroupedByCategory(range.0, range.1);
    GroupSortedRows(s);
    SameRows(s, ExpensesOn(dao, z, d));
    GroupMembers(s, ExpensesOn(dao, z, d));
    GroupByCategory(s)
  }

  /** `getAllExpensesGroupedByCategory()`: every record, one group per category. */
  function AllExpensesGroupedByCategory(dao: ExpenseDao): (gs: seq<Group<string, ExpenseEntity>>)
    reads dao
    ensures GroupedByCategory(gs)
    ensures forall j :: 0 <= j < |dao.AllExpenses()| ==> dao.AllExpenses()[j].category in Keys(gs)
    ensures forall i, e :: 0 <= i < |gs| ==> (e in gs[i].items <==> e in dao.AllExpenses() && e.category == gs[i].key)
    ensures ItemsCount(gs) == |dao.AllExpenses()|
    ensures ItemsSum(gs, Amount) == SumReal(dao.AllExpenses(), Amount)
  {
    var s := dao.AllExpensesGroupedByCategory();
    GroupSortedRows(s);
    SameRows(s, dao.AllExpenses());
    GroupMembers(s, dao.AllExpenses());
    GroupByCategory(s)
  }

  /** Grouping `s` by category puts into each group exactly the rows of `t`, a
      reordering of `s`, that have the group's category. */
  lemma GroupMembers(s: seq<ExpenseEntity>, t: seq<ExpenseEntity>)
    requires multiset(s) == multiset(t)
    ensures var gs := GroupByCategory(s);
            forall i, e :: 0 <= i < |gs| ==> (e in gs[i].items <==> e in t && e.category == gs[i].key)
  {
    var gs := GroupByCategory(s);
    forall i, e | 0 <= i < |gs| ensures e in gs[i].items <==> e in t && e.category == gs[i].key {
      FilterMembers(s, KeyIs(Category, gs[i].key));
      assert e in s <==> e in multiset(s);
      assert e in t <==> e in multiset(t);
    }
  }

  /** Two orderings of the same rows have the same size, sum and categories. */
  lemma SameRows(s: seq<ExpenseEntity>, t: seq<ExpenseEntity>)
    requires multiset(s) == multiset(t)
    ensures |s| == |t| && SumReal(s, Amount) == SumReal(t, Amount)
    ensures forall j :: 0 <= j < |t| ==> t[j] in s
  {
    PermutationSum(s, t, Amount);
    forall j | 0 <= j < |t| ensures t[j] in s {
      assert t[j] in multiset(s);
    }
  }
}
