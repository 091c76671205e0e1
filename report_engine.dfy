/** The report engine of the repository: `generateReport` and its live twin
    `buildReportFromExpenses`, specified by one function `ReportOf` of the
    records of the window, with the report's invariants proved about it. */
module ReportEngine {
  import opened Seqs
  import opened Sorting
  import opened Grouping
  import opened Text
  import opened ExpenseModel
  import opened Db
  import opened ReportTypes
  import opened Repository

  // ---------------------------------------------------------------- daily totals

  /** The local day of a record, `Instant.ofEpochMilli(e.date).atZone(zone).toLocalDate()`. */
  function DayKey(z: Zone): ExpenseEntity -> int {
    (e: ExpenseEntity) => z.dayOf(e.date)
  }

  /** The records of local day `d`, in input order. */
  function OnDay(rs: seq<ExpenseEntity>, z: Zone, d: int): seq<ExpenseEntity> {
    Filter(rs, KeyIs(DayKey(z), d))
  }

  /** The records whose local day lies in `lo..hi`. */
  function DayIn(z: Zone, lo: int, hi: int): ExpenseEntity -> bool {
    (e: ExpenseEntity) => lo <= z.dayOf(e.date) <= hi
  }

  /** The `DailyTotal` of day `d`. */
  function DailyTotalOf(rs: seq<ExpenseEntity>, z: Zone, d: int): DailyTotal {
    DailyTotal(d, SumReal(OnDay(rs, z, d), Amount), |OnDay(rs, z, d)|)
  }

  /** One `DailyTotal` per day of `start..end`, oldest first; none when `end < start`. */
  function DailySeries(rs: seq<ExpenseEntity>, z: Zone, start: int, end: int): seq<DailyTotal>
    decreases end - start + 1
  {
    if end < start then [] else DailySeries(rs, z, start, end - 1) + [DailyTotalOf(rs, z, end)]
  }

  /** The series has one entry per day of the window, the days consecutive from
      `start`, each holding the sum and the number of the records of its day. */
  lemma {:induction false} DailySeriesShape(rs: seq<ExpenseEntity>, z: Zone, start: int, end: int)
    ensures |DailySeries(rs, z, start, end)| == if end < start then 0 else end - start + 1
    ensures forall i :: 0 <= i < |DailySeries(rs, z, start, end)| ==>
              && DailySeries(rs, z, start, end)[i].date == start + i
              && DailySeries(rs, z, start, end)[i].totalAmount == SumReal(OnDay(rs, z, start + i), Amount)
              && DailySeries(rs, z, start, end)[i].expenseCount == |OnDay(rs, z, start + i)|
    decreases end - start + 1
  {
    if start <= end {
      DailySeriesShape(rs, z, start, end - 1);
    }
  }

  /** A day without records reports amount 0 and count 0. */
  lemma {:induction false} EmptyDay(rs: seq<ExpenseEntity>, z: Zone, d: int)
    requires forall j :: 0 <= j < |rs| ==> z.dayOf(rs[j].date) != d
    ensures DailyTotalOf(rs, z, d).totalAmount == 0.0
    ensures DailyTotalOf(rs, z, d).expenseCount == 0
  {
    FilterDropsAll(rs, KeyIs(DayKey(z), d));
  }

  /** The daily amounts and counts add up to the total and number of the records
      whose day lies in the window. */
  lemma {:induction false} DailySeriesSums(rs: seq<ExpenseEntity>, z: Zone, start: int, end: int)
    ensures SumReal(DailySeries(rs, z, start, end), DailyAmount) == SumReal(Filter(rs, DayIn(z, start, end)), Amount)
    ensures SumInt(DailySeries(rs, z, start, end), DailyCount) == |Filter(rs, DayIn(z, start, end))|
    decreases end - start + 1
  {
    if end < start {
      FilterDropsAll(rs, DayIn(z, start, end));
    } else {
      DailySeriesSums(rs, z, start, end - 1);
      var s, t := DailySeries(rs, z, start, end - 1), DailyTotalOf(rs, z, end);
      SumRealAppend(s, [t], DailyAmount);
      SumIntAppend(s, [t], DailyCount);
      assert SumReal([t], DailyAmount) == t.totalAmount;
      assert SumInt([t], DailyCount) == t.expenseCount;
      FilterSplit(rs, DayIn(z, start, end), DayIn(z, start, end - 1), KeyIs(DayKey(z), end), Amount);
    }
  }

  /** When every record falls inside the window, the daily amounts add up to the
      grand total and the daily counts to the number of records. */
  lemma DailySumsMatchTotal(rs: seq<ExpenseEntity>, z: Zone, start: int, end: int)
    requires forall j :: 0 <= j < |rs| ==> start <= z.dayOf(rs[j].date) <= end
    ensures SumReal(DailySeries(rs, z, start, end), DailyAmount) == SumReal(rs, Amount)
    ensures SumInt(DailySeries(rs, z, start, end), DailyCount) == |rs|
  {
    DailySeriesSums(rs, z, start, end);
    FilterKeepsAll(rs, DayIn(z, start, end));
  }

  // ---------------------------------------------------------------- category totals

  /** The `CategoryTotal` of one group, its share taken of `total`. */
  function CategoryTotalOf(g: Group<string, ExpenseEntity>, total: real): CategoryTotal {
    var amt := SumReal(g.items, Amount);
    CategoryTotal(g.key, amt, |g.items|, if total > 0.0 then amt / total * 100.0 else 0.0)
  }

  /** `categoryGroups.map { (cat, list) -> ... }`. */
  function CategoryTotalsOf(gs: seq<Group<string, ExpenseEntity>>, total: real): (cs: seq<CategoryTotal>)
    ensures |cs| == |gs|
    ensures forall i :: 0 <= i < |gs| ==> cs[i] == CategoryTotalOf(gs[i], total)
  {
    if gs == [] then [] else [CategoryTotalOf(gs[0], total)] + CategoryTotalsOf(gs[1..], total)
  }

  /** `sortedByDescending { it.totalAmount }`: a larger amount comes first. */
  function MoreAmount(a: CategoryTotal, b: CategoryTotal): bool {
    a.totalAmount > b.totalAmount
  }

  lemma MoreAmountOrder()
    ensures StrictWeakOrder(MoreAmount)
  {
  }

  /** The category totals of a report over records `rs`. */
  function CategoryTotals(rs: seq<ExpenseEntity>): seq<CategoryTotal> {
    SortBy(CategoryTotalsOf(GroupByCategory(rs), SumReal(rs, Amount)), MoreAmount)
  }

  function CategoryOf(c: CategoryTotal): string { c.category }

  /** Totals over the mapped groups are the totals over the groups' members, and
      the shares add up to the members' share of `total`. */
  lemma {:induction false} CategoryTotalsOfSums(gs: seq<Group<string, ExpenseEntity>>, total: real)
    ensures SumInt(CategoryTotalsOf(gs, total), CategoryCount) == ItemsCount(gs)
    ensures SumReal(CategoryTotalsOf(gs, total), CategoryAmount) == ItemsSum(gs, Amount)
    ensures total > 0.0 ==> SumReal(CategoryTotalsOf(gs, total), Percentage) == ItemsSum(gs, Amount) / total * 100.0
  {
    if gs != [] {
      var cs := CategoryTotalsOf(gs, total);
      CategoryTotalsOfSums(gs[1..], total);
      assert cs[1..] == CategoryTotalsOf(gs[1..], total);
      if total > 0.0 {
        var a, rest := SumReal(gs[0].items, Amount), ItemsSum(gs[1..], Amount);
        assert (a + rest) / total == a / total + rest / total;
      }
    }
  }

  /** `c` summarises exactly the records of its category among `rs`: their number,
      at least one, their total, and their share of the total of `rs` as a
      percentage (0 when that total is not positive). */
  ghost predicate Summarises(rs: seq<ExpenseEntity>, c: CategoryTotal) {
    var mine := Filter(rs, KeyIs(Category, c.category));
    && c.expenseCount == |mine| > 0
    && c.totalAmount == SumReal(mine, Amount)
    && c.percentage == if SumReal(rs, Amount) > 0.0 then c.totalAmount / SumReal(rs, Amount) * 100.0 else 0.0
  }

  lemma GroupEntry(rs: seq<ExpenseEntity>, k: int)
    requires 0 <= k < |GroupByCategory(rs)|
    ensures Summarises(rs, CategoryTotalOf(GroupByCategory(rs)[k], SumReal(rs, Amount)))
  {
    var g := GroupByCategory(rs)[k];
    assert g.items == Filter(rs, KeyIs(Category, g.key)) && g.items != [];
    EntryOf(rs, g);
  }

  lemma EntryOf(rs: seq<ExpenseEntity>, g: Group<string, ExpenseEntity>)
    requires g.items == Filter(rs, KeyIs(Category, g.key)) && g.items != []
    ensures Summarises(rs, CategoryTotalOf(g, SumReal(rs, Amount)))
  {
    var total := SumReal(rs, Amount);
    var amt := SumReal(g.items, Amount);
    var c := CategoryTotalOf(g, total);
    assert c == CategoryTotal(g.key, amt, |g.items|, if total > 0.0 then amt / total * 100.0 else 0.0);
  }

  /** Each entry of the report's category totals summarises its category. */
  lemma CategoryTotalsSummarise(rs: seq<ExpenseEntity>)
    ensures forall i :: 0 <= i < |CategoryTotals(rs)| ==> Summarises(rs, CategoryTotals(rs)[i])
  {
    var gs := GroupByCategory(rs);
    var us := CategoryTotalsOf(gs, SumReal(rs, Amount));
    var cs := CategoryTotals(rs);
    forall i | 0 <= i < |cs| ensures Summarises(rs, cs[i]) {
      assert cs[i] in multiset(us);
      var k :| 0 <= k < |us| && us[k] == cs[i];
      GroupEntry(rs, k);
    }
  }

  /** One entry per category of the records, no category twice, and the entries
      add up to the number and the total of the records. */
  lemma CategoryTotalsPartition(rs: seq<ExpenseEntity>)
    ensures DistinctBy(CategoryTotals(rs), CategoryOf)
    ensures forall j :: 0 <= j < |rs| ==> exists i :: 0 <= i < |CategoryTotals(rs)| && CategoryTotals(rs)[i].category == rs[j].category
    ensures SumInt(CategoryTotals(rs), CategoryCount) == |rs|
    ensures SumReal(CategoryTotals(rs), CategoryAmount) == SumReal(rs, Amount)
  {
    var gs := GroupByCategory(rs);
    var us := CategoryTotalsOf(gs, SumReal(rs, Amount));
    var cs := CategoryTotals(rs);
    CategoryTotalsOfSums(gs, SumReal(rs, Amount));
    SortBySumInt(us, MoreAmount, CategoryCount);
    SortBySum(us, MoreAmount, CategoryAmount);
    SortByDistinct(us, MoreAmount, CategoryOf);
    forall j | 0 <= j < |rs|
      ensures exists i :: 0 <= i < |cs| && cs[i].category == rs[j].category
    {
      var k :| 0 <= k < |gs| && gs[k].key == rs[j].category;
      assert us[k] in multiset(cs);
      var i :| 0 <= i < |cs| && cs[i] == us[k];
    }
  }

  lemma WholeShare(t: real)
    requires t > 0.0
    ensures t / t * 100.0 == 100.0
  {
  }

  /** With a positive total, the percentages add up to 100. */
  lemma PercentagesSumTo100(rs: seq<ExpenseEntity>)
    requires SumReal(rs, Amount) > 0.0
    ensures SumReal(CategoryTotals(rs), Percentage) == 100.0
  {
    var gs := GroupByCategory(rs);
    var us := CategoryTotalsOf(gs, SumReal(rs, Amount));
    var total := SumReal(rs, Amount);
    CategoryTotalsOfSums(gs, total);
    SortBySum(us, MoreAmount, Percentage);
    WholeShare(total);
  }

  /** Entries come in non-increasing amount; entries with equal amounts keep the
      order in which their categories first appear among the records. */
  lemma CategoryTotalsOrder(rs: seq<ExpenseEntity>)
    ensures forall i, j :: 0 <= i < j < |CategoryTotals(rs)| ==>
              CategoryTotals(rs)[i].totalAmount >= CategoryTotals(rs)[j].totalAmount
    ensures forall i, j :: 0 <= i < j < |CategoryTotals(rs)| && CategoryTotals(rs)[i].totalAmount == CategoryTotals(rs)[j].totalAmount
              ==> FirstIndex(rs, Category, CategoryTotals(rs)[i].category) < FirstIndex(rs, Category, CategoryTotals(rs)[j].category)
  {
    var us := CategoryTotalsOf(GroupByCategory(rs), SumReal(rs, Amount));
    MoreAmountOrder();
    SortBySorted(us, MoreAmount);
    CategoryTiesOrdered(rs);
  }

  lemma CategoryTiesOrdered(rs: seq<ExpenseEntity>)
    ensures forall i, j :: 0 <= i < j < |CategoryTotals(rs)| && CategoryTotals(rs)[i].totalAmount == CategoryTotals(rs)[j].totalAmount
              ==> FirstIndex(rs, Category, CategoryTotals(rs)[i].category) < FirstIndex(rs, Category, CategoryTotals(rs)[j].category)
  {
    var us := CategoryTotalsOf(GroupByCategory(rs), SumReal(rs, Amount));
    var cs := CategoryTotals(rs);
    var rank := (c: CategoryTotal) => FirstIndex(rs, Category, c.category);
    CategoryRanks(rs, us, rank);
    SortByTiesRanked(us, MoreAmount, rank);
    forall i, j | 0 <= i < j < |cs| && cs[i].totalAmount == cs[j].totalAmount
      ensures FirstIndex(rs, Category, cs[i].category) < FirstIndex(rs, Category, cs[j].category)
    {
      assert !MoreAmount(cs[i], cs[j]) && !MoreAmount(cs[j], cs[i]);
      assert rank(cs[i]) < rank(cs[j]);
    }
  }

  /** Before sorting, the entries follow the first appearances of their categories. */
  lemma CategoryRanks(rs: seq<ExpenseEntity>, us: seq<CategoryTotal>, rank: CategoryTotal -> int)
    requires us == CategoryTotalsOf(GroupByCategory(rs), SumReal(rs, Amount))
    requires forall c :: rank(c) == FirstIndex(rs, Category, c.category)
    ensures forall i, j :: 0 <= i < j < |us| ==> rank(us[i]) < rank(us[j])
  {
    var gs := GroupByCategory(rs);
    GroupByCorrect(rs, Category);
    forall i, j | 0 <= i < j < |us| ensures rank(us[i]) < rank(us[j]) {
      assert Keys(gs)[i] == us[i].category && Keys(gs)[j] == us[j].category;
    }
  }

  // ---------------------------------------------------------------- the report

  /** `"Last $days days ($startDate to $endDate)"`. */
  function PeriodLabel(fmt: Formats, days: int, start: int, end: int): string {
    "Last " + IntToString(days) + " days (" + fmt.date(start) + " to " + fmt.date(end) + ")"
  }

  /** The report over records `rs` for the window `start..end`, built at instant `now`. */
  function ReportOf(rs: seq<ExpenseEntity>, z: Zone, fmt: Formats, start: int, end: int, days: int, now: int): ReportData {
    ReportData(DailySeries(rs, z, start, end), CategoryTotals(rs), SumReal(rs, Amount), |rs|,
               PeriodLabel(fmt, days, start, end), now)
  }

  /** `endDate.minusDays(days - 1)`. */
  function WindowStart(today: int, days: int): int {
    today - (days - 1)
  }

  /** The records booked on one of the local days `start..end`. */
  function InWindow(z: Zone, start: int, end: int): ExpenseEntity -> bool {
    (e: ExpenseEntity) => start <= z.dayOf(e.date) <= end
  }

  /** In a coherent zone, filtering by the instant range of the days
      `start..end` is filtering by those local days. */
  lemma WindowFilter(rows: seq<ExpenseEntity>, z: Zone, start: int, end: int)
    requires Coherent(z)
    ensures Filter(rows, InRange(DateRangeInclusive(z, start, end).0, DateRangeInclusive(z, start, end).1))
            == Filter(rows, InWindow(z, start, end))
  {
    var r := DateRangeInclusive(z, start, end);
    forall i | 0 <= i < |rows| ensures InRange(r.0, r.1)(rows[i]) == InWindow(z, start, end)(rows[i]) {
      assert r.0 <= rows[i].date < r.1 <==> start <= z.dayOf(rows[i].date) <= end;
    }
    FilterAgree(rows, InRange(r.0, r.1), InWindow(z, start, end));
  }

  /** The store's records of the local days `start..end`, each as often as in
      the table, latest first. */
  function RecordsInWindow(dao: ExpenseDao, z: Zone, start: int, end: int): (r: seq<ExpenseEntity>)
    reads dao
    ensures Coherent(z) ==> multiset(r) == multiset(Filter(dao.rows, InWindow(z, start, end)))
    ensures Coherent(z) ==> forall i :: 0 <= i < |r| ==> start <= z.dayOf(r[i].date) <= end && r[i] in dao.rows
    ensures Coherent(z) ==> forall i :: 0 <= i < |dao.rows| && start <= z.dayOf(dao.rows[i].date) <= end ==> dao.rows[i] in r
    ensures forall i, j :: 0 <= i < j < |r| ==> r[i].date >= r[j].date
  {
    var range := DateRangeInclusive(z, start, end);
    assert Coherent(z) ==> multiset(dao.ExpensesByDate(range.0, range.1)) == multiset(Filter(dao.rows, InWindow(z, start, end))) by {
      if Coherent(z) { WindowFilter(dao.rows, z, start, end); }
    }
    dao.ExpensesByDate(range.0, range.1)
  }

  /** The report of the last `days` days: for `days >= 1` exactly `days` daily
      entries running from `today - (days - 1)` to `today`, whose amounts and counts
      add up to the report's total and number of records, which are those of
      the table's records booked in the window. */
  lemma ReportWindow(dao: ExpenseDao, z: Zone, fmt: Formats, today: int, days: int, now: int)
    requires Coherent(z)
    ensures var start := WindowStart(today, days);
            var r := ReportOf(RecordsInWindow(dao, z, start, today), z, fmt, start, today, days, now);
            && (days >= 1 ==> |r.dailyTotals| == days && r.dailyTotals[0].date == start && r.dailyTotals[days - 1].date == today)
            && (days < 1 ==> r.dailyTotals == [])
            && SumReal(r.dailyTotals, DailyAmount) == r.totalAmount
            && SumInt(r.dailyTotals, DailyCount) == r.totalExpenses
            && r.totalAmount == SumReal(Filter(dao.rows, InWindow(z, start, today)), Amount)
            && r.totalExpenses == |Filter(dao.rows, InWindow(z, start, today))|
  {
    var start := WindowStart(today, days);
    var rs := RecordsInWindow(dao, z, start, today);
    DailySeriesShape(rs, z, start, today);
    DailySumsMatchTotal(rs, z, start, today);
    var f := Filter(dao.rows, InWindow(z, start, today));
    assert |multiset(rs)| == |multiset(f)|;
    PermutationSum(rs, f, Amount);
  }

  /** `m` maps each local day with records among `rs` to those records, in order,
      and has no other keys. */
  ghost predicate Buckets(m: map<int, seq<ExpenseEntity>>, rs: seq<ExpenseEntity>, z: Zone) {
    && (forall d :: d in m ==> m[d] == OnDay(rs, z, d))
    && (forall d :: d !in m ==> OnDay(rs, z, d) == [])
  }

  /** `dailyMap.getOrPut(localDate) { mutableListOf() }.add(e)` keeps the buckets. */
  lemma BucketsAdd(m: map<int, seq<ExpenseEntity>>, rs: seq<ExpenseEntity>, z: Zone, e: ExpenseEntity)
    requires Buckets(m, rs, z)
    ensures Buckets(m[z.dayOf(e.date) := (if z.dayOf(e.date) in m then m[z.dayOf(e.date)] else []) + [e]], rs + [e], z)
  {
    forall d ensures OnDay(rs + [e], z, d) == OnDay(rs, z, d) + (if z.dayOf(e.date) == d then [e] else []) {
      FilterLast(rs, e, DayKey(z), d);
    }
  }

  /** The series grows by the day after its last. */
  lemma DailySeriesNext(rs: seq<ExpenseEntity>, z: Zone, start: int, current: int, list: seq<ExpenseEntity>)
    requires start <= current
    requires list == OnDay(rs, z, current)
    ensures DailySeries(rs, z, start, current) ==
            DailySeries(rs, z, start, current - 1) + [DailyTotal(current, SumReal(list, Amount), |list|)]
  {
  }

  /** The `forEach` of `generateReport` that fills `dailyMap` with
      `getOrPut(localDate) { mutableListOf() }.add(e)`: afterwards every local day
      maps to its records, in input order. */
  method BucketByDay(expensesInRange: seq<ExpenseEntity>, z: Zone) returns (dailyMap: map<int, seq<ExpenseEntity>>)
    ensures Buckets(dailyMap, expensesInRange, z)
  {
    dailyMap := map[];
    var i := 0;
    while i < |expensesInRange|
      invariant 0 <= i <= |expensesInRange|
      invariant Buckets(dailyMap, expensesInRange[..i], z)
    {
      var e := expensesInRange[i];
      var localDate := z.dayOf(e.date);
      BucketsAdd(dailyMap, expensesInRange[..i], z, e);
      var list := if localDate in dailyMap then dailyMap[localDate] else [];
      dailyMap := dailyMap[localDate := list + [e]];
      assert expensesInRange[..i + 1] == expensesInRange[..i] + [e];
      i := i + 1;
    }
    assert expensesInRange[..i] == expensesInRange;
  }

  /** `generateReport(days)`: loads the window's records once, buckets them by
      local day in a map, walks the window a day at a time, then totals the
      categories. */
  method GenerateReport(dao: ExpenseDao, z: Zone, fmt: Formats, today: int, days: int, now: int) returns (r: ReportData)
    ensures r == ReportOf(RecordsInWindow(dao, z, WindowStart(today, days), today), z, fmt,
                          WindowStart(today, days), today, days, now)
  {
    var endDate := today;
    var startDate := WindowStart(today, days);
    var expensesInRange := RecordsInWindow(dao, z, startDate, endDate);

    var dailyMap := BucketByDay(expensesInRange, z);

    var dailyTotals: seq<DailyTotal> := [];
    var current := startDate;
    while current <= endDate
      invariant startDate <= current
      invariant current <= endDate + 1 || current == startDate
      invariant dailyTotals == DailySeries(expensesInRange, z, startDate, current - 1)
    {
      var list := if current in dailyMap then dailyMap[current] else [];
      DailySeriesNext(expensesInRange, z, startDate, current, list);
      dailyTotals := dailyTotals + [DailyTotal(current, SumReal(list, Amount), |list|)];
      current := current + 1;
    }

    var totalAmount := SumReal(expensesInRange, Amount);
    var categoryTotals := SortBy(CategoryTotalsOf(GroupByCategory(expensesInRange), totalAmount), MoreAmount);
    r := ReportData(dailyTotals, categoryTotals, totalAmount, |expensesInRange|,
                    PeriodLabel(fmt, days, startDate, endDate), now);
  }

  /** `buildReportFromExpenses`: the same report from a list of records, the days
      bucketed with `groupBy`. */
  method BuildReportFromExpenses(expensesInRange: seq<ExpenseEntity>, z: Zone, fmt: Formats,
                                 startDate: int, endDate: int, days: int, now: int) returns (r: ReportData)
    ensures r == ReportOf(expensesInRange, z, fmt, startDate, endDate, days, now)
  {
    var dailyMap := GroupBy(expensesInRange, DayKey(z));
    var dailyTotals: seq<DailyTotal> := [];
    var current := startDate;
    while current <= endDate
      invariant startDate <= current
      invariant current <= endDate + 1 || current == startDate
      invariant dailyTotals == DailySeries(expensesInRange, z, startDate, current - 1)
    {
      var list := Lookup(dailyMap, current);
      LookupGroupBy(expensesInRange, DayKey(z), current);
      DailySeriesNext(expensesInRange, z, startDate, current, list);
      dailyTotals := dailyTotals + [DailyTotal(current, SumReal(list, Amount), |list|)];
      current := current + 1;
    }

    var totalAmount := SumReal(expensesInRange, Amount);
    var categoryTotals := SortBy(CategoryTotalsOf(GroupByCategory(expensesInRange), totalAmount), MoreAmount);
    r := ReportData(dailyTotals, categoryTotals, totalAmount, |expensesInRange|,
                    PeriodLabel(fmt, days, startDate, endDate), now);
  }

  /** `reportFlow(days)` at one emission of the store: the report of the window's
      records as they stand, the same report `generateReport` builds. */
  method ReportFlow(dao: ExpenseDao, z: Zone, fmt: Formats, today: int, days: int, now: int) returns (r: ReportData)
    ensures r == ReportOf(RecordsInWindow(dao, z, WindowStart(today, days), today), z, fmt,
                          WindowStart(today, days), today, days, now)
  {
    var endDate := today;
    var startDate := WindowStart(today, days);
    var expensesInRange := RecordsInWindow(dao, z, startDate, endDate);
    r := BuildReportFromExpenses(expensesInRange, z, fmt, startDate, endDate, days, now);
  }
}
