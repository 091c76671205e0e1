/** The expense-list screen's view-model: a filter (today, a chosen day, all
    time), a grouping, and the list and totals the loads it launches emit.
    A launched load keeps emitting for as long as the screen lives: loads are
    never cancelled, so an older one can overwrite what a newer one showed. */
module ExpenseList {
  import opened Wrappers
  import opened Seqs
  import opened Grouping
  import opened ExpenseModel
  import opened Db
  import opened Repository

  datatype GroupBy = NONE | CATEGORY | TIME
  datatype FilterType = TODAY | CUSTOM_DATE | ALL_TIME

  /** The screen's state; `selectedDate` is a local day. */
  datatype ExpenseListUiState = ExpenseListUiState(
    expenses: seq<ExpenseEntity>,
    groupedExpenses: seq<Group<string, ExpenseEntity>>,
    isLoading: bool,
    error: Option<string>,
    selectedDate: int,
    groupBy: GroupBy,
    filterType: FilterType,
    totalCount: int,
    totalAmount: real,
    showDatePicker: bool)

  /** The state a screen starts with on local day `today`. */
  function InitialListUiState(today: int): ExpenseListUiState {
    ExpenseListUiState([], [], false, None, today, NONE, TODAY, 0, 0.0, false)
  }

  datatype ExpenseListAction =
    | LoadTodayExpenses
    | LoadExpensesByDate(date: int)
    | LoadAllExpenses
    | ToggleGroupBy(groupBy: GroupBy)
    | FilterChanged(filterType: FilterType)
    | DateSelected(date: int)
    | ShowDatePicker
    | HideDatePicker
    | Refresh

  /** What a load asks for: the records of the day that was today at launch
      (whose totals follow the clock at each emission), of a chosen day, or
      all of them. */
  datatype ListQuery = Today(day: int) | OnDay(day: int) | AllTime

  /** A launched load: its query and whether it groups by category, as the
      grouping read when it was launched. */
  datatype LoadJob = LoadJob(query: ListQuery, grouped: bool)

  /** The day whose records a query lists; none for all time. */
  function ListedDay(q: ListQuery): Option<int> {
    match q
    case Today(d) => Some(d)
    case OnDay(d) => Some(d)
    case AllTime => None
  }

  /** The day whose totals an emission of `q` shows when the clock reads `today`. */
  function StatsDay(q: ListQuery, today: int): (r: Option<int>)
    ensures r == ListedDay(q) <== (q.Today? ==> q.day == today)
    ensures q.AllTime? <==> r.None?
  {
    match q
    case Today(_) => Some(today)
    case OnDay(d) => Some(d)
    case AllTime => None
  }

  /** The rows an ungrouped emission of `q` lists, latest first. */
  function Listed(dao: ExpenseDao, z: Zone, q: ListQuery): (r: seq<ExpenseEntity>)
    reads dao
    ensures forall i, j :: 0 <= i < j < |r| ==> r[i].date >= r[j].date
    ensures Coherent(z) && ListedDay(q).Some? ==>
              forall e :: e in r <==> e in dao.rows && z.dayOf(e.date) == ListedDay(q).value
    ensures Coherent(z) && ListedDay(q).Some? ==>
              multiset(r) == multiset(Filter(dao.rows, OfLocalDay(z, ListedDay(q).value)))
    ensures q.AllTime? ==> multiset(r) == multiset(dao.rows)
    ensures q.AllTime? ==> forall e :: e in r <==> e in dao.rows
  {
    assert q.AllTime? ==> forall e :: e in dao.AllExpenses() <==> e in dao.rows by {
      forall e ensures e in dao.AllExpenses() <==> e in dao.rows {
        assert e in dao.AllExpenses() <==> e in multiset(dao.AllExpenses());
        assert e in dao.rows <==> e in multiset(dao.rows);
      }
    }
    match ListedDay(q)
    case Some(d) => ExpensesOn(dao, z, d)
    case None => dao.AllExpenses()
  }

  /** The groups a grouped emission of `q` shows: the same rows as `Listed`,
      one group per category. */
  function ListedGroups(dao: ExpenseDao, z: Zone, q: ListQuery): (gs: seq<Group<string, ExpenseEntity>>)
    reads dao
    ensures GroupedByCategory(gs)
    ensures forall j :: 0 <= j < |Listed(dao, z, q)| ==> Listed(dao, z, q)[j].category in Keys(gs)
    ensures forall i, e :: 0 <= i < |gs| ==> (e in gs[i].items <==> e in Listed(dao, z, q) && e.category == gs[i].key)
    ensures ItemsCount(gs) == |Listed(dao, z, q)|
    ensures ItemsSum(gs, Amount) == SumReal(Listed(dao, z, q), Amount)
  {
    match ListedDay(q)
    case Some(d) => ExpensesOnGroupedByCategory(dao, z, d)
    case None => AllExpensesGroupedByCategory(dao)
  }

  /** The state right after a load of `q` is launched from state `s`. */
  function LoadingState(s: ExpenseListUiState, q: ListQuery): (r: ExpenseListUiState)
    ensures r.isLoading && r.error == None
    ensures Shows(r, q)
    ensures r.expenses == s.expenses && r.groupedExpenses == s.groupedExpenses && r.groupBy == s.groupBy
    ensures r.totalCount == s.totalCount && r.totalAmount == s.totalAmount && r.showDatePicker == s.showDatePicker
    ensures q.AllTime? ==> r.selectedDate == s.selectedDate
  {
    match q
    case Today(d) => s.(isLoading := true, error := None, filterType := TODAY, selectedDate := d)
    case OnDay(d) => s.(isLoading := true, error := None, selectedDate := d, filterType := CUSTOM_DATE)
    case AllTime => s.(isLoading := true, error := None, filterType := ALL_TIME)
  }

  /** The filter and the date of state `s` describe query `q`. */
  predicate Shows(s: ExpenseListUiState, q: ListQuery) {
    match q
    case Today(d) => s.filterType == TODAY && s.selectedDate == d
    case OnDay(d) => s.filterType == CUSTOM_DATE && s.selectedDate == d
    case AllTime => s.filterType == ALL_TIME
  }

  /** The query `refresh()` launches from state `s` when the clock reads `today`. */
  function RefreshQuery(s: ExpenseListUiState, today: int): ListQuery {
    match s.filterType
    case TODAY => Today(today)
    case CUSTOM_DATE => OnDay(s.selectedDate)
    case ALL_TIME => AllTime
  }

  /** A refresh keeps the filter, and the chosen day of a custom-date filter;
      of a state showing a query other than today's, it reloads that very query. */
  lemma RefreshKeepsFilter(s: ExpenseListUiState, q: ListQuery, today: int)
    ensures LoadingState(s, RefreshQuery(s, today)).filterType == s.filterType
    ensures s.filterType != TODAY ==> LoadingState(s, RefreshQuery(s, today)).selectedDate == s.selectedDate
    ensures Shows(s, q) && !q.Today? ==> RefreshQuery(s, today) == q
  {
  }

  /** The state after an emission of load `job` reaches state `s`, with the
      table as it now is and `today` the local day the clock reads: loading
      ends, at most one of the lists is filled, and the filter, the date, the
      grouping, the error and the picker are left alone. */
  function Emission(s: ExpenseListUiState, dao: ExpenseDao, z: Zone, job: LoadJob, today: int): (r: ExpenseListUiState)
    reads dao
    ensures !r.isLoading
    ensures r.error == s.error && r.selectedDate == s.selectedDate && r.groupBy == s.groupBy
            && r.filterType == s.filterType && r.showDatePicker == s.showDatePicker
    ensures r.expenses == [] || r.groupedExpenses == []
    ensures GroupedByCategory(r.groupedExpenses)
  {
    var stats := TotalStats(dao, z, StatsDay(job.query, today));
    if job.grouped then
      s.(groupedExpenses := ListedGroups(dao, z, job.query), expenses := [],
         totalCount := stats.0, totalAmount := stats.1, isLoading := false)
    else
      s.(expenses := Listed(dao, z, job.query), groupedExpenses := [],
         totalCount := stats.0, totalAmount := stats.1, isLoading := false)
  }

  /** What an emission shows: a grouped load the groups of its rows, any
      other load the rows themselves; the totals are those of the stats day. */
  lemma EmissionContents(s: ExpenseListUiState, dao: ExpenseDao, z: Zone, job: LoadJob, today: int)
    ensures var r := Emission(s, dao, z, job, today);
            && (job.grouped ==> r.expenses == [] && r.groupedExpenses == ListedGroups(dao, z, job.query))
            && (!job.grouped ==> r.groupedExpenses == [] && r.expenses == Listed(dao, z, job.query))
            && (r.totalCount, r.totalAmount) == TotalStats(dao, z, StatsDay(job.query, today))
  {
  }

  /** When the stats day is the listed day (always, but for a today load
      emitting after midnight), the totals shown are the number and the sum
      of the rows shown, grouped or not. */
  lemma EmissionTotalsAgree(s: ExpenseListUiState, dao: ExpenseDao, z: Zone, job: LoadJob, today: int)
    requires StatsDay(job.query, today) == ListedDay(job.query)
    ensures var r := Emission(s, dao, z, job, today);
            && r.totalCount == |r.expenses| + ItemsCount(r.groupedExpenses)
            && r.totalAmount == SumReal(r.expenses, Amount) + ItemsSum(r.groupedExpenses, Amount)
  {
    var rows := Listed(dao, z, job.query);
    var stats := TotalStats(dao, z, StatsDay(job.query, today));
    assert stats == (|rows|, SumReal(rows, Amount));
    EmissionContents(s, dao, z, job, today);
    if job.grouped {
      assert ItemsCount(ListedGroups(dao, z, job.query)) == |rows|;
    }
  }

  /** Loading clears the error; at most one of the flat and the grouped list
      is filled, the grouped one grouped by category. */
  ghost predicate ConsistentState(s: ExpenseListUiState) {
    && (s.isLoading ==> s.error == None)
    && (s.expenses == [] || s.groupedExpenses == [])
    && GroupedByCategory(s.groupedExpenses)
  }

  /** The newest of the `launched` loads is the one the filter, the date and
      the grouping of `s` describe. */
  predicate Current(s: ExpenseListUiState, launched: seq<LoadJob>) {
    && |launched| > 0
    && Shows(s, launched[|launched| - 1].query)
    && launched[|launched| - 1].grouped == (s.groupBy == CATEGORY)
  }

  /** An emission of any launched load keeps the state consistent and leaves
      the newest load current. */
  lemma EmissionKeeps(s: ExpenseListUiState, launched: seq<LoadJob>, dao: ExpenseDao, z: Zone, k: nat, today: int)
    requires ConsistentState(s) && Current(s, launched)
    requires k < |launched|
    ensures ConsistentState(Emission(s, dao, z, launched[k], today))
    ensures Current(Emission(s, dao, z, launched[k], today), launched)
  {
    var r := Emission(s, dao, z, launched[k], today);
    assert Shows(r, launched[|launched| - 1].query) by {
      assert Shows(s, launched[|launched| - 1].query);
    }
  }

  class ExpenseListViewModel {
    var uiState: ExpenseListUiState
    /** The loads launched so far, oldest first; every one not in `failed` may still emit. */
    var launched: seq<LoadJob>
    /** The positions in `launched` of the loads whose collector threw: they
        emit no more. */
    var failed: set<nat>
    const zone: Zone

    ghost predicate Consistent()
      reads this
    {
      ConsistentState(uiState)
    }

    ghost predicate Valid()
      reads this
    {
      ConsistentState(uiState) && Current(uiState, launched)
    }

    /** A new screen on local day `today`: it starts loading today's records. */
    constructor(zone: Zone, today: int)
      ensures Valid()
      ensures this.zone == zone
      ensures uiState == LoadingState(InitialListUiState(today), Today(today))
      ensures launched == [LoadJob(Today(today), false)] && failed == {}
    {
      this.zone := zone;
      uiState := LoadingState(InitialListUiState(today), Today(today));
      launched := [LoadJob(Today(today), false)];
      failed := {};
    }

    /** The shared start of `loadTodayExpenses`, `loadExpensesByDate` and
        `loadAllExpenses`: the loading state, then a launch that reads the
        grouping. */
    method StartLoad(q: ListQuery)
      requires Consistent()
      modifies this
      ensures Valid()
      ensures failed == old(failed)
      ensures uiState == LoadingState(old(uiState), q)
      ensures launched == old(launched) + [LoadJob(q, old(uiState).groupBy == CATEGORY)]
    {
      uiState := LoadingState(uiState, q);
      launched := launched + [LoadJob(q, uiState.groupBy == CATEGORY)];
    }

    /** `refresh()`: reload what the filter shows. */
    method RefreshLoad(today: int)
      requires Consistent()
      modifies this
      ensures Valid()
      ensures failed == old(failed)
      ensures uiState == LoadingState(old(uiState), RefreshQuery(old(uiState), today))
      ensures uiState.filterType == old(uiState).filterType
      ensures launched == old(launched) + [LoadJob(RefreshQuery(old(uiState), today), old(uiState).groupBy == CATEGORY)]
    {
      RefreshKeepsFilter(uiState, AllTime, today);
      StartLoad(RefreshQuery(uiState, today));
    }

    /** `toggleGroupBy(groupBy)`: reload what the filter shows with the new grouping. */
    method ChangeGrouping(g: GroupBy, today: int)
      requires Valid()
      modifies this
      ensures Valid()
      ensures failed == old(failed)
      ensures uiState == LoadingState(old(uiState).(groupBy := g), RefreshQuery(old(uiState), today))
      ensures launched == old(launched) + [LoadJob(RefreshQuery(old(uiState), today), g == CATEGORY)]
    {
      uiState := uiState.(groupBy := g);
      RefreshLoad(today);
    }

    /** `changeFilter(filterType)`: today and all time load at once; a custom
        date only opens the date picker. */
    method ChangeFilter(f: FilterType, today: int)
      requires Valid()
      modifies this
      ensures Valid()
      ensures failed == old(failed)
      ensures f == TODAY ==>
                uiState == LoadingState(old(uiState), Today(today))
                && launched == old(launched) + [LoadJob(Today(today), old(uiState).groupBy == CATEGORY)]
      ensures f == CUSTOM_DATE ==> uiState == old(uiState).(showDatePicker := true) && launched == old(launched)
      ensures f == ALL_TIME ==>
                uiState == LoadingState(old(uiState), AllTime)
                && launched == old(launched) + [LoadJob(AllTime, old(uiState).groupBy == CATEGORY)]
    {
      match f
      case TODAY => StartLoad(Today(today));
      case CUSTOM_DATE => uiState := uiState.(showDatePicker := true);
      case ALL_TIME => StartLoad(AllTime);
    }

    /** `selectDate(date)`: close the date picker and load that day. */
    method SelectDate(d: int)
      requires Valid()
      modifies this
      ensures Valid()
      ensures failed == old(failed)
      ensures uiState == LoadingState(old(uiState).(showDatePicker := false), OnDay(d))
      ensures launched == old(launched) + [LoadJob(OnDay(d), old(uiState).groupBy == CATEGORY)]
    {
      uiState := uiState.(showDatePicker := false);
      StartLoad(OnDay(d));
    }

    /** `onAction(action)`, with `today` the local day the clock reads. The
        loads set the filter and date they show; a grouping change reloads what
        the filter shows with the new grouping; choosing the custom-date filter
        only opens the date picker; selecting a date closes it and loads that
        day. */
    method OnAction(action: ExpenseListAction, today: int)
      requires Valid()
      modifies this
      ensures Valid()
      ensures failed == old(failed)
      ensures action.LoadTodayExpenses? ==>
                uiState == LoadingState(old(uiState), Today(today))
                && launched == old(launched) + [LoadJob(Today(today), old(uiState).groupBy == CATEGORY)]
      ensures action.LoadExpensesByDate? ==>
                uiState == LoadingState(old(uiState), OnDay(action.date))
                && launched == old(launched) + [LoadJob(OnDay(action.date), old(uiState).groupBy == CATEGORY)]
      ensures action.LoadAllExpenses? ==>
                uiState == LoadingState(old(uiState), AllTime)
                && launched == old(launched) + [LoadJob(AllTime, old(uiState).groupBy == CATEGORY)]
      ensures action.ToggleGroupBy? ==>
                var q := RefreshQuery(old(uiState), today);
                uiState == LoadingState(old(uiState).(groupBy := action.groupBy), q)
                && launched == old(launched) + [LoadJob(q, action.groupBy == CATEGORY)]
      ensures action.FilterChanged? && action.filterType == TODAY ==>
                uiState == LoadingState(old(uiState), Today(today))
                && launched == old(launched) + [LoadJob(Today(today), old(uiState).groupBy == CATEGORY)]
      ensures action.FilterChanged? && action.filterType == CUSTOM_DATE ==>
                uiState == old(uiState).(showDatePicker := true) && launched == old(launched)
      ensures action.FilterChanged? && action.filterType == ALL_TIME ==>
                uiState == LoadingState(old(uiState), AllTime)
                && launched == old(launched) + [LoadJob(AllTime, old(uiState).groupBy == CATEGORY)]
      ensures action.DateSelected? ==>
                uiState == LoadingState(old(uiState).(showDatePicker := false), OnDay(action.date))
                && launched == old(launched) + [LoadJob(OnDay(action.date), old(uiState).groupBy == CATEGORY)]
      ensures action.ShowDatePicker? ==> uiState == old(uiState).(showDatePicker := true) && launched == old(launched)
      ensures action.HideDatePicker? ==> uiState == old(uiState).(showDatePicker := false) && launched == old(launched)
      ensures action.Refresh? ==>
                uiState == LoadingState(old(uiState), RefreshQuery(old(uiState), today))
                && launched == old(launched) + [LoadJob(RefreshQuery(old(uiState), today), old(uiState).groupBy == CATEGORY)]
    {
      match action
      case LoadTodayExpenses => StartLoad(Today(today));
      case LoadExpensesByDate(d) => StartLoad(OnDay(d));
      case LoadAllExpenses => StartLoad(AllTime);
      case ToggleGroupBy(g) => ChangeGrouping(g, today);
      case FilterChanged(f) => ChangeFilter(f, today);
      case DateSelected(d) => SelectDate(d);
      case ShowDatePicker => uiState := uiState.(showDatePicker := true);
      case HideDatePicker => uiState := uiState.(showDatePicker := false);
      case Refresh => RefreshLoad(today);
    }

    /** One emission of the load `launched[k]`, with the table as it now is
        and `today` the local day the clock reads. The filter is left alone,
        so an emission of an older load shows rows the filter does not
        describe; an emission of the newest load shows what the filter says. */
    method LoadEmitted(dao: ExpenseDao, k: nat, today: int)
      requires Valid()
      requires k < |launched| && k !in failed
      modifies this
      ensures Valid()
      ensures launched == old(launched) && failed == old(failed)
      ensures uiState == Emission(old(uiState), dao, zone, launched[k], today)
      ensures k == |launched| - 1 ==> Shows(uiState, launched[k].query)
    {
      var next := Emission(uiState, dao, zone, launched[k], today);
      EmissionKeeps(uiState, launched, dao, zone, k, today);
      uiState := next;
    }

    /** The `catch` of the load `launched[k]`: loading ends, the exception's
        message, which may be absent, becomes the error, and that load emits
        no more. */
    method LoadFailed(k: nat, message: Option<string>)
      requires Valid()
      requires k < |launched| && k !in failed
      modifies this
      ensures Valid()
      ensures uiState == old(uiState).(isLoading := false, error := message)
      ensures launched == old(launched) && failed == old(failed) + {k}
    {
      uiState := uiState.(isLoading := false, error := message);
      failed := failed + {k};
    }
  }
}
