/** The report screen's view-model: one `ExpenseReportUiState` replaced step by
    step, and the events it sends, in order. Each coroutine is split into the
    synchronous step before `launch` and a completion step for its outcome. */
module ReportScreen {
  import opened Wrappers
  import opened Text
  import opened Db
  import opened ReportTypes
  import opened Repository
  import opened ReportEngine

  // ---------------------------------------------------------------- share text

  /** `buildString { appendLine(l) ... }`: every line followed by a line feed. */
  function Unlines(ls: seq<string>): string {
    if ls == [] then "" else ls[0] + "\n" + Unlines(ls[1..])
  }

  /** Reads a text back as lines: the pieces between line feeds, a last piece
      without a line feed counting as a line. */
  function Lines(s: string): seq<string>
    decreases |s|
  {
    if s == [] then []
    else
      var k := IndexOf(s, '\n');
      if k == |s| then [s] else [s[..k]] + Lines(s[k + 1..])
  }

  /** Lines without line feeds, written with `appendLine`, read back as themselves. */
  lemma {:induction false} LinesUnlines(ls: seq<string>)
    requires forall i :: 0 <= i < |ls| ==> '\n' !in ls[i]
    ensures Lines(Unlines(ls)) == ls
  {
    if ls != [] {
      var l, rest := ls[0], Unlines(ls[1..]);
      var s := Unlines(ls);
      assert s == l + "\n" + rest;
      assert s[|l|] == '\n';
      forall i | 0 <= i < |l| ensures s[i] != '\n' {
        assert s[i] == l[i];
      }
      assert IndexOf(s, '\n') == |l|;
      assert s[..|l|] == l;
      assert s[|l| + 1..] == rest;
      LinesUnlines(ls[1..]);
    }
  }

  /** `"${daily.date}: ₹${"%.2f"} (${daily.expenseCount} expenses)"`. */
  function DailyLine(fmt: Formats, d: DailyTotal): string {
    fmt.date(d.date) + ": \U{20B9}" + fmt.money(d.totalAmount) + " (" + IntToString(d.expenseCount) + " expenses)"
  }

  /** `"${category.category}: ₹${"%.2f"} (${"%.1f"}%)"`. */
  function CategoryLine(fmt: Formats, c: CategoryTotal): string {
    c.category + ": \U{20B9}" + fmt.money(c.totalAmount) + " (" + fmt.oneDecimal(c.percentage) + "%)"
  }

  function DailyLines(fmt: Formats, ds: seq<DailyTotal>): (ls: seq<string>)
    ensures |ls| == |ds|
    ensures forall i :: 0 <= i < |ds| ==> ls[i] == DailyLine(fmt, ds[i])
  {
    if ds == [] then [] else [DailyLine(fmt, ds[0])] + DailyLines(fmt, ds[1..])
  }

  function CategoryLines(fmt: Formats, cs: seq<CategoryTotal>): (ls: seq<string>)
    ensures |ls| == |cs|
    ensures forall i :: 0 <= i < |cs| ==> ls[i] == CategoryLine(fmt, cs[i])
  {
    if cs == [] then [] else [CategoryLine(fmt, cs[0])] + CategoryLines(fmt, cs[1..])
  }

  /** The title, period and totals that open the shared report. */
  function ShareHeader(data: ReportData, fmt: Formats): (h: seq<string>)
    ensures |h| == 7
  {
    [ "\U{1F4CA} Expense Report",
      "================",
      "Period: " + data.reportPeriod,
      "Total Amount: \U{20B9}" + fmt.money(data.totalAmount),
      "Total Expenses: " + IntToString(data.totalExpenses),
      "",
      "\U{1F4C5} Daily Summary:" ]
  }

  /** The lines of the shared report: seven header lines, one per day, a blank
      line and a heading, one per category. */
  function ShareLines(data: ReportData, fmt: Formats): seq<string> {
    ShareHeader(data, fmt)
    + DailyLines(fmt, data.dailyTotals)
    + ["", "\U{1F4C2} Category Summary:"]
    + CategoryLines(fmt, data.categoryTotals)
  }

  /** The `content` of the `ShareContent` event. */
  function ShareText(data: ReportData, fmt: Formats): string {
    Unlines(ShareLines(data, fmt))
  }

  /** The `subject` of the `ShareContent` event. */
  function ShareSubject(data: ReportData): (s: string)
    ensures |s| == 17 + |data.reportPeriod| && s[17..] == data.reportPeriod
  {
    "Expense Report - " + data.reportPeriod
  }

  /** The share text has `9 + |daily| + |category|` lines: the seven header
      lines, the day lines in stored order from line 7, a blank line and the
      category heading, then the category lines in stored order. */
  lemma ShareLayout(data: ReportData, fmt: Formats)
    ensures |ShareLines(data, fmt)| == 9 + |data.dailyTotals| + |data.categoryTotals|
    ensures ShareLines(data, fmt)[..7] == ShareHeader(data, fmt)
    ensures ShareLines(data, fmt)[7..7 + |data.dailyTotals|] == DailyLines(fmt, data.dailyTotals)
    ensures ShareLines(data, fmt)[7 + |data.dailyTotals|..9 + |data.dailyTotals|] == ["", "\U{1F4C2} Category Summary:"]
    ensures ShareLines(data, fmt)[9 + |data.dailyTotals|..] == CategoryLines(fmt, data.categoryTotals)
  {
    var h, d, c := ShareHeader(data, fmt), DailyLines(fmt, data.dailyTotals), CategoryLines(fmt, data.categoryTotals);
    SectionsLayout(h, d, ["", "\U{1F4C2} Category Summary:"], c);
  }

  /** Where each part of `h + d + m + c` lands. */
  lemma SectionsLayout<T>(h: seq<T>, d: seq<T>, m: seq<T>, c: seq<T>)
    ensures |h + d + m + c| == |h| + |d| + |m| + |c|
    ensures (h + d + m + c)[..|h|] == h
    ensures (h + d + m + c)[|h|..|h| + |d|] == d
    ensures (h + d + m + c)[|h| + |d|..|h| + |d| + |m|] == m
    ensures (h + d + m + c)[|h| + |d| + |m|..] == c
  {
  }

  /** When no piece contains a line feed, the shared text reads back as exactly
      those lines. */
  lemma ShareTextLines(data: ReportData, fmt: Formats)
    requires forall i :: 0 <= i < |ShareLines(data, fmt)| ==> '\n' !in ShareLines(data, fmt)[i]
    ensures Lines(ShareText(data, fmt)) == ShareLines(data, fmt)
    ensures |Lines(ShareText(data, fmt))| == 9 + |data.dailyTotals| + |data.categoryTotals|
  {
    LinesUnlines(ShareLines(data, fmt));
    ShareLayout(data, fmt);
  }

  // ---------------------------------------------------------------- the view-model

  datatype ExportFormat = Pdf | Csv

  /** The format name in the export's event and error message. */
  function FormatName(f: ExportFormat): string {
    match f
    case Pdf => "PDF"
    case Csv => "CSV"
  }

  class ExpenseReportViewModel {
    var uiState: ExpenseReportUiState
    /** The events sent so far, oldest first. */
    var events: seq<ReportEvent>
    /** The device's time zone and renderings. */
    const zone: Zone
    const fmt: Formats
    /** The window of the live report subscribed to at construction: its length
        and its last day. */
    const liveDays: int
    const liveToday: int
    /** Whether the live subscription has failed: its `catch` completes the
        flow, so it emits no more. */
    var liveFailed: bool

    /** A load in progress has no error showing, and this view-model never
        opens the share dialog. */
    ghost predicate Valid()
      reads this
    {
      && (uiState.isLoading ==> uiState.error == None)
      && !uiState.showShareDialog
    }

    /** `init { observeReport() }`: subscribes to the live report of the default
        period and shows the loading state. */
    constructor(zone: Zone, fmt: Formats, today: int)
      ensures Valid()
      ensures uiState == InitialReportUiState.(isLoading := true, error := None)
      ensures events == []
      ensures this.zone == zone && this.fmt == fmt
      ensures liveDays == InitialReportUiState.reportPeriodDays && liveToday == today
      ensures !liveFailed
    {
      liveFailed := false;
      this.zone := zone;
      this.fmt := fmt;
      liveDays := InitialReportUiState.reportPeriodDays;
      liveToday := today;
      uiState := InitialReportUiState.(isLoading := true, error := None);
      events := [];
    }

    /** A report emitted by the live subscription. */
    method ReportEmitted(dao: ExpenseDao, now: int)
      requires Valid()
      requires !liveFailed
      modifies this
      ensures Valid()
      ensures liveFailed == old(liveFailed)
      ensures uiState == old(uiState).(
                reportData := Some(ReportOf(RecordsInWindow(dao, zone, WindowStart(liveToday, liveDays), liveToday),
                                            zone, fmt, WindowStart(liveToday, liveDays), liveToday, liveDays, now)),
                isLoading := false, error := None)
      ensures events == old(events)
    {
      var report := ReportFlow(dao, zone, fmt, liveToday, liveDays, now);
      uiState := uiState.(reportData := Some(report), isLoading := false, error := None);
    }

    /** The live subscription failed; `message` is the exception's message.
        The flow completes here. */
    method ReportStreamFailed(message: Option<string>)
      requires Valid()
      requires !liveFailed
      modifies this
      ensures Valid()
      ensures liveFailed
      ensures uiState == old(uiState).(isLoading := false, error := Some(message.GetOr("Failed to load")))
      ensures events == old(events)
    {
      uiState := uiState.(isLoading := false, error := Some(message.GetOr("Failed to load")));
      liveFailed := true;
    }

    /** `loadReport()` up to `launch`; `days` is the period its coroutine reads
        as it starts. Loads are never cancelled, so an older load may complete
        after a newer one. */
    method LoadReport() returns (days: int)
      requires Valid()
      modifies this
      ensures Valid()
      ensures liveFailed == old(liveFailed)
      ensures uiState == old(uiState).(isLoading := true, error := None)
      ensures days == old(uiState).reportPeriodDays
      ensures events == old(events)
    {
      uiState := uiState.(isLoading := true, error := None);
      days := uiState.reportPeriodDays;
    }

    /** `loadReport()`'s coroutine when `generateReport(days)` returns, with
        `days` the period read at launch: the report of those days ending
        `today`, built at instant `now`, whatever the period is now. */
    method LoadReportSucceeded(days: int, dao: ExpenseDao, today: int, now: int)
      requires Valid()
      modifies this
      ensures Valid()
      ensures liveFailed == old(liveFailed)
      ensures uiState == old(uiState).(
                reportData := Some(ReportOf(RecordsInWindow(dao, zone, WindowStart(today, days), today),
                                            zone, fmt, WindowStart(today, days), today, days, now)),
                isLoading := false)
      ensures events == old(events)
    {
      var report := GenerateReport(dao, zone, fmt, today, days, now);
      uiState := uiState.(reportData := Some(report), isLoading := false);
    }

    /** `loadReport()`'s coroutine when `generateReport` throws: the previous
        report stays. */
    method LoadReportFailed(message: Option<string>)
      requires Valid()
      modifies this
      ensures Valid()
      ensures liveFailed == old(liveFailed)
      ensures uiState == old(uiState).(isLoading := false, error := Some(message.GetOr("Failed to load report")))
      ensures uiState.reportData == old(uiState.reportData)
      ensures events == old(events)
    {
      uiState := uiState.(isLoading := false, error := Some(message.GetOr("Failed to load report")));
    }

    /** `exportToPdf()` / `exportToCsv()` up to `launch`. */
    method ExportStart()
      requires Valid()
      modifies this
      ensures Valid()
      ensures liveFailed == old(liveFailed)
      ensures uiState == old(uiState).(isExporting := true)
      ensures events == old(events)
    {
      uiState := uiState.(isExporting := true);
    }

    /** The export coroutine when the file `fileName` was written. */
    method ExportSucceeded(format: ExportFormat, fileName: string)
      requires Valid()
      modifies this
      ensures Valid()
      ensures liveFailed == old(liveFailed)
      ensures uiState == old(uiState).(isExporting := false)
      ensures events == old(events) + [ExportCompleted(fileName, FormatName(format))]
    {
      uiState := uiState.(isExporting := false);
      events := events + [ExportCompleted(fileName, FormatName(format))];
    }

    /** The export coroutine when writing failed; a missing message reads "null". */
    method ExportFailed(format: ExportFormat, message: Option<string>)
      requires Valid()
      modifies this
      ensures Valid()
      ensures liveFailed == old(liveFailed)
      ensures uiState == old(uiState).(isExporting := false)
      ensures events == old(events) + [ShowError("Failed to export " + FormatName(format) + ": " + message.GetOr("null"))]
    {
      uiState := uiState.(isExporting := false);
      events := events + [ShowError("Failed to export " + FormatName(format) + ": " + message.GetOr("null"))];
    }

    /** `shareReport()`: without a report nothing happens; otherwise one
        `ShareContent` event with the report's text and subject. */
    method ShareReport()
      requires Valid()
      modifies this
      ensures Valid()
      ensures liveFailed == old(liveFailed)
      ensures uiState == old(uiState)
      ensures old(uiState).reportData.None? ==> events == old(events)
      ensures old(uiState).reportData.Some? ==>
                var data := old(uiState).reportData.value;
                events == old(events) + [ShareContent(ShareText(data, fmt), ShareSubject(data))]
    {
      if uiState.reportData.Some? {
        var data := uiState.reportData.value;
        events := events + [ShareContent(ShareText(data, fmt), ShareSubject(data))];
      }
    }

    /** `changePeriod(days)`: the new period, then `loadReport()`, which
        launches a load of the new period. */
    method ChangePeriod(days: int) returns (launched: int)
      requires Valid()
      modifies this
      ensures Valid()
      ensures liveFailed == old(liveFailed)
      ensures uiState == old(uiState).(reportPeriodDays := days, isLoading := true, error := None)
      ensures launched == days
      ensures events == old(events)
    {
      uiState := uiState.(reportPeriodDays := days);
      launched := LoadReport();
    }

    /** `onAction(action)`: the synchronous part of each action, and the period
        of the report load it launches, if any. */
    method OnAction(action: ReportAction) returns (launched: Option<int>)
      requires Valid()
      modifies this
      ensures Valid()
      ensures liveFailed == old(liveFailed)
      ensures launched.Some? <==> action.LoadReport? || action.Refresh? || action.ChangePeriod?
      ensures action.LoadReport? || action.Refresh? ==>
                uiState == old(uiState).(isLoading := true, error := None) && events == old(events)
                && launched == Some(old(uiState).reportPeriodDays)
      ensures action.ExportToPdf? || action.ExportToCsv? ==>
                uiState == old(uiState).(isExporting := true) && events == old(events)
      ensures action.DismissShareDialog? ==>
                uiState == old(uiState).(showShareDialog := false) && events == old(events)
      ensures action.ChangePeriod? ==>
                uiState == old(uiState).(reportPeriodDays := action.days, isLoading := true, error := None)
                && events == old(events) && launched == Some(action.days)
      ensures action.ShareReport? ==> uiState == old(uiState)
      ensures action.ShareReport? && old(uiState).reportData.None? ==> events == old(events)
      ensures action.ShareReport? && old(uiState).reportData.Some? ==>
                var data := old(uiState).reportData.value;
                events == old(events) + [ShareContent(ShareText(data, fmt), ShareSubject(data))]
    {
      launched := None;
      match action
      case LoadReport =>
        var days := LoadReport();
        launched := Some(days);
      case ExportToPdf => ExportStart();
      case ExportToCsv => ExportStart();
      case ShareReport => ShareReport();
      case DismissShareDialog => uiState := uiState.(showShareDialog := false);
      case ChangePeriod(days) =>
        var period := ChangePeriod(days);
        launched := Some(period);
      case Refresh =>
        var days := LoadReport();
        launched := Some(days);
    }
  }
}
