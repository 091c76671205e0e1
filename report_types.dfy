/** The values the report screen works with: the report itself, its rows, the
    screen state, and the actions and one-off events of the report screen. */
module ReportTypes {
  import opened Wrappers

  /** One day of the report window; `date` is a local date as a day number. */
  datatype DailyTotal = DailyTotal(date: int, totalAmount: real, expenseCount: int)

  /** One category; `percentage` is its share of the report's total amount. */
  datatype CategoryTotal = CategoryTotal(category: string, totalAmount: real, expenseCount: int, percentage: real)

  /** `generatedAt` is the clock reading, in milliseconds, when the report was built. */
  datatype ReportData = ReportData(
    dailyTotals: seq<DailyTotal>,
    categoryTotals: seq<CategoryTotal>,
    totalAmount: real,
    totalExpenses: int,
    reportPeriod: string,
    generatedAt: int)

  datatype ExpenseReportUiState = ExpenseReportUiState(
    reportData: Option<ReportData>,
    isLoading: bool,
    error: Option<string>,
    isExporting: bool,
    showShareDialog: bool,
    reportPeriodDays: int)

  /** The state a new report screen starts from. */
  const InitialReportUiState := ExpenseReportUiState(None, false, None, false, false, 7)

  datatype ReportAction =
    | LoadReport
    | ExportToPdf
    | ExportToCsv
    | ShareReport
    | DismissShareDialog
    | ChangePeriod(days: int)
    | Refresh

  datatype ReportEvent =
    | ShowError(message: string)
    | ExportCompleted(fileName: string, format: string)
    | ShareContent(content: string, subject: string)

  /** The renderings the report text uses: the ISO-8601 date text of
      `LocalDate.toString()`, and the default-locale `String.format("%.2f")`
      and `String.format("%.1f")`. */
  datatype Formats = Formats(date: int -> string, money: real -> string, oneDecimal: real -> string)

  function DailyAmount(d: DailyTotal): real { d.totalAmount }

  function DailyCount(d: DailyTotal): int { d.expenseCount }

  function CategoryAmount(c: CategoryTotal): real { c.totalAmount }

  function CategoryCount(c: CategoryTotal): int { c.expenseCount }

  function Percentage(c: CategoryTotal): real { c.percentage }
}
