# Expense tracker: a verified model of the data and view-model core

This project models the core of an Android expense tracker in Dafny and proves
properties of the model. The tracker stores expenses in a Room table. Its
repository turns the table's queries into daily lists, per-category groups,
totals and a period report. Three view-models drive the screens:

- the add-expense form: input filters, validation, a live duplicate check and
  the insert;
- the expense list: a filter for today, a chosen day or all time, an optional
  grouping by category, and totals;
- the report screen: the live report of the last seven days, reloads for other
  periods, exports and a share text.

The modules follow the source files:

| module | file | models |
|---|---|---|
| `ExpenseModel` | `expense_entity.dfy` | the `expenses` row |
| `Db` | `expense_dao.dfy` | the table and each of its queries, as a class over a `seq` of rows |
| `Repository` | `expense_repository.dfy` | day ranges, totals, the duplicate check, the grouped queries |
| `ReportEngine` | `report_engine.dfy` | `generateReport`, `reportFlow`, `buildReportFromExpenses` |
| `ReportTypes` | `report_types.dfy` | report data, report UI state, actions and events |
| `ReportScreen` | `report_view_model.dfy` | the report view-model and its share text |
| `AddExpense` | `add_expense_view_model.dfy` | the add-expense view-model |
| `ExpenseList` | `expense_list_view_model.dfy` | the expense-list view-model |
| `Seqs`, `Sorting`, `Grouping`, `Text`, `Wrappers` | | Kotlin's `filter`, `sumOf`, `sortedByDescending`, `groupBy`, `trim`, `length`, `toDouble`; SQL `LOWER()`; `Option` |

The model makes these representation choices:

- **Amounts.** `Double` amounts are `real`.
- **Dates.** A `LocalDate` is an `int` day number. An instant is an `int` of
  epoch milliseconds.
- **Time zone.** The device's zone is a `Zone` value holding two functions:
  the first instant of a day, and the day of an instant. `Coherent(z)` states
  that days are consecutive intervals of instants; a day the zone skips
  entirely is an empty interval.
- **Text.** A `String` is a sequence of Unicode characters. Its Kotlin
  `length`, which counts UTF-16 code units, is `Utf16Length`: a character
  above U+FFFF counts twice.
- **Clock.** "Now" and "today" are parameters of the operations that read them.
- **Formatting.** A `Formats` value carries two renderings. One is the ISO-8601
  date text that `LocalDate.toString()` prints in the period label and the daily
  lines (`fmt.date`). The other is the amount renderings of `"%.2f"` and
  `"%.1f"`, which read the default locale (`fmt.money`, `fmt.oneDecimal`).
- **Coroutines.** Each coroutine a view-model launches is split into a start
  method, which makes the synchronous state change, and completion methods.
  A completion method runs when the coroutine's flow emits, returns or throws.

## Model

| member | source | states |
|---|---|---|
| `Db.ExpenseDao.constructor` | app/src/main/java/com/hanif/expensetracker/db/ExpenseDao.kt:7-8 | an empty table, ids unique |
| `Db.ExpenseDao.InsertExpense` | app/src/main/java/com/hanif/expensetracker/db/ExpenseDao.kt:10-11 | with `ABORT` on conflict: the row is appended exactly when its id is new, otherwise the table is unchanged; ids stay unique |
| `Db.ExpenseDao.DeleteExpense` | app/src/main/java/com/hanif/expensetracker/db/ExpenseDao.kt:46-47 | deletion by primary key: exactly the rows with another id remain, in order, and the id is gone |
| `Db.DeletePresent` | app/src/main/java/com/hanif/expensetracker/db/ExpenseDao.kt:46-47 | with unique ids, deleting the id of row `i` removes that row alone |
| `Db.DeleteAbsent` | app/src/main/java/com/hanif/expensetracker/db/ExpenseDao.kt:46-47 | deleting an id that no row has leaves the table unchanged |
| `Db.FilterUniqueIds` | app/src/main/java/com/hanif/expensetracker/model/ExpenseEntity.kt:9 | keeping some rows of a table with unique primary keys keeps them unique |
| `Db.ExpenseDao.CountDuplicates` | app/src/main/java/com/hanif/expensetracker/db/ExpenseDao.kt:13-19 | the count is positive exactly when a row has that instant and the same title and category up to `LOWER` |
| `Db.CountPositive` | app/src/main/java/com/hanif/expensetracker/db/ExpenseDao.kt:14 | `COUNT(*) > 0` exactly when some row matches |
| `Db.ExpenseDao.ExpensesByDate` | app/src/main/java/com/hanif/expensetracker/db/ExpenseDao.kt:22-23 | exactly the rows with `lo <= date < hi`, each once, latest first |
| `Db.RangeMembers` | app/src/main/java/com/hanif/expensetracker/db/ExpenseDao.kt:22 | a permutation of the range filter holds exactly the table's rows in the range |
| `Db.ExpenseDao.AllExpenses` | app/src/main/java/com/hanif/expensetracker/db/ExpenseDao.kt:25-26 | every row once, latest first |
| `Db.LaterFirstOrder` | app/src/main/java/com/hanif/expensetracker/db/ExpenseDao.kt:22 | `ORDER BY date DESC` is a strict weak order |
| `Db.StrLessTransitive` | app/src/main/java/com/hanif/expensetracker/db/ExpenseDao.kt:28 | text order on categories is transitive |
| `Db.StrLessTotal` | app/src/main/java/com/hanif/expensetracker/db/ExpenseDao.kt:28 | two different categories are ordered one way or the other |
| `Db.CategoryOrder` | app/src/main/java/com/hanif/expensetracker/db/ExpenseDao.kt:28 | `ORDER BY category, date DESC` is a strict weak order |
| `Db.ExpenseDao.ExpensesByDateGroupedByCategory` | app/src/main/java/com/hanif/expensetracker/db/ExpenseDao.kt:28-29 | the rows of the range, categories ascending, latest first within a category |
| `Db.ExpenseDao.AllExpensesGroupedByCategory` | app/src/main/java/com/hanif/expensetracker/db/ExpenseDao.kt:31-32 | every row once, categories ascending, latest first within a category |
| `Db.ExpenseDao.TotalAmountByDate` | app/src/main/java/com/hanif/expensetracker/db/ExpenseDao.kt:34-35 | `SUM` is null exactly over no rows, otherwise the sum of the range's amounts |
| `Db.ExpenseDao.TotalAmount` | app/src/main/java/com/hanif/expensetracker/db/ExpenseDao.kt:37-38 | null on an empty table, otherwise the sum of all amounts |
| `Db.ExpenseDao.CountByDate` | app/src/main/java/com/hanif/expensetracker/db/ExpenseDao.kt:40-41 | the number of rows the range query lists |
| `Db.ExpenseDao.TotalCount` | app/src/main/java/com/hanif/expensetracker/db/ExpenseDao.kt:43-44 | the number of rows the full query lists |
| `Repository.InstantInDays` | app/src/main/java/com/hanif/expensetracker/repository/ExpenseRepository.kt:184-189 | an instant lies between the start of day `s` and the start of day `e + 1` exactly when its day lies in `s..e` |
| `Repository.DateRange` | app/src/main/java/com/hanif/expensetracker/repository/ExpenseRepository.kt:71-75 | the half-open instant range holds exactly the instants of day `d` |
| `Repository.DateRangeInclusive` | app/src/main/java/com/hanif/expensetracker/repository/ExpenseRepository.kt:184-189 | the range holds exactly the instants whose day lies in `start..end`; for one day it is `getDateRange` |
| `Repository.ExpensesOn` | app/src/main/java/com/hanif/expensetracker/repository/ExpenseRepository.kt:34-37 | in a coherent zone, the table's rows of local day `d`, each exactly as often as in the table; latest first |
| `Repository.TotalStats` | app/src/main/java/com/hanif/expensetracker/repository/ExpenseRepository.kt:54-65 | for a date in a coherent zone, the number of records booked that local day and their amount sum; without one, the table's size and sum; a null sum reads 0 |
| `Repository.CheckDuplicate` | app/src/main/java/com/hanif/expensetracker/repository/ExpenseRepository.kt:26-28 | true exactly when a row has that instant and the same title and category, ignoring ASCII case |
| `Repository.GroupByCategory` | app/src/main/java/com/hanif/expensetracker/repository/ExpenseRepository.kt:46 | one non-empty group per category, no key twice, each group exactly that category's rows in order, every row's category a key; count and sum kept |
| `Repository.GroupSortedRows` | app/src/main/java/com/hanif/expensetracker/repository/ExpenseRepository.kt:43-47 | grouping rows in `category, date DESC` order gives groups of one category each, latest first |
| `Repository.GroupKeysAscending` | app/src/main/java/com/hanif/expensetracker/repository/ExpenseRepository.kt:43-47 | grouping rows sorted by category gives keys in ascending order |
| `Repository.GroupItemsOrdered` | app/src/main/java/com/hanif/expensetracker/repository/ExpenseRepository.kt:46 | a group taken from category-ordered rows holds its category only, latest first |
| `Repository.DayFilter` | app/src/main/java/com/hanif/expensetracker/repository/ExpenseRepository.kt:34-37 | in a coherent zone, filtering by a day's instant range is filtering by that local day |
| `Repository.DayMembers` | app/src/main/java/com/hanif/expensetracker/repository/ExpenseRepository.kt:34-37 | in a coherent zone, the rows of a day's instant range are exactly the rows of that local day |
| `Repository.GroupMembers` | app/src/main/java/com/hanif/expensetracker/repository/ExpenseRepository.kt:43-52 | grouping a reordering of some rows puts exactly the rows of each key's category in its group |
| `Repository.ExpensesOnGroupedByCategory` | app/src/main/java/com/hanif/expensetracker/repository/ExpenseRepository.kt:43-47 | the day's rows grouped by category: each group holds exactly the day's rows of its category, every row's category is a key, and count and sum match the flat day list |
| `Repository.AllExpensesGroupedByCategory` | app/src/main/java/com/hanif/expensetracker/repository/ExpenseRepository.kt:49-52 | all rows grouped by category: each group holds exactly the rows of its category, every category is a key, and count and sum match the flat list |
| `Grouping.GroupByCorrect` | app/src/main/java/com/hanif/expensetracker/repository/ExpenseRepository.kt:107 | `groupBy` yields distinct keys in first-appearance order; each group holds exactly its key's elements in order and is non-empty |
| `Grouping.LookupGroupBy` | app/src/main/java/com/hanif/expensetracker/repository/ExpenseRepository.kt:151-158 | `dailyMap[k].orEmpty()` of a `groupBy` is the filter of the input by key `k` |
| `Grouping.GroupByTotals` | app/src/main/java/com/hanif/expensetracker/repository/ExpenseRepository.kt:107-111 | the groups' sizes and sums add up to the input's |
| `Sorting.SortBySorted` | app/src/main/java/com/hanif/expensetracker/repository/ExpenseRepository.kt:119 | the sort's output is ordered |
| `Sorting.SortByStable` | app/src/main/java/com/hanif/expensetracker/repository/ExpenseRepository.kt:119 | `sortedByDescending` is stable: elements with equal keys keep their relative order |
| `Sorting.SortBySum` | app/src/main/java/com/hanif/expensetracker/repository/ExpenseRepository.kt:119 | sorting keeps every sum over the elements |
| `Sorting.SortByDistinct` | app/src/main/java/com/hanif/expensetracker/repository/ExpenseRepository.kt:119 | sorting keeps keys distinct |
| `ReportEngine.DailySeriesShape` | app/src/main/java/com/hanif/expensetracker/repository/ExpenseRepository.kt:96-104 | one entry per day of `start..end`, consecutive from `start`; none when `end < start` |
| `ReportEngine.EmptyDay` | app/src/main/java/com/hanif/expensetracker/repository/ExpenseRepository.kt:99-101 | a day without records shows amount 0 and count 0 |
| `ReportEngine.DailySeriesSums` | app/src/main/java/com/hanif/expensetracker/repository/ExpenseRepository.kt:96-104 | the daily amounts and counts add up to the sum and number of the records in the window |
| `ReportEngine.DailySumsMatchTotal` | app/src/main/java/com/hanif/expensetracker/repository/ExpenseRepository.kt:96-108 | for records inside the window, the daily amounts add up to `totalAmount` and the counts to `totalExpenses` |
| `ReportEngine.DailySeriesNext` | app/src/main/java/com/hanif/expensetracker/repository/ExpenseRepository.kt:98-103 | one loop turn appends the current day's total to the series |
| `ReportEngine.BucketsAdd` | app/src/main/java/com/hanif/expensetracker/repository/ExpenseRepository.kt:93 | `getOrPut(...).add(e)` keeps each day's bucket equal to that day's records in order |
| `ReportEngine.BucketByDay` | app/src/main/java/com/hanif/expensetracker/repository/ExpenseRepository.kt:90-94 | the loop leaves exactly the days with records as keys, each mapped to its records in order |
| `ReportEngine.CategoryTotalsOf` | app/src/main/java/com/hanif/expensetracker/repository/ExpenseRepository.kt:109-118 | one entry per group, in group order |
| `ReportEngine.CategoryTotalsOfSums` | app/src/main/java/com/hanif/expensetracker/repository/ExpenseRepository.kt:109-118 | entry counts and amounts add up to the groups'; with a positive total the percentages add up to the groups' share |
| `ReportEngine.MoreAmountOrder` | app/src/main/java/com/hanif/expensetracker/repository/ExpenseRepository.kt:119 | "larger amount first" is a strict weak order |
| `ReportEngine.GroupEntry` | app/src/main/java/com/hanif/expensetracker/repository/ExpenseRepository.kt:107-118 | each mapped group summarises exactly the records of its category |
| `ReportEngine.CategoryTotalsSummarise` | app/src/main/java/com/hanif/expensetracker/repository/ExpenseRepository.kt:106-119 | each category entry's amount, count and percentage are those of exactly its category's records |
| `ReportEngine.CategoryTotalsPartition` | app/src/main/java/com/hanif/expensetracker/repository/ExpenseRepository.kt:106-119 | no category twice, every record's category present, counts add up to the number of records and amounts to `totalAmount` |
| `ReportEngine.PercentagesSumTo100` | app/src/main/java/com/hanif/expensetracker/repository/ExpenseRepository.kt:112 | with a positive total the percentages add up to exactly 100 |
| `ReportEngine.CategoryTotalsOrder` | app/src/main/java/com/hanif/expensetracker/repository/ExpenseRepository.kt:119 | entries in non-increasing amount; equal amounts in the order their categories first appear among the records |
| `ReportEngine.CategoryTiesOrdered` | app/src/main/java/com/hanif/expensetracker/repository/ExpenseRepository.kt:107-119 | entries with equal amounts follow first appearance of their categories |
| `ReportEngine.CategoryRanks` | app/src/main/java/com/hanif/expensetracker/repository/ExpenseRepository.kt:107-109 | before sorting, the entries follow first appearance of their categories |
| `ReportEngine.WindowFilter` | app/src/main/java/com/hanif/expensetracker/repository/ExpenseRepository.kt:84-86 | in a coherent zone, filtering by the window's instant range is filtering by its local days |
| `ReportEngine.RecordsInWindow` | app/src/main/java/com/hanif/expensetracker/repository/ExpenseRepository.kt:85-86 | in a coherent zone, the table's records whose local day lies in `start..end`, each exactly as often as in the table; latest first |
| `ReportEngine.ReportWindow` | app/src/main/java/com/hanif/expensetracker/repository/ExpenseRepository.kt:81-128 | for `days >= 1`, exactly `days` daily entries from the window's first day to today; none for `days < 1`; the daily amounts and counts add up to the report's `totalAmount` and `totalExpenses`, which are the sum and number of the table's records booked in the window |
| `ReportEngine.GenerateReport` | app/src/main/java/com/hanif/expensetracker/repository/ExpenseRepository.kt:77-129 | the loops build the report of the window's records: daily series, category totals, totals and period label |
| `ReportEngine.BuildReportFromExpenses` | app/src/main/java/com/hanif/expensetracker/repository/ExpenseRepository.kt:142-182 | the same report from a given list of records and window |
| `ReportEngine.ReportFlow` | app/src/main/java/com/hanif/expensetracker/repository/ExpenseRepository.kt:131-140 | each emission is the report `generateReport` would give for the same table, day and period |
| `ReportScreen.LinesUnlines` | app/src/main/java/com/hanif/expensetracker/viewmodel/ExpenseReportViewModel.kt:106-124 | lines without a newline, each ended by `appendLine`, split back into the same lines |
| `ReportScreen.DailyLines` | app/src/main/java/com/hanif/expensetracker/viewmodel/ExpenseReportViewModel.kt:115-117 | one line per daily total, in order |
| `ReportScreen.CategoryLines` | app/src/main/java/com/hanif/expensetracker/viewmodel/ExpenseReportViewModel.kt:121-123 | one line per category total, in order |
| `ReportScreen.ShareSubject` | app/src/main/java/com/hanif/expensetracker/viewmodel/ExpenseReportViewModel.kt:130 | the subject is the fixed prefix followed by the report's period |
| `ReportScreen.ShareLayout` | app/src/main/java/com/hanif/expensetracker/viewmodel/ExpenseReportViewModel.kt:106-124 | nine fixed lines plus one per daily and one per category total: the header, then exactly the daily lines, the blank line and category heading, then exactly the category lines |
| `ReportScreen.ShareTextLines` | app/src/main/java/com/hanif/expensetracker/viewmodel/ExpenseReportViewModel.kt:103-134 | the shared text splits back into exactly the layout's lines |
| `ReportScreen.ExpenseReportViewModel.constructor` | app/src/main/java/com/hanif/expensetracker/viewmodel/ExpenseReportViewModel.kt:18-25 | default state, loading, no events, subscribed to the 7-day report ending today, which has not failed |
| `ReportScreen.ExpenseReportViewModel.ReportEmitted` | app/src/main/java/com/hanif/expensetracker/viewmodel/ExpenseReportViewModel.kt:31-33 | while the subscription has not failed, each emission shows the subscribed window's report and clears loading and error |
| `ReportScreen.ExpenseReportViewModel.ReportStreamFailed` | app/src/main/java/com/hanif/expensetracker/viewmodel/ExpenseReportViewModel.kt:28-30 | the failure ends loading, shows the message or "Failed to load", and completes the subscription, which emits no more |
| `ReportScreen.ExpenseReportViewModel.LoadReport` | app/src/main/java/com/hanif/expensetracker/viewmodel/ExpenseReportViewModel.kt:50-51 | loading on, error cleared, nothing else changes; the load is of the period stored at launch |
| `ReportScreen.ExpenseReportViewModel.LoadReportSucceeded` | app/src/main/java/com/hanif/expensetracker/viewmodel/ExpenseReportViewModel.kt:53-61 | the report of the period read at launch ending today, loading off, whatever the period is now |
| `ReportScreen.ExpenseReportViewModel.LoadReportFailed` | app/src/main/java/com/hanif/expensetracker/viewmodel/ExpenseReportViewModel.kt:62-69 | loading off, the message or "Failed to load report" shown, the previous report kept |
| `ReportScreen.ExpenseReportViewModel.ExportStart` | app/src/main/java/com/hanif/expensetracker/viewmodel/ExpenseReportViewModel.kt:73-74 | exporting on, nothing else changes |
| `ReportScreen.ExpenseReportViewModel.ExportSucceeded` | app/src/main/java/com/hanif/expensetracker/viewmodel/ExpenseReportViewModel.kt:76-80 | exporting off, one `ExportCompleted` event with the file and format name |
| `ReportScreen.ExpenseReportViewModel.ExportFailed` | app/src/main/java/com/hanif/expensetracker/viewmodel/ExpenseReportViewModel.kt:81-84 | exporting off, one `ShowError` event naming the format and the message |
| `ReportScreen.ExpenseReportViewModel.ShareReport` | app/src/main/java/com/hanif/expensetracker/viewmodel/ExpenseReportViewModel.kt:103-134 | without a report nothing happens; with one, exactly one `ShareContent` event with its text and subject; the state is unchanged |
| `ReportScreen.ExpenseReportViewModel.ChangePeriod` | app/src/main/java/com/hanif/expensetracker/viewmodel/ExpenseReportViewModel.kt:136-139 | the new period is stored and a load of that period starts |
| `ReportScreen.ExpenseReportViewModel.OnAction` | app/src/main/java/com/hanif/expensetracker/viewmodel/ExpenseReportViewModel.kt:38-48 | each action's synchronous effect on state and events, and the period of the load it launches; a load never shows an error and the share dialog stays closed |
| `Text.LowerChar` | app/src/main/java/com/hanif/expensetracker/db/ExpenseDao.kt:16 | `LOWER` maps `A`-`Z` 32 code points down and leaves every other character alone |
| `Text.Lower` | app/src/main/java/com/hanif/expensetracker/db/ExpenseDao.kt:16-17 | same length, each character lowered |
| `Text.LowerIdempotent` | app/src/main/java/com/hanif/expensetracker/db/ExpenseDao.kt:16-17 | lowering twice is lowering once |
| `Text.Trim` | app/src/main/java/com/hanif/expensetracker/viewmodel/addexpense/ExpenseViewModel.kt:69 | empty exactly for a blank title; otherwise neither end is whitespace |
| `Text.TrimSlice` | app/src/main/java/com/hanif/expensetracker/viewmodel/addexpense/ExpenseViewModel.kt:69 | the trimmed text is a slice of the input with only whitespace cut on either side |
| `Text.TrimIdempotent` | app/src/main/java/com/hanif/expensetracker/viewmodel/addexpense/ExpenseViewModel.kt:69 | trimming twice is trimming once |
| `Text.Utf16Length` | app/src/main/java/com/hanif/expensetracker/viewmodel/addexpense/ExpenseViewModel.kt:36 | `String.length` counts one or two UTF-16 units per character |
| `Text.Utf16LengthBmp` | app/src/main/java/com/hanif/expensetracker/viewmodel/addexpense/ExpenseViewModel.kt:36 | text with no character above U+FFFF has as many units as characters |
| `Text.Utf16LengthAstral` | app/src/main/java/com/hanif/expensetracker/viewmodel/addexpense/ExpenseViewModel.kt:36 | text made only of characters above U+FFFF has two units per character |
| `Text.ParseAmount` | app/src/main/java/com/hanif/expensetracker/viewmodel/addexpense/ExpenseViewModel.kt:70 | on digits-and-point text, a value exactly for a well-formed decimal, never negative |
| `Text.ParseFraction` | app/src/main/java/com/hanif/expensetracker/viewmodel/addexpense/ExpenseViewModel.kt:70 | digits, a point and digits parse to whole part plus fraction ("12.5" is 12.5, "5." is 5, ".25" is 0.25) |
| `Text.ParseDigits` | app/src/main/java/com/hanif/expensetracker/viewmodel/addexpense/ExpenseViewModel.kt:70 | a non-empty digit string parses to its decimal value |
| `Text.NatToString` | app/src/main/java/com/hanif/expensetracker/viewmodel/ExpenseReportViewModel.kt:111 | decimal digits, no leading zero |
| `Text.NatToStringValue` | app/src/main/java/com/hanif/expensetracker/viewmodel/ExpenseReportViewModel.kt:111 | the printed digits read back as the number |
| `Text.ParsePrintedNat` | app/src/main/java/com/hanif/expensetracker/viewmodel/addexpense/ExpenseViewModel.kt:70 | a printed whole number typed as an amount parses back to itself |
| `Text.IntToString` | app/src/main/java/com/hanif/expensetracker/viewmodel/ExpenseReportViewModel.kt:111 | non-empty, signed exactly for a negative number; the digits denote the number's magnitude |
| `AddExpense.ValidateMatchesSaveButton` | app/src/main/java/com/hanif/expensetracker/viewmodel/addexpense/ExpenseViewModel.kt:82-86 | `validate` passes exactly when the save button is enabled; a missing title or amount is reported before a duplicate |
| `AddExpense.NewRecord` | app/src/main/java/com/hanif/expensetracker/viewmodel/addexpense/ExpenseViewModel.kt:66-76 | a record exactly when the amount parses: the title is the trimmed title, parsed amount, notes only when not blank, the form's category and receipt, the booking instant |
| `AddExpense.LonePointPassesValidation` | app/src/main/java/com/hanif/expensetracker/viewmodel/addexpense/ExpenseViewModel.kt:32-34 | the amount "." passes the input filter and `validate`, yet does not parse |
| `AddExpense.ExpenseViewModel.constructor` | app/src/main/java/com/hanif/expensetracker/viewmodel/addexpense/ExpenseViewModel.kt:17-23 | the default form, booking for the current instant, the duplicate query watching that instant |
| `AddExpense.ExpenseViewModel.SetDate` | app/src/main/java/com/hanif/expensetracker/viewmodel/addexpense/ExpenseViewModel.kt:25-27 | only the booking instant changes; the duplicate query keeps its instant |
| `AddExpense.ExpenseViewModel.RefreshDuplicate` | app/src/main/java/com/hanif/expensetracker/viewmodel/addexpense/ExpenseViewModel.kt:44-56 | the flag is set exactly when the title is not blank and a row booked at the watched instant matches title and category up to case; nothing else changes |
| `AddExpense.AstralNotesLimit` | app/src/main/java/com/hanif/expensetracker/viewmodel/addexpense/ExpenseViewModel.kt:36 | notes made only of emoji or other characters above U+FFFF are accepted up to 50 characters |
| `AddExpense.BmpNotesLimit` | app/src/main/java/com/hanif/expensetracker/viewmodel/addexpense/ExpenseViewModel.kt:36 | notes with no character above U+FFFF are accepted up to 100 characters |
| `AddExpense.ExpenseViewModel.OnAction` | app/src/main/java/com/hanif/expensetracker/viewmodel/addexpense/ExpenseViewModel.kt:29-42 | each field action changes its field only; amounts with other characters and notes over 100 UTF-16 code units are refused; a changed title or category re-watches the current instant; `Submit` sends the validation toast or launches the insert |
| `AddExpense.ExpenseViewModel.CompleteSubmit` | app/src/main/java/com/hanif/expensetracker/viewmodel/addexpense/ExpenseViewModel.kt:66-79 | a parsed record with a new key is appended, then the success toast and `ExpenseSaved` are sent; otherwise nothing changes |
| `ExpenseList.StatsDay` | app/src/main/java/com/hanif/expensetracker/viewmodel/expenselisting/ExpenseListViewModel.kt:52-54 | all-time loads have no stats day; others take the day they list unless a today load emits on a later day |
| `ExpenseList.Listed` | app/src/main/java/com/hanif/expensetracker/viewmodel/expenselisting/ExpenseListViewModel.kt:69-73 | latest first; in a coherent zone a day's load lists that day's rows of the table, each exactly as often as in the table, and an all-time load every row, each once |
| `ExpenseList.ListedGroups` | app/src/main/java/com/hanif/expensetracker/viewmodel/expenselisting/ExpenseListViewModel.kt:52-56 | grouped by category: each group holds exactly the listed rows of its category, and count and sum match the flat list |
| `ExpenseList.LoadingState` | app/src/main/java/com/hanif/expensetracker/viewmodel/expenselisting/ExpenseListViewModel.kt:38-46 | loading on, error cleared, filter and date set to what the load asks for, lists and totals kept |
| `ExpenseList.RefreshKeepsFilter` | app/src/main/java/com/hanif/expensetracker/viewmodel/expenselisting/ExpenseListViewModel.kt:217-223 | a refresh keeps the filter and a custom date, and reloads any non-today query shown |
| `ExpenseList.Emission` | app/src/main/java/com/hanif/expensetracker/viewmodel/expenselisting/ExpenseListViewModel.kt:57-84 | an emission ends loading, fills at most one list, keeps filter, date, grouping, error and picker |
| `ExpenseList.EmissionContents` | app/src/main/java/com/hanif/expensetracker/viewmodel/expenselisting/ExpenseListViewModel.kt:50-85 | a grouped load shows the groups, any other the flat list; the totals are those of the stats day |
| `ExpenseList.EmissionTotalsAgree` | app/src/main/java/com/hanif/expensetracker/viewmodel/expenselisting/ExpenseListViewModel.kt:48-89 | when the stats day is the listed day, the totals equal the number and sum of the rows shown |
| `ExpenseList.EmissionKeeps` | app/src/main/java/com/hanif/expensetracker/viewmodel/expenselisting/ExpenseListViewModel.kt:48-89 | any launched load's emission keeps the state consistent and the newest load current |
| `ExpenseList.ExpenseListViewModel.constructor` | app/src/main/java/com/hanif/expensetracker/viewmodel/expenselisting/ExpenseListViewModel.kt:20-22 | the screen starts by loading today's rows ungrouped |
| `ExpenseList.ExpenseListViewModel.StartLoad` | app/src/main/java/com/hanif/expensetracker/viewmodel/expenselisting/ExpenseListViewModel.kt:38-50 | the loading state, and one more launched load with the grouping read at launch |
| `ExpenseList.ExpenseListViewModel.RefreshLoad` | app/src/main/java/com/hanif/expensetracker/viewmodel/expenselisting/ExpenseListViewModel.kt:217-223 | reloads what the filter shows, filter unchanged |
| `ExpenseList.ExpenseListViewModel.ChangeGrouping` | app/src/main/java/com/hanif/expensetracker/viewmodel/expenselisting/ExpenseListViewModel.kt:199-202 | new grouping, then a reload of what the filter shows with that grouping |
| `ExpenseList.ExpenseListViewModel.ChangeFilter` | app/src/main/java/com/hanif/expensetracker/viewmodel/expenselisting/ExpenseListViewModel.kt:204-210 | today and all time load at once; custom date only opens the picker |
| `ExpenseList.ExpenseListViewModel.SelectDate` | app/src/main/java/com/hanif/expensetracker/viewmodel/expenselisting/ExpenseListViewModel.kt:212-215 | the picker closes and that day loads |
| `ExpenseList.ExpenseListViewModel.OnAction` | app/src/main/java/com/hanif/expensetracker/viewmodel/expenselisting/ExpenseListViewModel.kt:24-36 | each action's state change and launched load |
| `ExpenseList.ExpenseListViewModel.LoadEmitted` | app/src/main/java/com/hanif/expensetracker/viewmodel/expenselisting/ExpenseListViewModel.kt:57-84 | any launched load that has not failed may emit; the state becomes its emission and stays consistent; the newest load's emission shows what the filter says |
| `ExpenseList.ExpenseListViewModel.LoadFailed` | app/src/main/java/com/hanif/expensetracker/viewmodel/expenselisting/ExpenseListViewModel.kt:86-88 | loading off, the exception's message (possibly none) as the error; that load emits no more |

## Left out

- File exports (`exportToPdf`, `exportToCsv` and their PDF and CSV writers, ExpenseRepository.kt:192-249) touch the file system and the Android context. The model has only their outcome: a file name, or a failure message.
- Flows and coroutines are modelled as steps. An emission is a method call, made whenever the table changes. Dispatching, scheduling and cancellation are not modelled, and no launched load is ever cancelled.
- `Double` arithmetic is exact `real` arithmetic, so rounding is not modelled. `ReportEngine.PercentagesSumTo100` holds for reals; floating point may miss 100 by a rounding error.
- Int overflow of counts is not modelled: counts are unbounded integers.
- The ISO date text of `LocalDate.toString()` is left abstract as `fmt.date`. The locale-dependent `"%.2f"` and `"%.1f"` amount renderings are likewise abstract, as `fmt.money` and `fmt.oneDecimal`. None of the three is implemented.
- The system clock (`LocalDate.now()`, `System.currentTimeMillis()`) and the device's time zone are parameters.
- The random UUID of a new record is a parameter of `AddExpense.ExpenseViewModel.CompleteSubmit`.
- `generatedAt` of a report is the `now` parameter.
- Text.ParseAmount: models `String.toDouble()` only on text made of digits and points, the only text the amount field admits. Exponents, signs, `NaN`, hexadecimal floats and surrounding whitespace are not modelled.
- `isDigit()` is modelled as ASCII `0`-`9`. Kotlin also accepts other Unicode decimal digits, which `toDouble()` then rejects.
- SQL `LOWER()` maps ASCII letters only, as SQLite's built-in `LOWER()` does without the ICU extension, so the search is case-insensitive for ASCII letters only. `isBlank()` and `trim()` are not restricted this way: they use Kotlin's whole whitespace set.
- Where SQL leaves the order of equal sort keys open, the model picks insertion order: rows with the same `date`, or the same category and `date`.
- AddExpense.ExpenseViewModel.CompleteSubmit: an insert that aborts on a duplicate key, or an amount that `toDouble()` rejects, throws inside the coroutine. No one catches it, so the app crashes. The model states only that nothing is inserted and no event is sent.
- The `"Unknown"` fallback for a null category (ExpenseRepository.kt:107, 167) is never taken, because `category` is a non-null `String`. It is not modelled.
- `ExpenseListEvent` is declared but never sent, and `GroupBy.TIME` groups nothing. The model has no events for the list screen, and it treats `TIME` like `NONE`.
- The repository's `insertExpense` and `deleteExpense` (ExpenseRepository.kt:30-32, 67-69) pass through to the DAO. They are modelled by `Db.ExpenseDao.InsertExpense` and `Db.ExpenseDao.DeleteExpense`.
- The Compose screens, navigation, dependency injection and the Room database setup are not part of this model. The one exception is the save button's enabling condition, which `AddExpense.SaveEnabled` states.
