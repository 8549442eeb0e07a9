# FinTrack ledger core in Dafny

This project models the ledger and aggregation core of FinTrack, a small React personal-finance
tracker. In the application a user keeps a list of income and expense transactions. Each transaction
belongs to a spending category, and each category sits in a 50/30/20 group (need, want, saving) or in
the income group.

The model covers:

- **Data and seed (`types.dfy`, `constants.dfy`).** The entities, the eight seed categories, the five
  payment methods and the four seed transactions.
- **Store (`app.dfy`).** Prepend a transaction, delete by id, append a category, merge-update a
  category, clear all transactions, select a tab.
- **Totals (`aggregation.dfy`).** Income, expenses and balance. They are defined once and used by the
  dashboard, the history view and the PDF statement.
- **Dashboard (`dashboard.dfy`).** The hide-balance rule, the seven-day expense trend, the three most
  recent transactions and the category-icon fallback.
- **History (`history_view.dfy`).** The month/year filter, its statistics and the month and year
  picker.
- **Transaction list (`transaction_list.dfy`).** The group-by-date reduce, the newest-first sort of the
  dates and the row fallbacks.
- **Transaction form (`transaction_form.dfy`).** The submit validation, the transaction it builds and the
  reset.
- **Category manager (`category_manager.dfy`).** Category creation, the non-income list, budget and
  colour edits, and the group labels.
- **CSV export (`data_view.dfy`).** The export and its read-back.
- **Settings (`settings_view.dfy`).** The initials, the two toggles and the field editor.
- **PDF statement (`export_pdf.dfy`).** The values handed to the PDF library.
- **Landing page (`landing_page.dfy`).** The login and registration checks.

Supporting modules:

- `options.dfy`, `seqs.dfy`: `Option` and a `filter` with its algebra.
- `text.dfy`: `trim`, case mapping, `split` and `join`.
- `numbers.dfy`: decimal digits, `parseFloat`, `parseInt` and `String(number)`.
- `dates.dfy`: ISO `YYYY-MM-DD` dates, the previous day, formatting and parsing.

Modelling conventions:

- **Money is integer cents** (`45.5` is `4550`), so every sum is exact.
- **Renamed fields.** Two fields are Dafny keywords, so `Transaction.type` is `kind` and
  `Transaction.method` is `paymentMethod`.
- **Dates stay strings** in transactions, as in the application. They are read as (year, month, day)
  triples where a component interprets them.
- **Injected values.** The current day, generated ids, the user's confirmation and the browser's
  storage keys are parameters.
- **Mutable state is modelled as classes.** The React state that components replace is a class:
  `App.Ledger`, `HistoryView.MonthPicker`, `TransactionForm.Form`, `CategoryManager.Manager`,
  `SettingsView.Settings` and `LandingPage.Landing`. The group-by-date reduce, which fills a dictionary
  step by step, is a method with a loop.

Three points of the code shape what the model states:

- **Blank descriptions.** The form refuses to submit a description that is blank after trimming
  (`components/TransactionForm.tsx:26`); no default label is put in its place.
- **CSV category.** The CSV export has no category column (`components/DataView.tsx:12-21`), so the
  proved round trip recovers every field but the category.
- **Budget alerts.** `BudgetAlert` is declared (`types.ts:45-51`) but nothing computes it.

## Model

| member | source | states |
|---|---|---|
| Types.TypeName | types.ts:2-5 | a transaction type is one of exactly two values, `EXPENSE` and `INCOME`, and renders as the income one exactly for income |
| Constants.InitialCategoriesShape | constants.tsx:4-13 | eight seed categories with pairwise distinct ids |
| Constants.InitialCategoryGroups | constants.tsx:5-12 | exactly one income-group category, `income-cat`, with budget 0; every other seed category has a positive budget |
| Constants.PaymentMethodsShape | constants.tsx:15-21 | five payment methods, the first `Cartão Débito` |
| Constants.InitialTransactionsResolve | constants.tsx:23-28 | four seed transactions, each with a positive amount and a category that resolves; income uses the income-group category and expenses use other groups |
| Constants.SeedResolvesAt | constants.tsx:24-27 | the same for one seed transaction: its category is found and its group agrees with its type |
| Constants.InitialTotals | constants.tsx:23-28 | the seed totals: income 250000, expenses 81149, balance 168851 cents |
| Constants.SummaryOfFour | constants.tsx:23-28 | the totals of a four-element list are the sum of the four contributions |
| Aggregation.OfKind | components/Dashboard.tsx:15-16 | the filter keeps exactly the transactions of the given type |
| Aggregation.Summary | components/Dashboard.tsx:15-17 | balance is income minus expenses and equals the sum of the signed amounts; the empty list gives 0, 0, 0 |
| Aggregation.SumAmountsConcat | components/Dashboard.tsx:15-16 | the amount sum of a concatenation is the sum of the parts' sums |
| Aggregation.BalanceIsNetFlow | components/Dashboard.tsx:15-17 | income minus expenses equals the sum of signed amounts (the reference definition of the balance) |
| Aggregation.IncomePlusExpenses | components/Dashboard.tsx:15-16 | every transaction is counted in exactly one of the two totals: they add up to the sum of all amounts |
| Aggregation.SummaryConcat | components/Dashboard.tsx:15-17 | the totals of a concatenation are the componentwise sums of the parts' totals |
| Aggregation.KindConcat | components/Dashboard.tsx:15-16 | the per-type sum of a concatenation is the sum of the parts' per-type sums |
| Aggregation.SummaryPrepend | App.tsx:31 | prepending a transaction adds exactly its own contribution to the totals |
| Aggregation.TotalsNonNegative | components/Dashboard.tsx:15-16 | with positive amounts neither income nor expenses is negative |
| Aggregation.FindCategory | components/Dashboard.tsx:116 | `find` returns a category of the list with that id, and nothing exactly when no category has it |
| Aggregation.FindCategoryFirst | components/Dashboard.tsx:116 | `find` returns the first category carrying the id |
| Aggregation.CategoryField | components/Dashboard.tsx:116-126 | the field of the category the id resolves to; the fallback when the id does not resolve or the field is empty; never empty |
| Aggregation.SignPrefix | components/TransactionList.tsx:64 | the sign is `+` exactly for income and `-` otherwise |
| App.Merge | App.tsx:85 | `{...c, ...up}`: a field present in the patch wins, an absent one keeps its value |
| App.MergeNoChange | App.tsx:85 | an empty patch changes nothing |
| App.MergeIdempotent | App.tsx:85 | applying a patch twice is applying it once |
| App.Without | App.tsx:35 | delete keeps exactly the transactions with another id, and never lengthens the list |
| App.WithoutConcat | App.tsx:35 | delete distributes over concatenation, so the survivors keep their relative order |
| App.WithoutAbsent | App.tsx:35 | deleting an id no transaction has leaves the list unchanged |
| App.WithoutIdempotent | App.tsx:35 | deleting twice is deleting once |
| App.WithId | App.tsx:35 | the transactions a delete removes are exactly those with the id |
| App.DeleteBalance | App.tsx:35 | a delete lowers the balance by exactly the net flow of the removed transactions |
| App.NetFlowConcat | App.tsx:35 | the signed sum of a concatenation is the sum of the parts' signed sums |
| App.UpdateCategories | App.tsx:85 | the update keeps length and order, merges the patch into matching entries and leaves the others untouched |
| App.UpdateAbsent | App.tsx:85 | an update for an id no category has changes nothing |
| App.UpdateKeepsIds | App.tsx:85 | a patch without an id keeps every category's id |
| App.Ledger.constructor | App.tsx:14-16 | the store starts on the home tab with the seed categories and transactions |
| App.Ledger.AddTransaction | App.tsx:30-33 | the new transaction is put in front of the unchanged old list, the totals grow by its contribution, the home tab is shown and the categories are unchanged |
| App.Ledger.DeleteTransaction | App.tsx:35 | the list becomes the filtered list, and the balance drops by the removed transactions' net flow |
| App.Ledger.AddCategory | App.tsx:84 | the category is appended after the unchanged old categories |
| App.Ledger.UpdateCategory | App.tsx:85 | the categories become the merge-updated list |
| App.Ledger.ClearTransactions | components/DataView.tsx:35-37 | once confirmed the list is empty and all totals are zero; unconfirmed it is unchanged |
| App.Ledger.SelectTab | App.tsx:97-110 | a navigation button sets the active tab |
| Dashboard.FormatValue | components/Dashboard.tsx:29-32 | the figure is masked exactly when the balance is hidden; otherwise it is the value itself, in the profile's currency or `EUR` when none is set |
| Dashboard.ExpensesOnNone | components/Dashboard.tsx:25 | a day without any expense gives 0 |
| Dashboard.ExpensesOnCons | components/Dashboard.tsx:25 | a transaction adds its amount to its own day only, and only if it is an expense |
| Dashboard.TrendAt | components/Dashboard.tsx:20-25 | point `i` is the day `6 - i` days before today, a formattable date |
| Dashboard.Trend | components/Dashboard.tsx:19-27 | exactly seven points; point `i` is the day `6 - i` days back, and its value is the sum of the expenses dated exactly that day |
| Dashboard.TrendChronological | components/Dashboard.tsx:19-21 | the days run strictly forward in time and the last one is today |
| Dashboard.TrendDaysOrdered | components/Dashboard.tsx:19-21 | an earlier point is on a strictly earlier day |
| Dashboard.Window | components/Dashboard.tsx:22 | the seven ISO day strings the transactions are compared with |
| Dashboard.WindowDistinct | components/Dashboard.tsx:22 | the seven day strings are pairwise different |
| Dashboard.TrendIgnoresIncome | components/Dashboard.tsx:25 | adding an income transaction leaves every point of the trend unchanged |
| Dashboard.HitsDistinct | components/Dashboard.tsx:25 | over distinct days, a transaction is counted once if it is an expense on one of them, and otherwise not at all |
| Dashboard.OverDaysEmpty | components/Dashboard.tsx:25 | no transactions, no expenses on any day |
| Dashboard.OverDaysCons | components/Dashboard.tsx:25 | one more transaction adds exactly what it contributes to the days |
| Dashboard.OverDaysIsFilter | components/Dashboard.tsx:25 | over distinct days, the per-day expenses add up to the expenses dated on any of those days |
| Dashboard.TrendTotalOverDays | components/Dashboard.tsx:19-27 | the chart's sum is the per-day expenses summed over its days |
| Dashboard.TrendTotalIsWindowExpenses | components/Dashboard.tsx:19-27 | the chart's values add up to the expenses dated within the week: none is counted twice, income never |
| Dashboard.Recent | components/Dashboard.tsx:115 | the first `min(3, n)` transactions, in list order |
| Dashboard.RecentAfterAdd | components/Dashboard.tsx:115 | a transaction just added shows first, followed by the two that led before |
| Dashboard.RecentRowOf | components/Dashboard.tsx:116-134 | a recent row hides the amount exactly when the balance is hidden; otherwise it shows the amount with `+` exactly for income; the icon is the category's icon, or `fa-tag` when the category is missing or has none, and the description is the transaction's |
| Dashboard.BalanceCard | components/Dashboard.tsx:46-73 | three figures, all masked when hidden; otherwise balance, income and expenses, the income figure being the summed income and the expenses figure the summed expenses, with the balance equal to income minus expenses and to the net flow |
| HistoryView.Filtered | components/HistoryView.tsx:22-27 | keeps exactly the transactions whose date falls in the selected month and year, never lengthens the list |
| HistoryView.FilteredConcat | components/HistoryView.tsx:22-27 | the filter distributes over concatenation: list order is preserved |
| HistoryView.FilteredIdempotent | components/HistoryView.tsx:22-27 | filtering the filtered list again changes nothing |
| HistoryView.OneMonth | components/HistoryView.tsx:24-25 | a readable date belongs to exactly its own month (an index 0..11 into the month table) and year |
| HistoryView.FilteredOutOfRange | components/HistoryView.tsx:7-10 | a month index outside 0..11 selects nothing |
| HistoryView.Stats | components/HistoryView.tsx:29-33 | income minus expenses of the month is the net flow of the month's transactions; a month without transactions gives 0, 0 |
| HistoryView.NoneInMonth | components/HistoryView.tsx:22-27 | the month's filtered list is empty exactly when no transaction falls in the month |
| HistoryView.StatsAfterAdd | components/HistoryView.tsx:29-33 | a new transaction moves its own month's statistics by its amount on the side of its type, and no other month's |
| HistoryView.FilteredCons | components/HistoryView.tsx:22-27 | a transaction put in front joins the month's list, at its head, exactly when it falls in the month; the rest is the month's list of the others |
| HistoryView.AddInMonth | components/HistoryView.tsx:29-33 | a new transaction of the month adds its contribution to the month's income and expenses |
| HistoryView.AddOutOfMonth | components/HistoryView.tsx:29-33 | a new transaction of another month leaves the month's statistics unchanged |
| HistoryView.MonthPicker.constructor | components/HistoryView.tsx:19-20 | the picker opens on today's month (0-based) and year |
| HistoryView.MonthPicker.PrevYear | components/HistoryView.tsx:39 | one year back, month kept in range |
| HistoryView.MonthPicker.NextYear | components/HistoryView.tsx:43 | one year on, month kept in range |
| HistoryView.MonthPicker.SelectMonth | components/HistoryView.tsx:50-53 | a month button selects its index |
| TransactionList.OnDate | components/TransactionList.tsx:16-21 | exactly the transactions of that date |
| TransactionList.DistinctDates | components/TransactionList.tsx:16-21 | the key order: each date once, and exactly the dates of the list |
| TransactionList.OnDateSnoc | components/TransactionList.tsx:19 | one more transaction at the end extends only its own date's group, at its end |
| TransactionList.OnDateAbsent | components/TransactionList.tsx:18 | a date not in the list has no transactions |
| TransactionList.DistinctDatesSnoc | components/TransactionList.tsx:18 | a date is added to the key order the first time it is met |
| TransactionList.GroupStep | components/TransactionList.tsx:17-19 | one step of the reduce keeps the dictionary equal to the groups of the prefix read so far |
| TransactionList.GroupAfterStep | components/TransactionList.tsx:17-19 | the same, key by key |
| TransactionList.DateSetSnoc | components/TransactionList.tsx:16-21 | the dates of a list with one more transaction |
| TransactionList.AddToGroup | components/TransactionList.tsx:17-20 | the reduce body: creates a missing group and appends the transaction, keeping keys and groups those of the longer prefix |
| TransactionList.GroupByDate | components/TransactionList.tsx:16-21 | the keys are exactly the distinct dates, in order of first occurrence, and each group holds exactly that date's transactions in list order |
| TransactionList.SizeSumSnocTransaction | components/TransactionList.tsx:16-21 | one more transaction adds one to each listed occurrence of its date |
| TransactionList.SizeSumSnocDay | components/TransactionList.tsx:16-21 | one more day adds its group's size |
| TransactionList.GroupSizes | components/TransactionList.tsx:16-21 | every transaction lands in exactly one group: the group sizes add up to the list's length |
| TransactionList.EmptyStateIffNoGroups | components/TransactionList.tsx:79 | the empty state shows exactly when there is no group |
| TransactionList.Rank | components/TransactionList.tsx:23 | the sort key: a readable date ranks by its day's ordinal, above -1; an unreadable date ranks -1, below every readable one |
| TransactionList.ConsSorted | components/TransactionList.tsx:23 | a head no smaller than the rest keeps a sorted list sorted |
| TransactionList.SortedHeadBound | components/TransactionList.tsx:23 | the head of a sorted list is no smaller than anything after it |
| TransactionList.InsertDescBy | components/TransactionList.tsx:23 | insertion keeps the list sorted and adds exactly the new element |
| TransactionList.SortDescBy | components/TransactionList.tsx:23 | the result is sorted largest first and is a permutation of the input |
| TransactionList.SortDatesDesc | components/TransactionList.tsx:23 | the dates in non-increasing order, a permutation of the keys |
| TransactionList.SortedNewestFirst | components/TransactionList.tsx:23 | of two readable dates, the one listed first is never older |
| TransactionList.UnreadableLast | components/TransactionList.tsx:23 | in the sorted keys, no readable date follows an unreadable one |
| TransactionList.RowOf | components/TransactionList.tsx:48-64 | the sign is `+` exactly for income, the amount is the transaction's, colour and icon are the category's when it has them and fall back to `#ccc` and `fa-tag` when the category is missing or the field is empty, and the description and payment method are the transaction's |
| TransactionForm.BlankForm | components/TransactionForm.tsx:13-21 | no amount, an expense, the first category or none, today, the first payment method, no description, not recurring |
| TransactionForm.Submission | components/TransactionForm.tsx:25-36 | a transaction is emitted exactly when the amount is non-empty, numeric and positive, a category is chosen and the trimmed description is not empty; it carries the parsed amount, the trimmed description and the other fields as typed |
| TransactionForm.SubmissionTrimmed | components/TransactionForm.tsx:34 | resubmitting the emitted description yields the same transaction: it is already trimmed |
| TransactionForm.Form.constructor | components/TransactionForm.tsx:13-21 | the form starts blank |
| TransactionForm.Form.SetKind | components/TransactionForm.tsx:55-61 | the type buttons change the type only |
| TransactionForm.Form.SetAmount | components/TransactionForm.tsx:72 | the amount input changes the amount only |
| TransactionForm.Form.SetCategory | components/TransactionForm.tsx:86 | the category select changes the category only |
| TransactionForm.Form.SetDescription | components/TransactionForm.tsx:101 | the description input changes the description only |
| TransactionForm.Form.SetDate | components/TransactionForm.tsx:108 | the date input changes the date only |
| TransactionForm.Form.SetPaymentMethod | components/TransactionForm.tsx:111 | the method select changes the payment method only |
| TransactionForm.Form.Submit | components/TransactionForm.tsx:23-47 | emits the submission; a rejected form emits nothing and keeps its state; an accepted one emits a non-recurring transaction and resets to the blank form |
| CategoryManager.BudgetOf | components/CategoryManager.tsx:78 | the parsed cents, or 0 for text `parseFloat` cannot read |
| CategoryManager.GroupLabel | components/CategoryManager.tsx:100 | `Necessidade` exactly for need, `Desejo` exactly for want, `Poupança` for every other group |
| CategoryManager.Listed | components/CategoryManager.tsx:90 | exactly the non-income categories |
| CategoryManager.ListedAfterAppend | components/CategoryManager.tsx:90 | a newly added category shows at the end of the list unless it is an income category |
| CategoryManager.BudgetEdit | components/CategoryManager.tsx:113 | a budget edit changes only the edited category's budget, to 0 for unreadable input |
| CategoryManager.ColorEdit | components/CategoryManager.tsx:121-124 | a swatch click changes only that category's colour |
| CategoryManager.Manager.constructor | components/CategoryManager.tsx:12-18 | the form starts closed with the blank draft (empty name, want, 0, `#6366F1`) |
| CategoryManager.Manager.ToggleAdd | components/CategoryManager.tsx:40 | the button flips whether the form is open |
| CategoryManager.Manager.SetName | components/CategoryManager.tsx:56 | the name input changes the name only |
| CategoryManager.Manager.SetGroup | components/CategoryManager.tsx:65-70 | the select offers only need, want and saving, and changes the group only |
| CategoryManager.Manager.SetBudget | components/CategoryManager.tsx:78 | the budget input sets the parsed budget, 0 for unreadable text |
| CategoryManager.Manager.HandleAdd | components/CategoryManager.tsx:20-33 | an empty name creates nothing and changes nothing; otherwise a category with icon `fa-tag` and the draft's name, colour, group and budget is created, never in the income group, and the draft resets and the form closes |
| DataView.RecurringText | components/DataView.tsx:20 | `Sim` exactly when recurring, otherwise `Não` |
| DataView.Row | components/DataView.tsx:13-21 | a transaction's line has as many fields as the header |
| DataView.Lines | components/DataView.tsx:12-21 | the header, then one line per transaction in list order |
| DataView.LineTexts | components/DataView.tsx:24 | each line's fields joined by `,` |
| DataView.CsvContent | components/DataView.tsx:23-24 | the data-URI prefix followed by the lines joined by a line break (the settings screen builds the same content, `components/SettingsView.tsx:18-20`) |
| DataView.CsvFileName | components/DataView.tsx:29 | characters 0-15 are `fintrack_export_`, characters 16-25 the ISO text of the day, and the rest is `.csv` |
| DataView.ReadRow | components/DataView.tsx:13-21 | a reader of the export's lines, which accepts only seven fields |
| DataView.RowPlain | components/DataView.tsx:13-21 | the generated fields (amount, type, recurring) never hold a comma or a line break |
| DataView.ReadRowOfRow | components/DataView.tsx:13-21 | a transaction's line reads back as the transaction without its category |
| DataView.RowDescribes | components/DataView.tsx:13-21 | the fields of a line carry the transaction's values |
| DataView.RowTextFields | components/DataView.tsx:13-21 | every field but the amount carries its value as text |
| DataView.RowAmountParses | components/DataView.tsx:17 | the amount field parses back to the amount |
| DataView.ReadRowFields | components/DataView.tsx:13-21 | fields that describe a record read back as that record |
| DataView.LinePlain | components/DataView.tsx:24 | a line of plain fields has no line break and splits back into its fields |
| DataView.CsvRoundTrip | components/DataView.tsx:12-24 | when no free-text field holds a comma or a line break, the content splits into n+1 lines, the first is the header and each other reads back as its transaction |
| DataView.LineReadsBack | components/DataView.tsx:13-24 | the line of the i-th transaction reads back as it |
| SettingsView.FirstChars | components/SettingsView.tsx:33 | no more characters than pieces |
| SettingsView.Initials | components/SettingsView.tsx:33 | at most two characters |
| SettingsView.FirstCharsSkipsEmpty | components/SettingsView.tsx:33 | an empty piece contributes nothing: the first characters are those of the non-empty pieces alone |
| SettingsView.InitialsOfName | components/SettingsView.tsx:33 | for any name, including leading, trailing or doubled spaces, the initials are the upper-cased first letters of its first two non-empty words, as many as there are such words up to two |
| SettingsView.InitialsLeadingSpace | components/SettingsView.tsx:33 | ` Ana` gives `A` |
| SettingsView.InitialsEmptyName | components/SettingsView.tsx:33 | the empty name gives no initials |
| SettingsView.InitialsDoubledSpace | components/SettingsView.tsx:33 | `a  b` gives `AB` |
| SettingsView.FirstCharsOfWords | components/SettingsView.tsx:33 | for non-empty words, the first character of each, in order |
| SettingsView.InitialsOfWords | components/SettingsView.tsx:33 | for a name of space-separated words, the upper-cased first letters of the first two words |
| SettingsView.ToggleDarkMode | components/SettingsView.tsx:53 | flips dark mode and keeps every other field |
| SettingsView.ToggleHideBalance | components/SettingsView.tsx:55 | flips the hide flag and keeps every other field |
| SettingsView.TogglesAreInvolutions | components/SettingsView.tsx:53-55 | toggling twice restores the profile |
| SettingsView.EditField | components/SettingsView.tsx:78-81 | the text replaces only the edited field; the age goes through `parseInt` and is not-a-number for text without leading digits |
| SettingsView.EditFieldIdempotent | components/SettingsView.tsx:81 | committing the same edit twice is committing it once |
| SettingsView.Settings.constructor | components/SettingsView.tsx:15 | the profile as given, no editor open |
| SettingsView.Settings.ToggleDark | components/SettingsView.tsx:53 | the profile becomes the toggled profile |
| SettingsView.Settings.ToggleHide | components/SettingsView.tsx:55 | the profile becomes the toggled profile |
| SettingsView.Settings.BeginEdit | components/SettingsView.tsx:44-46 | an edit button opens the editor on its field |
| SettingsView.Settings.CommitEdit | components/SettingsView.tsx:78-83 | Enter commits the text to the open field and closes the editor |
| SettingsView.Settings.CloseEditor | components/SettingsView.tsx:86-87 | Cancelar and Salvar both close the editor, leaving the profile as it is |
| ExportPdf.BalanceColor | utils/exportPdf.ts:74 | the primary colour exactly when the balance is not negative, red exactly when it is |
| ExportPdf.ColumnWidthsFitHead | utils/exportPdf.ts:95-116 | one width per header column; only the description column is `auto` |
| ExportPdf.DateCell | utils/exportPdf.ts:81 | a readable date prints as a two-digit day, `/`, a two-digit month, `/` and the year without padding (it starts with `0` only when it is the single digit `0`), and each part reads back as that day, month and year; any other text prints as `Invalid Date` |
| ExportPdf.DayMonthYearShowsDate | utils/exportPdf.ts:81 | the `dd/mm/y…` text of a calendar day reads back as its day, month and year |
| Numbers.NatTextNoLeadingZero | utils/exportPdf.ts:81 | the decimal text of a number starts with `0` only when the number is 0, written as one digit |
| ExportPdf.DateCellInjective | utils/exportPdf.ts:81 | two readable dates that print alike are the same day |
| ExportPdf.TypeLabel | utils/exportPdf.ts:84 | `Receita` exactly for income, `Despesa` exactly for an expense |
| ExportPdf.TableRow | utils/exportPdf.ts:78-91 | six cells matching the header; the first is the date cell, then the description and, fifth, the payment method; the category cell is the category's name, or `Geral` when the id does not resolve; the amount is signed `+` exactly for income and bold exactly for income |
| ExportPdf.TableData | utils/exportPdf.ts:78-91 | one row per transaction, in list order |
| ExportPdf.TableMatchesBalance | utils/exportPdf.ts:46-91 | the table's signed amounts add up to the balance printed above it |
| ExportPdf.FileName | utils/exportPdf.ts:128 | characters 0-23 are `Finance-Tracker_Extrato_`, characters 24-33 the ISO text of the day, and the rest is `.pdf` |
| ExportPdf.BuildReport | utils/exportPdf.ts:46-48 | the statement's totals are the dashboard's totals of the same list, the balance colour follows its sign, one row per transaction, the table's signed amounts add up to the balance, and the file name is the day's statement name |
| LandingPage.CleanIdempotent | components/LandingPage.tsx:23 | cleaning a cleaned name changes nothing |
| LandingPage.SameUser | components/LandingPage.tsx:16-18 | names that clean alike name the same stored user |
| LandingPage.Evaluate | components/LandingPage.tsx:20-51 | login happens exactly when the cleaned name is not empty and, when registering, the name is free, the password has at least 4 characters and matches its confirmation, or, when logging in, the user exists; then with the cleaned name and the password; an empty name is refused with its message |
| LandingPage.RegistrationOrder | components/LandingPage.tsx:30-42 | registration checks run in order: taken name, then short password, then mismatch |
| LandingPage.LoginUnknown | components/LandingPage.tsx:43-47 | a login is refused exactly when the user is unknown, with that message |
| LandingPage.KnownUser | components/LandingPage.tsx:30-50 | a stored user cannot register again under any casing or padding, and logs in with any password |
| LandingPage.Landing.constructor | components/LandingPage.tsx:10-14 | empty fields, login mode, no error |
| LandingPage.Landing.SetUsername | components/LandingPage.tsx:89 | the username input |
| LandingPage.Landing.SetPassword | components/LandingPage.tsx:99 | the password input |
| LandingPage.Landing.SetConfirmPassword | components/LandingPage.tsx:160 | the confirmation input |
| LandingPage.Landing.Submit | components/LandingPage.tsx:20-51 | the error is set to the first failing check's message and nothing is handed on, or it stays clear and the cleaned name and password are handed to `onLogin` |
| LandingPage.Landing.SwitchToRegister | components/LandingPage.tsx:120 | registration mode, error and password cleared |
| LandingPage.Landing.SwitchToLogin | components/LandingPage.tsx:179 | login mode, error cleared |
| Dates.ParseFormatIso | components/Dashboard.tsx:22 | reading back a formatted ISO date gives the date |
| Dates.FormatIsoInjective | components/Dashboard.tsx:22 | different days are written differently |
| Dates.PrevDay | components/Dashboard.tsx:21 | the day before is a valid, strictly earlier day, in the same year or on 31 December of the year before |
| Dates.PrevDayAdjacent | components/Dashboard.tsx:21 | no valid day lies strictly between the day before and the day: it is the day immediately before |
| Dates.DaysBackMonotone | components/Dashboard.tsx:21 | going further back gives a strictly earlier day |
| Dates.OrdinalOrder | components/TransactionList.tsx:23 | the numeric date key orders valid dates as the calendar does |
| Numbers.ParseAmountText | components/DataView.tsx:17 | `parseFloat(String(amount))` gives the amount back |
| Text.TrimIdempotent | components/TransactionForm.tsx:34 | trimming twice is trimming once |
| Text.SplitJoin | components/DataView.tsx:24 | splitting a join of separator-free parts gives the parts back |

## Left out

- **Persistence.** The `localStorage` reads and writes are left out (`App.tsx:18-28`,
  `components/DataView.tsx:38-39`). The landing page sees storage as the set of keys it holds.
- **Rendering.** The JSX rendering, animations, charts and styling are left out. So is the weekday
  label of each trend point (`toLocaleDateString` with a weekday).
- **Browser primitives.** The download plumbing (`encodeURI`, link creation) is left out; the model
  stops at the CSV content and the file names. `confirm()` is a boolean parameter and
  `crypto.randomUUID()` an id parameter.
- **jsPDF.** All drawing is left out: positions, fonts, the page footer and the cover text. Only the
  totals, the balance colour, the table rows, the column widths and the file name are modelled.
- **Clock and time zone.** `new Date()` is a `today` parameter. Date strings are read as UTC calendar
  days, as `new Date("YYYY-MM-DD")` does. The local-time `getMonth`/`getFullYear` and
  `toLocaleDateString` are taken to agree with UTC. Lenient parsing of other date shapes by the
  JavaScript engine is not modelled: only `YYYY-MM-DD` is readable.
- Dashboard.Trend: requires a year between 1 and 9999. `toISOString` writes other years in an
  extended six-digit form, which is not modelled.
- TransactionList.SortDatesDesc: puts unreadable dates last. The source's comparator yields `NaN`
  for them, so their position depends on the JavaScript engine.
- TransactionList.GroupByDate: `Object.keys` would list integer-like keys first. Such keys cannot
  be ISO dates, and the result is sorted afterwards anyway, so key order is taken as insertion order.
  The dictionary is a plain object, so a date equal to an inherited member name (`constructor`,
  `toString`, `__proto__`) would make `acc[date].push` throw (`components/TransactionList.tsx:18-19`).
  The model's map has no inherited keys. The date input cannot produce such names.
- **Number formatting.** `toLocaleString` and `toFixed` are not modelled. `Dashboard.FormatValue`
  returns the value and the currency code, not the formatted text.
- Numbers.ParseCents: models `parseFloat` on whole cents. Digits after the second decimal are cut
  off, not rounded. Reading stops at an exponent, so `1e3` reads as 1.00 (100 cents) where
  `parseFloat` gives 1000. `Infinity` and hexadecimal prefixes (for `parseInt`) are not modelled.
- TransactionForm.Submission: amounts go through `Numbers.ParseCents`. Text with an exponent gives a
  smaller amount than the source would. An amount below one cent, such as `0.001`, reads as 0 and is
  refused, where the source accepts it because it is positive (`components/TransactionForm.tsx:25-26`).
- CategoryManager.BudgetOf: budgets go through `Numbers.ParseCents` too. Text with an exponent gives
  a smaller budget than the source would, and a budget below one cent becomes 0
  (`components/CategoryManager.tsx:78`, `components/CategoryManager.tsx:113`).
- Text.Lower: case mapping is limited to ASCII letters.
- Text.Upper: case mapping is limited to ASCII letters.
- Text.IsSpace: lists the common white-space characters that `trim` removes, not every Unicode
  space separator.
- LandingPage.Evaluate: counts password length in characters, not UTF-16 code units.
- SettingsView.Initials: takes whole characters where the source's `n[0]` and `slice(0, 2)` take UTF-16
  code units. For a name that starts with a character outside the Basic Multilingual Plane (an emoji,
  say) the source shows half a surrogate pair; the model shows the whole character.
- **Behaviour the source does not have.** Budget utilisation, budget alerts (`BudgetAlert` is
  declared but never produced) and 50/30/20 group totals are not computed anywhere in the source, so
  they are not modelled.
- **Settings editor.** The Salvar button only closes the editor; only Enter commits an edit
  (`components/SettingsView.tsx:78-87`).
- **Transaction form.** No control sets `isRecurring`, so the form always submits non-recurring
  transactions; the model keeps this as the form's invariant.
- **Landing page.** The login does not check the password. This is the source's behaviour, and it is
  modelled as such.
- **Settings export.** The settings screen's CSV export is the same content as the data screen's,
  under the fixed name `fintrack_export.csv`. It is the constant `SettingsView.CsvFileName`, and its
  content is `DataView.CsvContent`.
