# Expense tracker: aggregation and form handlers in Dafny

This project models the logic inside the screens of a React Native expense
tracker that keeps its data in a hosted backend. It covers:

- **Dashboard.** The pie chart groups expenses by category, with an
  `Uncategorized` fallback and a six-colour palette. The bar chart is a fixed
  series of the last seven calendar days, oldest first.
- **Budgets screen.** It builds a table of this month's spending per category
  and attaches it to each budget. For each budget it derives a status (over
  budget, nearly full, on track), a clamped progress value and a clamped
  remaining amount. It also computes the month window its query asks for.
- **Form handlers.** The add-expense, add-budget, edit-expense and quick-add
  forms check their input in a fixed order before issuing one backend write.
  The category manager guards against blank names and has add and delete.
- **Expense list.** It has a delete dialog with a guarded delete, and a
  lookup table of category colours.

Pure code becomes functions and lemmas. The loops become methods with loop
invariants:

- `getCategoryData`'s reduce, proved equal to the reference function
  `CategoryData`;
- `getWeeklyData`'s `for` loop, proved equal to the reference function
  `Series`;
- the budgets screen's `expensesByCategory` reduce, proved to yield a table
  that meets the predicate `IsSpendingTable`: exactly the categories present,
  each with its `SpentIn` sum.

Each screen whose handlers update React state becomes a class. Its fields are
that state, and its methods are the handlers.

The responses the handlers get are method parameters:

- the session's user;
- the backend's answers;
- `parseFloat` and the number-to-string conversion;
- the clock.

A handler's other effects go to a ghost `effects` log, oldest first:

- each request it sends, with the `loading` flag at that moment;
- navigation back;
- the `onExpenseAdded` callback;
- alerts.

So "no write when a check fails", "loading is set before the write" and
"the callback fires once" become postconditions.

## Modules

- `Records`: the rows (`Expense`, `Budget`, `Category`) and a backend answer
  (`Response`). It also has the key a JavaScript object stores a possibly-null
  category under, and the left-to-right amount sum `SumIf`.
- `Calendar`: `new Date(year, month, day)` as far as the budgets screen uses
  it. Months carry into years, and day 0 is the last day of the month before.
- `Dashboard`: `getCategoryData` and `getWeeklyData`.
- `Budgets`: the month window, `expensesByCategory`, `budgetWithSpending`,
  `getBudgetStatus`, progress and remaining, and `fetchBudgetData`.
- `Forms`: the messages, the check chains of the forms, and the backend
  requests and effects.
- `AddExpense`, `AddBudget`, `EditExpense`, `QuickAdd`, `ExpensesList`,
  `ManageCategories`: one module per screen or component.

## Behaviour of the code worth knowing

- **Which categories fall back.** Only a missing or empty category goes to
  `Uncategorized` (`expense.category || 'Uncategorized'`). A category name
  that no category record carries any more is a bucket of its own.
- **Amount arithmetic.** The code adds JavaScript numbers. The model uses
  `real` and so leaves out the rounding.
- **Month-to-date total.** No screen computes a month-to-date total, so the
  model has none.
- **The month window.** The budgets query's upper bound is 00:00 on the
  month's last day, not its end (see Findings).

## Model

| member | source | states |
|---|---|---|
| Dashboard.UncategorizedFallback | src/screens/DashboardScreen.js:59 | A missing category, an empty one and the literal "Uncategorized" all go to the "Uncategorized" bucket. Any other category is its own bucket, and no bucket name is empty. |
| Dashboard.TallyWellFormed | src/screens/DashboardScreen.js:58-62 | The reduce's dictionary never lists a key twice. Its listed keys are exactly its keys. |
| Dashboard.TallyKeys | src/screens/DashboardScreen.js:58-62 | The dictionary has a key exactly for each bucket that some expense falls in. |
| Dashboard.TallyValues | src/screens/DashboardScreen.js:58-62 | Every key's total is the sum of the amounts of the expenses in that bucket. |
| Dashboard.TallyPartition | src/screens/DashboardScreen.js:58-62 | The totals over all keys add up to the sum of all amounts, so the grouping is a partition. |
| Dashboard.TallyOrder | src/screens/DashboardScreen.js:58-65 | The keys are listed in the order of each bucket's first occurrence among the expenses. |
| Dashboard.CategoryDataBuckets | src/screens/DashboardScreen.js:57-71 | No expenses give no slices. Slice names are distinct, and a name appears exactly when it is some expense's bucket. Each slice's population is that bucket's sum. |
| Dashboard.CategoryDataPartition | src/screens/DashboardScreen.js:57-71 | The populations of the slices add up to the sum of all amounts. |
| Dashboard.CategoryDataOrder | src/screens/DashboardScreen.js:65 | Slices come in the order of each bucket's first occurrence. |
| Dashboard.CategoryDataColors | src/screens/DashboardScreen.js:64-68 | Slice i gets palette colour i mod 6, so colours repeat with period 6. |
| Dashboard.GetCategoryData | src/screens/DashboardScreen.js:57-72 | The loop over the expenses that builds the dictionary in place yields the slices of the reference definition. |
| Dashboard.GetWeeklyData | src/screens/DashboardScreen.js:74-88 | There are always exactly 7 labels and 7 values. Entry k is for the day today - 6 + k, so the oldest comes first and the last entry is today. Entry k's value is that day's sum of amounts. |
| Dashboard.DayWithoutExpenses | src/screens/DashboardScreen.js:82-84 | A day with no expense dated on it has total 0. |
| Dashboard.UnparseableDateOnNoDay | src/screens/DashboardScreen.js:82-84 | An expense whose date does not parse adds to no day's total. It still adds its amount to its category's total. |
| Dashboard.SeriesCountsEachExpenseOnce | src/screens/DashboardScreen.js:78-86 | The values of a run of days add up to the sum over the expenses dated within those days. So each expense is counted on at most one day. |
| Dashboard.WeekLabels | src/screens/DashboardScreen.js:78-81 | The last label is today's weekday. When today is a Wednesday, the labels run Thu, Fri, Sat, Sun, Mon, Tue, Wed. |
| Calendar.DaysInMonth | src/screens/BudgetsScreen.js:28 | A month has 28 to 31 days. February has 29 exactly in a leap year. |
| Calendar.MakeDate | src/screens/BudgetsScreen.js:27-28 | `new Date(y, m, d)` is a valid date. For d > 0 it is day d of month m mod 12 of year y + m div 12. |
| Calendar.DayZeroIsLastDay | src/screens/BudgetsScreen.js:28 | Day 0 of month m + 1 is the last day of month m, December included. |
| Budgets.MonthWindow | src/screens/BudgetsScreen.js:26-28 | The window as written runs from 00:00 on day 1 to 00:00 on the last day of the current month, and the lower bound is not after the upper one. |
| Budgets.MonthWindowMissesLastDay | src/screens/BudgetsScreen.js:26-32 | An instant one millisecond after midnight on the month's last day is in the month. It is outside the window as written. |
| Budgets.MonthWindowCorrected | src/screens/BudgetsScreen.js:26-32 | The corrected window has the same lower bound. A valid instant is inside it exactly when it falls in the current month. |
| Budgets.SpentWithoutExpenses | src/screens/BudgetsScreen.js:41-48 | A category that no expense carries has spent 0. |
| Budgets.ExpensesByCategory | src/screens/BudgetsScreen.js:41-44 | The reduce yields a table with a key for exactly each category among the expenses, a null category under "null". Under each key it stores the sum of that category's amounts. |
| Budgets.WithSpending | src/screens/BudgetsScreen.js:46-49 | There is one row per budget, in the same order. Each row copies its budget unchanged. |
| Budgets.WithSpendingIsSpentIn | src/screens/BudgetsScreen.js:41-49 | Every budget's `spent` is the sum of the month's amounts in its category, or 0 when there are none. |
| Budgets.RatioAtLeast | src/screens/BudgetsScreen.js:62 | For a positive budget, the ratio reaches k exactly when spending reaches k times the budget. |
| Budgets.GetBudgetStatus | src/screens/BudgetsScreen.js:61-66 | Over budget exactly when spent >= budget. Nearly full exactly when 0.8 budget <= spent < budget. On track exactly when spent < 0.8 budget. A budget of 0 or less is always on track. |
| Budgets.Progress | src/screens/BudgetsScreen.js:69 | Progress is at most 1, and at least 0 when spending is not negative. It is 0 for a budget of 0 or less. It is 1 exactly when spending meets a positive budget, and otherwise spent divided by the amount. |
| Budgets.Remaining | src/screens/BudgetsScreen.js:71 | Remaining is never negative, and is 0 exactly when spending meets or exceeds the amount. Otherwise spent plus remaining is the amount. |
| Budgets.BudgetsScreen.constructor | src/screens/BudgetsScreen.js:9-11 | No budgets, not loading, no error. |
| Budgets.BudgetsScreen.FetchBudgetData | src/screens/BudgetsScreen.js:15-53 | `loading` ends false on every path. No user gives "User not found" and no query. Every query carries the user and the month window as written (`MonthWindow`). If either fetch fails, the list is kept and the error is the budgets message if non-empty, else the expenses message, if any. Otherwise the list is one row per fetched budget with its month's spending, and there is no error. |
| Forms.CheckAddForm | src/screens/AddExpenseScreen.js:41-59 | The checks run category, then user, then amount > 0, and the first failure's message is the verdict. They accept exactly a selected category, a user and a positive parsed amount, and the accepted values are those. |
| Forms.CheckEditForm | src/screens/EditExpenseScreen.js:43-54 | The checks run category, then amount > 0, with no check of the user. They accept exactly a selected category and a positive amount. |
| Forms.EditIsAddWhenLoggedIn | src/screens/EditExpenseScreen.js:43-54 | For a logged-in user, the edit checks decide as the add checks do. |
| AddExpense.AddExpenseScreen.constructor | src/screens/AddExpenseScreen.js:8-13 | The form is empty, with no category, not loading and no error. |
| AddExpense.AddExpenseScreen.HandleSave | src/screens/AddExpenseScreen.js:37-77 | `loading` ends false and the fields are kept. A failed check sets its message and writes nothing. Otherwise exactly one insert goes out while loading, carrying the amount, category, description, user and time. On success the screen navigates back; on failure the error is the backend's message. |
| AddBudget.UpsertLength | src/screens/AddBudgetScreen.js:61-67 | An upsert adds a row only for a new (user, category) key. Otherwise it replaces the amount. |
| AddBudget.UpsertAmounts | src/screens/AddBudgetScreen.js:61-67 | After an upsert the key holds the new amount, and every other key holds what it held. |
| AddBudget.UpsertKeys | src/screens/AddBudgetScreen.js:61-67 | An upsert adds its key to the table's keys and no other. |
| AddBudget.UpsertKeepsKeysUnique | src/screens/AddBudgetScreen.js:61-67 | An upsert keeps the (user, category) keys unique. |
| AddBudget.UpsertTwice | src/screens/AddBudgetScreen.js:61-67 | Saving the same category twice gives the same table as saving it once with the second amount. |
| AddBudget.AddBudgetScreen.constructor | src/screens/AddBudgetScreen.js:9-13 | No category, an empty amount, not loading and no error. |
| AddBudget.AddBudgetScreen.HandleSave | src/screens/AddBudgetScreen.js:37-75 | The same check chain with the form's own login message. `loading` ends false. One upsert keyed on user and category goes out only after every check passes. Success navigates back, and failure shows the backend's message. |
| EditExpense.ApplyUpdate | src/screens/EditExpenseScreen.js:56-63 | The update changes only amount, category and description, and only in the rows with the edited id. Id, user and date are untouched everywhere. |
| EditExpense.UpdateTwice | src/screens/EditExpenseScreen.js:56-63 | Of two updates of the same row, the later one wins. |
| EditExpense.UpdateWithOwnValues | src/screens/EditExpenseScreen.js:56-63 | Writing a row's own values leaves the table unchanged. |
| EditExpense.UntouchedFormPasses | src/screens/EditExpenseScreen.js:10-54 | If the amount's text parses back to the amount, a form left as initialised passes its checks with the expense's own values. |
| EditExpense.EditExpenseScreen.constructor | src/screens/EditExpenseScreen.js:8-15 | The form starts with the expense's amount as text, its category and its description. It is not loading and has no error. |
| EditExpense.EditExpenseScreen.HandleUpdate | src/screens/EditExpenseScreen.js:39-71 | There is no user check: category comes first, then amount. A failure writes nothing. Otherwise one update of the edited id goes out while loading. `loading` ends false. Success navigates back, and failure shows the backend's message. |
| QuickAdd.QuickAddExpense.constructor | src/components/QuickAddExpense.js:6-13 | The form is empty and the panel collapsed, not loading. |
| QuickAdd.QuickAddExpense.Expand | src/components/QuickAddExpense.js:95 | The plus button expands the panel. |
| QuickAdd.QuickAddExpense.Collapse | src/components/QuickAddExpense.js:112 | The close button collapses the panel. |
| QuickAdd.QuickAddExpense.HandleSave | src/components/QuickAddExpense.js:34-83 | The add-expense check chain and insert, with `loading` ending false. A failed check or insert keeps what was typed. On success the form resets, the error clears and the panel collapses. The callback fires once if the parent passed one, and never on failure. |
| ExpensesList.CategoryColor | src/screens/ExpensesScreen.js:73-83 | The six known categories get their fixed colour. Every other category gets "#64748b", and so does a null one. |
| ExpensesList.CategoryColorsDistinct | src/screens/ExpensesScreen.js:73-83 | A colour other than the default means a known category, and no two categories share one. |
| ExpensesList.ExpensesScreen.constructor | src/screens/ExpensesScreen.js:9-13 | No expenses, no selection, the dialog hidden. |
| ExpensesList.ExpensesScreen.FetchExpenses | src/screens/ExpensesScreen.js:16-39 | `loading` ends false. No user gives "User not found". A failed select keeps the list and shows the message. A successful select replaces the list and clears the error. |
| ExpensesList.ExpensesScreen.ShowDialog | src/screens/ExpensesScreen.js:47-50 | Selects the expense and shows the dialog. |
| ExpensesList.ExpensesScreen.HideDialog | src/screens/ExpensesScreen.js:52-55 | Clears the selection and hides the dialog. The dialog is shown exactly while something is selected. |
| ExpensesList.ExpensesScreen.HandleDelete | src/screens/ExpensesScreen.js:57-71 | With no selection nothing changes. Otherwise one delete of the selected id goes out and the dialog closes, whatever the outcome. A failure shows its message. A success re-fetches the list. |
| ManageCategories.TrimBlank | src/screens/ManageCategoriesScreen.js:38 | A name trims to "" exactly when every character is JavaScript white space, the empty name included. |
| ManageCategories.ManageCategoriesScreen.constructor | src/screens/ManageCategoriesScreen.js:9-11 | No categories, an empty input, not loading. |
| ManageCategories.ManageCategoriesScreen.FetchCategories | src/screens/ManageCategoriesScreen.js:14-29 | `loading` is set on entry and cleared on exit. A failure alerts and keeps the list, and a success replaces it. With no user, reading `user.id` throws and the screen stays loading. |
| ManageCategories.ManageCategoriesScreen.HandleAddCategory | src/screens/ManageCategoriesScreen.js:37-51 | A blank name does nothing. Otherwise the name is inserted untrimmed, as typed. A failure alerts and keeps the input. A success clears the input and re-fetches. |
| ManageCategories.ManageCategoriesScreen.HandleDeleteCategory | src/screens/ManageCategoriesScreen.js:53-64 | One delete by id goes out. A failure alerts and does not re-fetch, and a success re-fetches. |

## Left out

- **Amounts.** Amounts are `real`. JavaScript's binary floating point, its
  rounding in sums and ratios, NaN amounts and `Infinity` are not modelled.
- **String conversions.** `parseFloat` is a parameter `string -> Option<real>`
  where None stands for NaN. The number-to-string conversion of the edit form
  is a parameter too. Neither is defined here.
- **Dates.** Parsing, `toDateString`, time zones, daylight saving and the
  UTC conversion of `toISOString` are not modelled. An expense carries its
  local calendar day as a day number, or None when its date does not parse.
  Two dates match when their day numbers are equal. The month window is in
  local calendar terms.
- **The clock.** `new Date()` is an input: `today` and `now` parameters.
- **Weekday names.** Labels come from `toLocaleDateString(undefined, { weekday: 'short' })`,
  which depends on the locale. The model uses fixed English short names by day
  number, with day 0 (1 January 1970) a Thursday.
- **Chart and list rendering.** JSX rendering, styles and `toFixed(2)` are
  left out. The status colours and labels are kept as data.
- **Object key order and prototype keys.** `Object.keys` lists integer-like
  keys such as "2024" before the others. The model assumes ordinary category
  names and lists keys in insertion order. Prototype names such as
  "constructor" are not treated specially. In JavaScript they would make
  `acc[c] || 0` and `colors[category]` read an inherited function.
- **Descriptions.** A null description in a row is modelled as a string.
- **The backend.** Filters, ordering, row-level security and the conflict
  check are inputs, not modelled. The answers the handlers receive are
  parameters. `AddBudget.Upsert` and `EditExpense.ApplyUpdate` state what the
  upsert and the update mean for the table.
- **Asynchronous timing.** Re-fetch timing from `useEffect` and focus, and
  races between requests in flight, are left out. The re-fetch that the
  delete and add handlers start without awaiting is modelled as running to
  completion inside the handler. That re-fetch writes none of the fields the
  handler writes after starting it, so the final state is the same.
- **Category chip loaders.** The `fetchCategories` that fills the chips of
  the add-expense, add-budget, edit-expense and quick-add forms is not
  modelled. Neither is the dashboard's `fetchExpenses`. They are plain
  selects whose answers the model takes as given.
- **Input setters.** The text-input and chip setters are plain field
  assignments. Callers set the class fields directly.
- **Excluded files.** AuthScreen, SettingsScreen, AppNavigator, the
  supabase client, the theme and App.js are not part of this model.
- Budgets.Progress: the lower bound 0 is proved only for spending that is
  not negative. The code gives a negative progress for negative spending,
  and the model does too.

## Findings

| source | as written | input that shows it | evidently intended | confidence | as-written member | corrected member |
|---|---|---|---|---|---|---|
| src/screens/BudgetsScreen.js:28 | The month's expenses query ends at `new Date(y, m + 1, 0)`, which is 00:00 on the month's last day, and is used with `.lte('date', …)`. The clients write each expense's `date` as a full timestamp (`new Date().toISOString()`); the finding assumes the column keeps the time of day, which the column's type, not shown here, decides. | During January, an expense dated 31 January at 00:00:00.001 or later that day. It is in the month but outside the window, so the budget's `spent` leaves it out. | The window covers the whole last day, up to 23:59:59.999. | not executed | Budgets.MonthWindowMissesLastDay | Budgets.MonthWindowCorrected |
