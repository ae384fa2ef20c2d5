# Financial dashboard: state model and aggregations

A model of the personal finance dashboard in `financial-app.tsx`. The dashboard keeps
twelve monthly salaries and twelve monthly expense lists. Two handlers change them:
"add expense" appends an entry to the selected month, and "record salary" overwrites that
month's salary. From this state it derives three things:

- the summary cards: total salaries, total expenses and the balance;
- a twelve-row monthly table, which feeds the bar and line charts;
- a per-category breakdown, which feeds the pie chart.

The model has three modules:

- `aggregates.dfy` (module `Aggregates`) holds the entities: `Expense`, `Stats`, `MonthRow`
  and `Category`. It also holds the derived views as pure functions over sequences. Each
  sum is a left fold, in the shape of the source's `reduce`. Amounts are integer cents,
  so the summation identities hold exactly. Its lemmas prove these properties:
  - the monthly table's column sums are the summary figures;
  - appending an entry moves exactly one month's row, the matching name's total and the
    totals by that entry's amount;
  - setting a salary replaces the old value in the totals, rather than adding to it;
  - the category totals partition total expenses.
- `categories.dfy` (module `Categories`) models the category breakdown as the source
  builds it: nested loops fill a dictionary from name to running total, and its entries
  are then listed. The methods are proved against the functions above. The breakdown has
  one slice per distinct exact name, in first-occurrence order, and each slice holds that
  name's total over all months. The names are distinct and are exactly the names that
  occur. A separate lemma proves that the values add up to total expenses.
- `financial_app.dfy` (module `FinancialApp`) holds the `FinancialState` class. Its two
  arrays have twelve slots, and the class also holds the selected month, the active
  view, the form fields and the notification banner. The class has the two handlers, the
  form setters, the month selector and the view toggle. The module also defines the view
  toggle as a function and the pie palette's cyclic colour choice.

Two points of the source's behaviour, followed as written:

- The expense handler rejects only an empty name or an empty amount field. The field is
  a number input, so a non-numeric entry reaches the handler as empty. Zero and negative
  amounts are accepted, as they are for salaries.
- The category computation in the source cannot run as written. A stray identifier
  `sya` follows its nested loop (`financial-app.tsx:74`), and evaluating it raises a
  reference error on every render of the dashboard. `Categories.ExpenseCategories`
  models the evidently intended computation: the loop, then the listing of the entries.
  The crash itself is not modelled.

## Model

| member | source | states |
|---|---|---|
| `Aggregates.FinancialStats` | financial-app.tsx:48-58 | balance is total salaries minus total expenses, and total expenses equals the sum of every entry of the year taken at once |
| `Aggregates.AllExpensesTotal` | financial-app.tsx:50-52 | summing the months' totals month by month equals summing all entries of all months in visiting order |
| `Aggregates.MonthlyData` | financial-app.tsx:48-66 | the salary, expense and balance columns of the twelve-row table sum to the three summary cards, so the row balances add up to the global balance; row i carries month label i, salary i, the total of month i's amounts and their difference |
| `Aggregates.AddExpenseStats` | financial-app.tsx:83-88 | appending an entry to month m raises total expenses by its amount, lowers the balance by the same and leaves total salaries unchanged |
| `Aggregates.AddExpenseMonthly` | financial-app.tsx:60-66 | after appending to month m, row m's expenses rise and its balance falls by the amount; the other eleven rows are unchanged |
| `Aggregates.AddExpenseCategory` | financial-app.tsx:68-73 | after appending an entry, the total of its exact name rises by its amount and every other name's total is unchanged |
| `Aggregates.SetSalaryStats` | financial-app.tsx:98-100 | setting month m's salary to v changes total salaries and balance by v minus the old salary (replace, not add); total expenses unchanged |
| `Aggregates.SetSalaryMonthly` | financial-app.tsx:60-66 | after setting month m's salary to v, row m holds salary v and balance v minus its expenses; other rows unchanged |
| `Aggregates.CategoryNamesDistinct` | financial-app.tsx:69-75 | each category name appears once in the breakdown |
| `Aggregates.CategoryNamesMembers` | financial-app.tsx:70-73 | a name is a category exactly when some entry of some month carries that exact name |
| `Aggregates.NameTotalAbsent` | financial-app.tsx:72 | a name no entry carries totals zero, which is the value a new key's running total starts from |
| `Aggregates.CategoriesPartition` | financial-app.tsx:68-75 | summed over the distinct names, the per-name totals equal the total of all entries |
| `Categories.TallyStep` | financial-app.tsx:72 | counting one more entry keeps the dictionary exact: a new name starts from zero and joins the key order at the end, a known name adds the amount to its running total |
| `Categories.TallyMonth` | financial-app.tsx:71-73 | after the inner loop over one month's entries, the dictionary and its key order describe everything counted before plus that month's entries |
| `Categories.TallyCategories` | financial-app.tsx:69-74 | after the nested loop, the keys in insertion order are the distinct names in first-occurrence order; a name is a key exactly when some entry carries it; its value is the sum of that name's amounts across all months |
| `Categories.ExpenseCategories` | financial-app.tsx:68-76 | the breakdown has one slice per distinct exact name, in first-occurrence order; each value is the sum of that name's amounts across all months; no name appears twice |
| `Categories.CategoriesSumToTotal` | financial-app.tsx:68-76 | the values of such a breakdown add up to total expenses, the figure on the summary card |
| `Aggregates.RowTotalsOfMonths` | financial-app.tsx:60-66 | a table whose rows carry each month's salary, expense total and their difference has column sums equal to total salaries, total expenses and their difference |
| `FinancialApp.Toggled` | financial-app.tsx:281 | the toggle always leads to the other view |
| `FinancialApp.ToggleTwice` | financial-app.tsx:281 | two toggles restore the original view |
| `FinancialApp.CellColor` | financial-app.tsx:166-168 | the colour chosen by `index % 5` is always a palette entry, and the first five slices take the palette in order |
| `FinancialApp.CellColorCycles` | financial-app.tsx:167 | slice colours repeat with period five |
| `FinancialApp.FinancialState.constructor` | financial-app.tsx:24-30 | twelve salaries all zero, twelve empty expense lists, January selected, dashboard view, empty forms, hidden banner |
| `FinancialApp.InitialViewsEmpty` | financial-app.tsx:24-25 | the initial state has zero totals, zero balance and no categories |
| `FinancialApp.FinancialState.SetExpenseName` | financial-app.tsx:202 | the expense-name field takes the typed text; nothing else changes |
| `FinancialApp.FinancialState.SetExpenseAmount` | financial-app.tsx:209 | the expense-amount field takes the typed value; nothing else changes |
| `FinancialApp.FinancialState.SetSalaryInput` | financial-app.tsx:219 | the salary field takes the typed value; nothing else changes |
| `FinancialApp.FinancialState.SelectMonth` | financial-app.tsx:269 | the selected month becomes the chosen one of the twelve; nothing else changes |
| `FinancialApp.FinancialState.ToggleView` | financial-app.tsx:281 | the active view flips; nothing else changes |
| `FinancialApp.FinancialState.AddExpense` | financial-app.tsx:78-91 | empty name or amount: expenses and form unchanged, error banner. Otherwise: the entry is appended at the end of the selected month's list, the other months are unchanged, the form is cleared and a success banner is shown. Salaries lie outside its frame, and both arrays keep twelve slots |
| `FinancialApp.FinancialState.AddSalary` | financial-app.tsx:93-103 | empty field: salaries and field unchanged, error banner. Otherwise: the selected month's salary is replaced by the value, the other months are unchanged, the field is cleared and a success banner is shown. Expenses lie outside its frame, and both arrays keep twelve slots |

## Left out

- Rendering: the JSX, the recharts bar, line and pie charts, and the UI-kit components (`financial-app.tsx:105-298`). They are view plumbing over libraries outside this model.
- The dark-mode flag and its effect on the document root (`financial-app.tsx:23`, `39-41`). They are DOM side effects with no bearing on the data.
- The banner's automatic hiding after three seconds (`financial-app.tsx:45`). It is an asynchronous timer. Each handler sets the banner synchronously, and the later clear is not modelled. So the case where a stale timer hides a newer banner is not modelled either.
- `parseFloat` on the form fields and `toFixed(2)` formatting. A numeric field is modelled as `NumberInput`: either `Blank` (the empty string the handlers test for) or an already parsed amount in integer cents. Floating-point rounding of the sums is therefore not modelled.
- Categories.ExpenseCategories: it lists the slices in first-occurrence order. A JavaScript object lists integer-like keys (such as "42") first, in ascending numeric order, and the model does not capture that. Names that clash with members of `Object.prototype` (such as "constructor") are treated as ordinary names, whereas the source would start such a total from the inherited member. For "__proto__" the assignment at `financial-app.tsx:72` goes to the prototype setter, which ignores a number, so that name gets no slice at all in the source.
- Categories.ExpenseCategories: it takes the expense lists as a value (`seq`), the way the source's memoised computation receives the current state, so the aggregates are not tied to the class's arrays in place. The reference error raised by the stray `sya` at `financial-app.tsx:74` is not modelled.
- The monthly-detail screen (`financial-app.tsx:236-247`) is rendering. Its figures are the selected month's salary and `Aggregates.MonthTotal` of its list, both of which are modelled.
