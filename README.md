# Expense tracker: a Dafny model of the entry store and its aggregations

The expense tracker is a single React component. A form edits a draft expense
(category, amount and description, all held as text). The "Add Expense" button
records the draft as an entry in an in-memory list and clears the form. Four
views are derived from the list: the expense history (each entry's category
and amount, rendering only), the total spending, the spending per category
and a line chart of the amounts.

This project models that logic in three modules:

- `Expenses` (`expenses.dfy`): the category list, the draft, the entry, and the
  change handlers' effect on the draft (`WithField`).
- `Aggregation` (`aggregation.dfy`): the total (`TotalSpending`, a left fold),
  the per-category breakdown as a fold (`CategorySpending`), the same breakdown
  computed by a loop that updates an accumulator map
  (`CalculateCategorySpending`), the order in which the breakdown lists its
  categories (`DistinctCategories`), and the chart's points (`TrendSeries`).
- `Tracker` (`tracker.dfy`): the component's state as a class `ExpenseTracker`
  with fields `monthlyBudget`, `expenses` and `newExpense`. It has a
  constructor, `UpdateDraft` (the three `onChange` handlers) and `AddExpense`.
  Three scenario methods drive the class through the refusal path, a first
  entry, and a draft that the guard lets through unchecked.

Two inputs of the original are taken as parameters: the clock reading
(`now`, the ISO-8601 string of `new Date().toISOString()`) and the
number parser (`parse: string -> real`, standing for `parseFloat`). Every
property below holds for every parser and every timestamp. Amounts are exact
`real` numbers.

`addExpense` checks only that the category and amount texts are non-empty
(`src/ExpenseTrackerApp.js:32`). It checks neither that the category is one
of `CATEGORIES` nor that the amount parses. `setMonthlyBudget` is declared
(line 23) and never called, so `AddExpense` never changes `monthlyBudget`.
`UncheckedDraftScenario` shows a draft with category "Rent" (not in
`CATEGORIES`) and amount text "abc" being recorded. The handler lets these
through, but the form's controls never supply them: the category control is a
select offering only "" and the `CATEGORIES` names (lines 117-128), and the
amount control is a number input (lines 129-135).

## Model

| member | source | states |
|---|---|---|
| Expenses.WithField | src/ExpenseTrackerApp.js:119-140 | a change handler sets its own draft field to the new text and leaves the other two fields as they were |
| Expenses.WithFieldOwnValue | src/ExpenseTrackerApp.js:119-140 | writing back the text a control already shows leaves the draft unchanged |
| Expenses.WithFieldLastWins | src/ExpenseTrackerApp.js:119-140 | of two successive changes to one control only the last is kept |
| Expenses.WithFieldCommutes | src/ExpenseTrackerApp.js:119-140 | changes to two different controls give the same draft in either order |
| Aggregation.TotalSpendingEmpty | src/ExpenseTrackerApp.js:52-54 | the total of an empty list is 0 |
| Aggregation.TotalSpendingAppend | src/ExpenseTrackerApp.js:52-54 | appending an entry raises the total by exactly that entry's amount |
| Aggregation.TotalSpendingConcat | src/ExpenseTrackerApp.js:52-54 | the total of a concatenation is the sum of the two totals |
| Aggregation.TotalSpendingPermutation | src/ExpenseTrackerApp.js:52-54 | two lists holding the same entries in any order have the same total |
| Aggregation.OfCategoryOnly | src/ExpenseTrackerApp.js:58 | the entries filtered for a category all carry that category |
| Aggregation.OfCategoryCounts | src/ExpenseTrackerApp.js:58 | the filter for a category keeps every entry of that category as often as it occurs in the list, and no entry of another category |
| Aggregation.CategorySpendingKeys | src/ExpenseTrackerApp.js:56-61 | the breakdown has a key for exactly the categories occurring in the list |
| Aggregation.CategorySpendingValue | src/ExpenseTrackerApp.js:56-61 | the breakdown's value for any category is the total of that category's entries (absent, i.e. 0, when there are none) |
| Aggregation.CalculateCategorySpending | src/ExpenseTrackerApp.js:56-61 | the in-place accumulator loop returns the fold's map: keys are the occurring categories, each value the total of that category's entries |
| Aggregation.DistinctCategoriesListsKeys | src/ExpenseTrackerApp.js:92 | the breakdown rows, in first-seen order, list every key of the breakdown exactly once |
| Aggregation.CategorySpendingSumsToTotal | src/ExpenseTrackerApp.js:52-61 | the per-category totals add up to the total spending |
| Aggregation.CategorySpendingSample | src/ExpenseTrackerApp.js:56-61 | Food 10, Food 5 and Shopping 20 give exactly {Food: 15, Shopping: 20} |
| Aggregation.TrendSeries | src/ExpenseTrackerApp.js:150-157 | the chart has one point per entry, in list order, with the entry's date on the x axis and its amount on the y axis |
| Aggregation.TrendSeriesAppend | src/ExpenseTrackerApp.js:150 | recording an entry adds exactly one chart point, at the end |
| Tracker.ExpenseTracker.constructor | src/ExpenseTrackerApp.js:23-29 | the component starts with budget 5000, no expenses and the all-empty draft |
| Tracker.ExpenseTracker.UpdateDraft | src/ExpenseTrackerApp.js:117-142 | a control's change replaces only its own draft field and leaves the list untouched |
| Tracker.ExpenseTracker.AddExpense | src/ExpenseTrackerApp.js:31-50 | refuses, changing nothing, exactly when category or amount text is empty; otherwise appends one entry (draft category and description, parsed amount, the given date) after the unchanged earlier entries and resets the draft to all-empty; the budget never changes; the total rises by the new amount and the chart gains one point |
| Tracker.MissingCategoryScenario | src/ExpenseTrackerApp.js:32-35 | an amount without a category is refused; the list stays empty and the draft keeps its amount |
| Tracker.FirstEntryScenario | src/ExpenseTrackerApp.js:31-61 | recording Groceries 42.50 into an empty tracker gives total 42.50 and the breakdown {Groceries: 42.50} |
| Tracker.UncheckedDraftScenario | src/ExpenseTrackerApp.js:32 | the add handler's guard records a category outside CATEGORIES and an amount text that is not a number (texts the form's select and number input never supply) |

## Left out

- Rendering: the JSX layout, the `Card` and `Button` components
  (`src/components/ui/button.jsx` only composes CSS class names), and the
  `toFixed(2)` formatting of amounts.
- The recharts line chart itself. The model keeps only what it is given: the
  list of expenses, read through its `date` and `amount` keys (`TrendSeries`).
- The `alert` shown on refusal. It is modelled as `AddExpense` returning
  `false` and changing nothing.
- The clock. `new Date().toISOString()` becomes the `now` parameter, so the
  model says nothing about dates growing over time.
- `parseFloat` and floating point. The parser is the `parse` parameter, and
  amounts are exact reals. NaN is not modelled. In the original, a NaN amount
  would make the total NaN, while `acc[c] || 0` would restart its category at 0.
  Rounding is not modelled either, which is why `TotalSpendingPermutation`
  holds for reals and not for the original's floating-point sums.
- The budget setter `setMonthlyBudget`. The component declares it and never
  calls it, so the model has no operation for it.
- React's state batching and re-rendering. Each handler is modelled as one
  atomic update of the class's fields.
- The key order of the breakdown object is modelled separately, by
  `DistinctCategories`, rather than inside the `map` value.
- Categories are modelled as plain map keys. This matches the JavaScript
  object accumulator only for the `CATEGORIES` names the select offers. For
  other texts the object differs: a `__proto__` key is never stored, names
  such as `constructor` or `toString` read an inherited function, and
  integer-like names are listed first, in numeric order, rather than in
  first-seen order as `DistinctCategories` lists them.
- The expense history list (lines 74-82) is rendering only: it shows each
  entry's category and formatted amount, in list order.
