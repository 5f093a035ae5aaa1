# Personal finance tracker — a Dafny model of its store and derived figures

The application keeps three pieces of state in one store:

- a list of transactions (income or expense, with an amount, category name, date and description);
- a list of categories (income or expense, optionally with a budget limit that is either a fixed amount or a percentage of a base income);
- the base income itself.

Six mutators add, edit and delete transactions and categories. A seventh sets the base income. Every change is written back to browser storage. On start-up the categories and the base income fall back to defaults when nothing usable is stored; the transactions fall back only when nothing is stored at all.

The pages derive figures from this state:

- **Dashboard:** the running-balance chart, the budget overview for the current month, and the five most recent transactions.
- **Planning page:** this month's spending by category, the total allocated against the income, the remainder and the over-allocation flag, the allocation pie chart, and the percentage slider.
- **Insights page:** last month's spending, this month's income, a two-line balance projection, the three largest expense categories, and savings advice.
- **Transactions page:** search and type filtering, the form's guard and its choice between editing and adding, and the category options.
- **Categories page:** the add-category form, the income/expense lists, the all-time spending per category, and the percentage preview.

The Dafny modules follow that structure:

- `FinanceTypes` (`finance_types.dfy`): the records, JavaScript numbers that may be NaN (`Num`), and calendar dates.
- `Seqs` and `StableSort` (`seqs.dfy`, `stable_sort.dfy`): `filter`, `map`, `slice(0, n)`, and a stable sort on an integer key, standing in for `Array.prototype.sort`.
- `Ledger` (`ledger.dfy`): sums, the income and expense totals, the signed running total, and date orders.
- `Aggregation` (`aggregation.dfy`): the by-category accumulator record `acc[t.category] = (acc[t.category] || 0) + t.amount`. It is a loop (`Tally`) proved against the names in first-seen order and the per-name totals.
- `Budget` (`budget.dfy`): a category's limit and allocation, and its spending in a month.
- `FinanceStore` (`finance_store.dfy`): the load fallbacks, the functional updaters and their properties, and the class `Store`.
  - Its methods replace the sequences as the store's setters do.
  - A ghost copy of what was last persisted equals the live state after every method (`Valid`).
- `Dashboard`, `Planning`, `Insights`, `TransactionsPage`, `CategoriesPage`: one module per page.

Modelling decisions:

- Amounts are whole rupiah and are `int`. Limits, percentages, the base income and the projection's budget line are exact `real`s.
- "Now", "today" and the fresh id that `crypto.randomUUID()` would produce are parameters. The fresh id must not already be in use.
- Dates are `(year, month, day)` with no time of day. `new Date(y, m - 1, d)` is modelled with JavaScript's day overflow.
  - On 31 March the window "one month ago" starts on 3 March in a common year (2 March in a leap year).
  - So the period counted as the last month's spending excludes the first days of the current month (`Insights.WindowAtMonthEnd`).
- Three points where the code behaves other than one might expect:
  - A percentage budget with no positive income is allocated its raw limit.
  - The savings rate is 0 when there is no income.
  - Reading the stored transactions has no fallback. An unparsable value throws at load. A value that parses to something other than an array is kept as state, and the first array operation on it throws. The model treats both as a failed load, so the store's constructor requires a successful one.
- An empty `editingId` is falsy in JavaScript, so submitting with it adds a transaction rather than editing one.
- `Object.entries` of the accumulator record is taken in insertion order.

## Model

| member | source | states |
|---|---|---|
| FinanceStore.LoadTransactions | src/context/FinanceContext.tsx:51-54 | an absent value loads the empty list and a stored array loads as it is; an unparsable value, and a non-array value that no page can use, give no usable store and are never replaced by a default |
| FinanceStore.LoadCategoriesFallback | src/context/FinanceContext.tsx:42-64 | without a stored array the store starts from the five seed categories, with distinct ids, two of income type and three of expense type |
| FinanceStore.ReloadRestores | src/context/FinanceContext.tsx:51-86 | reading back what the effects wrote gives the live transactions and categories again; a NaN base income comes back as 0 |
| FinanceStore.LoadBaseIncomeFallback | src/context/FinanceContext.tsx:74-82 | no stored base income, or one that is not a number, starts the store at 0; any other number is taken as it is |
| FinanceStore.Store.Load | src/context/FinanceContext.tsx:51-82 | the store starts with the three loaded values and storage mirrors them |
| FinanceStore.Store.GetBalance | src/context/FinanceContext.tsx:120-134 | the balance is income minus expense and equals the signed total of all transactions |
| FinanceStore.Store.AddTransaction | src/context/FinanceContext.tsx:88-94 | the new transaction with the fresh id goes in front and the old ones follow in order; income or expense (by type) rises by the amount and the other total is unchanged; distinct ids stay distinct; categories and base income are untouched |
| FinanceStore.EditById | src/context/FinanceContext.tsx:96-98 | same length; each entry with the id is replaced by the new fields under that id, every other entry is kept |
| FinanceStore.EditProperties | src/context/FinanceContext.tsx:96-98 | the id sequence is unchanged; matched entries carry exactly the new data; an unknown id changes nothing; distinct ids stay distinct |
| FinanceStore.EditAt | src/context/FinanceContext.tsx:96-98 | with distinct ids, editing the entry at k replaces that one position and nothing else |
| FinanceStore.TotalsAfterEdit | src/context/FinanceContext.tsx:96-130 | with distinct ids, editing one transaction moves each total by the old entry's contribution out and the new one's in |
| FinanceStore.Store.EditTransaction | src/context/FinanceContext.tsx:96-98 | the transactions become the edited list, the id sequence is kept, distinct ids stay distinct, nothing else changes |
| FinanceStore.RemoveTxProperties | src/context/FinanceContext.tsx:100-102 | no entry with the id remains; every other entry is kept as often as before; deleting twice is deleting once; an unknown id changes nothing |
| FinanceStore.RemoveTxAt | src/context/FinanceContext.tsx:100-102 | with distinct ids, deleting the entry at k cuts out that position and keeps the others in order |
| FinanceStore.TotalsAfterRemove | src/context/FinanceContext.tsx:100-130 | with distinct ids, deleting one transaction lowers its type's total by its amount and leaves the other total |
| FinanceStore.Store.DeleteTransaction | src/context/FinanceContext.tsx:100-102 | the transactions become the filtered list, distinct ids stay distinct, categories and base income are untouched |
| FinanceStore.Store.AddCategory | src/context/FinanceContext.tsx:104-110 | the new category with the fresh id is appended at the end; distinct ids stay distinct; transactions are untouched |
| FinanceTypes.Merge | src/context/FinanceContext.tsx:113 | a merge never changes the id |
| FinanceStore.MergeFields | src/context/FinanceContext.tsx:112-114 | a merge overwrites exactly the fields present in the patch and keeps the others and the id; the empty patch changes nothing |
| FinanceStore.UpdateCategoryById | src/context/FinanceContext.tsx:112-114 | same length; each category with the id is merged with the patch, every other one is kept |
| FinanceStore.UpdateCategoryProperties | src/context/FinanceContext.tsx:112-114 | every position keeps its id; an unknown id changes nothing; distinct ids stay distinct |
| FinanceStore.UpdateTwice | src/context/FinanceContext.tsx:112-114 | two updates of one id are one update with the later fields winning |
| FinanceStore.Store.UpdateCategory | src/context/FinanceContext.tsx:112-114 | the categories become the updated list, distinct ids stay distinct, transactions and base income are untouched |
| FinanceStore.RemoveCategoryProperties | src/context/FinanceContext.tsx:116-118 | no category with the id remains; every other one is kept as often as before; deleting twice is deleting once; distinct ids stay distinct |
| FinanceStore.Store.DeleteCategory | src/context/FinanceContext.tsx:116-118 | the categories become the filtered list; the transactions, including those naming the deleted category, are unchanged |
| FinanceStore.Store.SetBaseIncome | src/context/FinanceContext.tsx:84-86 | the base income becomes the given number, NaN included, and storage mirrors it; nothing else changes |
| Ledger.TotalsOfPrepend | src/context/FinanceContext.tsx:120-130 | a transaction put in front adds its amount to exactly the total of its type |
| Ledger.SignedSumIsBalance | src/context/FinanceContext.tsx:120-134 | the sum of signed amounts (income positive, expense negative) is income minus expense |
| FinanceTypes.OrdinalOrdersDates | src/pages/Dashboard.tsx:13 | on valid dates the sort key orders exactly as the calendar does and identifies the date |
| StableSort.SortBy | src/pages/Dashboard.tsx:13 | the sort returns a permutation of its input |
| StableSort.SortBySorted | src/pages/Dashboard.tsx:13 | the sort's result is ordered by the key |
| StableSort.SortIsStable | src/pages/Insights.tsx:84 | elements with equal keys keep their input order |
| StableSort.TakeIsStable | src/pages/Insights.tsx:84-85 | the first n elements of the sort hold, for each key, a prefix of that key's elements in input order |
| Ledger.SignedSumSort | src/pages/Dashboard.tsx:12-25 | sorting does not change the signed total |
| Dashboard.RunningBalances | src/pages/Dashboard.tsx:20-25 | one point per item, each with its date, signed amount, absolute amount and the signed total of the items up to and including it; the last point is the signed total of all |
| Dashboard.OldestFirstFacts | src/pages/Dashboard.tsx:12-13 | oldest first is in date order and its signed total is income minus expense |
| Dashboard.BalanceChart | src/pages/Dashboard.tsx:12-25 | the chart has one point per transaction in date order; the k-th balance is the signed total of the first k+1 sorted transactions; the last balance is income minus expense |
| Budget.AllocationRule | src/pages/Dashboard.tsx:183-187 | a fixed budget is allocated its limit; a percentage budget gets that share of a positive income and otherwise its raw limit; a non-negative limit and income allocate a non-negative amount |
| Budget.PercentageWithinIncome | src/pages/Planning.tsx:29-35 | a percentage of at most 100 allocates at most the income and never less for a higher income |
| Dashboard.Utilisation | src/pages/Dashboard.tsx:202 | the percentage is 0 when nothing (or less) is allocated; with a positive allocation it is 100 when spending exceeds it and spent/allocated·100 otherwise; it is never above 100 and never negative for non-negative spending |
| Dashboard.RowMeaning | src/pages/Dashboard.tsx:183-203 | a card's spending is the planning page's spending for the category this month; it is over budget exactly when that exceeds the allocation; its bar shows 0 with nothing allocated, 100 when over a positive allocation, the spent share otherwise, and lies in 0..100 for non-negative amounts |
| Dashboard.OverviewCoversExpenseCategories | src/pages/Dashboard.tsx:180-182 | as many cards as expense categories; every card is for an expense category of the store and is that category's row; every expense category has a card |
| Dashboard.OverviewRowBounds | src/pages/Dashboard.tsx:190-203 | with non-negative amounts each card's spending is non-negative and its percentage lies in 0..100; over budget with a positive allocation shows 100; any spending against a zero allocation is over budget |
| Dashboard.RecentProperties | src/pages/Dashboard.tsx:137-139 | at most five entries, all of them when there are at most five, newest first, drawn from the transactions, none older than one left out |
| Budget.MonthSpentByTwoFilters | src/pages/Planning.tsx:16-24 | filtering the month's expenses and then one category gives the dashboard's spending for that category |
| Aggregation.NamesMembers | src/pages/Planning.tsx:21-24 | the record's keys are exactly the category names that occur, each once |
| Aggregation.Tally | src/pages/Planning.tsx:21-24 | the fold yields the names in first-seen order and maps exactly those names to the sums of their amounts |
| Aggregation.TallyStep | src/pages/Planning.tsx:22 | one step of the fold keeps the record a correct tally of the longer prefix |
| Aggregation.UnnamedTotal | src/pages/Planning.tsx:22 | a name no transaction carries has total 0, so `|| 0` starts it correctly |
| Aggregation.TallyAccountsForAll | src/pages/Planning.tsx:21-24 | the record's totals add up to the sum of all amounts: every transaction is counted once |
| Planning.CategorySpending | src/pages/Planning.tsx:16-24 | a name is a key exactly when some expense of this month carries it, and its value is that category's spending this month |
| Planning.MonthExpenseCategory | src/pages/Planning.tsx:16-20 | a name occurs among this month's expenses exactly when some expense of this month carries it |
| Planning.RemainingAccountsForIncome | src/pages/Planning.tsx:37-38 | the remainder is never negative, is 0 when over budget, and with the allocations makes up the income otherwise |
| Planning.SumAllocationsNonNegative | src/pages/Planning.tsx:29-35 | non-negative limits and income give a non-negative total allocation |
| Planning.TotalAllocatedAfterAdd | src/pages/Planning.tsx:29-35 | adding a category raises the total by its allocation when it is an expense category and leaves it otherwise |
| Planning.TotalAllocatedMatchesDashboard | src/pages/Planning.tsx:29-35 | the planning total is the sum of the allocations on the dashboard's cards |
| Planning.PercentageChangeEffect | src/pages/Planning.tsx:43-48 | the slider makes the category a percentage budget with the new limit and changes no other field; with a positive income that share of it is allocated |
| Planning.HandlePercentageChange | src/pages/Planning.tsx:43-48 | the store's categories become the update with the percentage patch; transactions and base income are untouched |
| Planning.ChartDataShape | src/pages/Planning.tsx:50-62 | every wedge is positive; the chart is the positive category wedges in order, followed by the remainder exactly when something remains |
| Planning.ShowChartWhen | src/pages/Planning.tsx:50-65 | the chart shows exactly when something remains or some category has a positive allocation |
| FinanceTypes.OneMonthBefore | src/pages/Insights.tsx:19 | a valid date strictly before now; the same day of the previous month (December of the year before for January) whenever the previous month has that day, which every day up to 28 does; otherwise, exactly when the previous month is too short, day 1-3 of the current month, the overflow past the previous month's length |
| Insights.WindowCoversCurrentMonth | src/pages/Insights.tsx:19-21 | when the day is at most 28, every date of the current month lies in the window |
| Insights.WindowAtMonthEnd | src/pages/Insights.tsx:19-21 | on 31 March 2025 the window starts on 3 March, so an expense of 2 March is not counted |
| Insights.AvgMonthlyExpenseBounds | src/pages/Insights.tsx:17-30 | with non-negative amounts the windowed expense lies between 0 and all expenses, and is at least this month's expenses when the day is at most 28 |
| Insights.ThisMonthIncomeBounds | src/pages/Insights.tsx:44-51 | with non-negative amounts this month's income lies between 0 and all income |
| Insights.MonthStart | src/pages/Insights.tsx:57 | the i-th projected month is a valid date on day 1 |
| Insights.MonthStartStep | src/pages/Insights.tsx:56-57 | the projected months start at the current month and follow one another, rolling over from December to January of the next year |
| Insights.Project | src/pages/Insights.tsx:53-68 | months+1 points; the i-th carries the i-th month, the balance plus i months of income less spending, and the balance plus i months of income less the budget |
| Insights.ProjectionLines | src/pages/Insights.tsx:39-67 | both lines start at the balance; they differ by i times the monthly saving; the budget line is never below the trend when the budget is at most the spending, which the default suggestion ensures for non-negative spending |
| Insights.ProjectedData | src/pages/Insights.tsx:32-70 | the page's projection comes from the balance, this month's income, the windowed spending and the chosen or suggested budget |
| Aggregation.EntriesMeaning | src/pages/Insights.tsx:79-83 | the entries hold a category with its total exactly when some transaction carries it, hold nothing else, name no category twice, and their totals add up to the sum of all amounts |
| Insights.TopExpenses | src/pages/Insights.tsx:77-86 | the loop-built record, ranked and cut to three, is the entries of the expense record ranked and cut to three |
| Insights.TopExpensesContents | src/pages/Insights.tsx:77-86 | at most three entries, as many as there are expense categories when fewer; each names an expense category with its expense total |
| Insights.TopEntriesOfRecord | src/pages/Insights.tsx:83-85 | the kept entries of any record are among its names, each with its own total |
| Insights.TopEntriesFrom | src/pages/Insights.tsx:83-85 | the ranked top three has min(3, n) entries, each one of the record's entries |
| Insights.RankEntries | src/pages/Insights.tsx:83-85 | ranked largest first; no name twice when the record has none; no entry left out is larger than one kept |
| Insights.RankOrdered | src/pages/Insights.tsx:84 | the ranked entries are non-increasing in total |
| Insights.RankDistinct | src/pages/Insights.tsx:83-84 | ranking keeps distinct names distinct |
| Insights.RankMaximal | src/pages/Insights.tsx:83-85 | every kept entry's total is at least that of any entry left out |
| Insights.NamesDistinct | src/pages/Insights.tsx:79-83 | the record has one entry per name |
| Insights.TopExpensesOrder | src/pages/Insights.tsx:77-86 | largest first, no category twice, and no expense category left out has a larger total than one shown |
| Insights.TopIsLargest | src/pages/Insights.tsx:77-86 | the first of the top expenses is an expense category whose total no other expense category exceeds |
| Insights.RankEntriesTies | src/pages/Insights.tsx:84-85 | among kept entries of one total, those shown are the first ones of that total in record order |
| Insights.TopExpensesTies | src/pages/Insights.tsx:77-86 | expense categories with equal totals appear in the order they were first seen, and those shown are the first ones |
| Insights.SavingsRateMeaning | src/pages/Insights.tsx:92 | with positive income the rate is below or above a share exactly when the saving is below or above that share of the income; with non-negative expense it is at most 1 |
| Insights.Advise | src/pages/Insights.tsx:88-120 | the warning appears exactly below a 10% rate, the praise exactly above 40%, never both; the category tip appears exactly when there is a top category, names it and comes last; each tip at most once, so the list has exactly one savings tip when the rate is below 10% or above 40% plus one category tip when there is a top category; no income always warns |
| Insights.PageAdvice | src/pages/Insights.tsx:88-120 | with the store's income and expense totals, the warning shows exactly below a 10% rate and the praise exactly above 40%; a category tip shows exactly when there are expenses and names an expense category whose total no other exceeds; one savings tip at most plus one category tip at most |
| TransactionsPage.ToLowerMeaning | src/pages/Transactions.tsx:27 | no ASCII capital remains, each capital becomes its own small letter, every other character is kept, and lower-casing twice is lower-casing once |
| TransactionsPage.IncludesTrivial | src/pages/Transactions.tsx:27 | every description includes the empty search term and itself |
| TransactionsPage.IncludesShorter | src/pages/Transactions.tsx:27 | a string never includes a longer one |
| TransactionsPage.SearchIgnoresCase | src/pages/Transactions.tsx:27 | lower-casing the search term first changes no match |
| TransactionsPage.FilteredTransactionsProperties | src/pages/Transactions.tsx:26-30 | the list holds each matching transaction as often as the store does and nothing else, newest first |
| TransactionsPage.UnfilteredIsPermutation | src/pages/Transactions.tsx:26-30 | with no search term and all types the list is a reordering of all transactions |
| TransactionsPage.SubmitDecisionRules | src/pages/Transactions.tsx:44-63 | nothing is called exactly when amount, description or category is empty; an edit is called exactly when a non-empty id is being edited; the call carries the form's fields; a submit that passes the guard closes and resets the form |
| TransactionsPage.Submit | src/pages/Transactions.tsx:44-63 | on the store: no change, the edit, or the add with the fresh id, as decided; categories and base income are untouched |
| TransactionsPage.EditRoundTrip | src/pages/Transactions.tsx:65-75 | opening a transaction and submitting it unchanged edits it back to itself |
| TransactionsPage.CategoryOptionsProperties | src/pages/Transactions.tsx:77-79 | one option per category of the form's type in order, captioned and valued by its name; a name is offered exactly when such a category has it |
| CategoriesPage.SubmitDataRules | src/pages/Categories.tsx:24-44 | nothing is added exactly when the name is empty; otherwise name, type, colour and budget type pass through, the icon is unset and an empty limit becomes 0; the form resets to the defaults |
| CategoriesPage.SubmittedAllocation | src/pages/Categories.tsx:28-34 | the added category is allocated its limit (0 when empty), or that share of a positive income for a percentage budget |
| CategoriesPage.SubmitCategory | src/pages/Categories.tsx:24-44 | on the store: nothing, or the category with the fresh id appended; transactions and base income are untouched |
| CategoriesPage.SelectBudgetTypeEffect | src/pages/Categories.tsx:192-200 | switching the budget type empties the limit and changes nothing else, so a submit right after stores 0 |
| CategoriesPage.PreviewIsAllocation | src/pages/Categories.tsx:215-224 | the preview shows exactly for a percentage budget with a limit and a positive income, equals what the dashboard will allocate, and never shows with the income hint |
| CategoriesPage.CategoryListsPartition | src/pages/Categories.tsx:46-47 | the two lists together hold every category once, each list only its own type |
| CategoriesPage.CategorySpending | src/pages/Categories.tsx:53-58 | a name is a key exactly when some expense, of any date, carries it, and its value is that category's expense total |
| CategoriesPage.ExpenseCategory | src/pages/Categories.tsx:53-54 | a name occurs among the expenses exactly when some expense carries it |
| CategoriesPage.CategorySpendingTotals | src/pages/Categories.tsx:53-58 | the per-category spending adds up to the total expense; with non-negative amounts a category's all-time spending is at least its spending in any month |

## Left out

- Rendering, styling, the chart and form components, routing and layout carry no logic of their own.
- React's state cells and effects are not modelled as such. The store applies each functional updater directly, and the persistence effects are the ghost mirror checked by `Valid`.
- `localStorage`, `JSON.parse` and `JSON.stringify` are not modelled. A stored value is given as what parsing made of it.
- The settings page (export, import, reset) is file and storage plumbing.
- `crypto.randomUUID()`, the clock and the locale are parameters or left out. Date labels (`toLocaleDateString`) and currency formatting are not modelled.
- Dates are compared by calendar day. Parsing of ISO strings, time of day and time zones are not modelled.
- Dashboard.BalanceChart: the in-place `sort` also reorders the store's own array. Only the sorted result is modelled, not that aliasing.
- TransactionsPage.ToLower: only ASCII letters are folded. Full Unicode case mapping is not modelled.
- Numbers are exact integers and reals. IEEE-754 rounding, and NaN in amounts and budget limits, are not modelled.
- A non-numeric entry in a number field is not modelled. Such a field is either empty (`None`) or holds a number.
- `Object.entries` lists integer-like keys first. The model keeps insertion order for every key.
- Aggregation.Tally: every category name starts from 0 as a fresh key. In the source the accumulator `{}` inherits from `Object.prototype`, which the model ignores. So a category named `constructor`, `toString` or `hasOwnProperty` starts from a function and its total becomes a string concatenation. `__proto__` is not stored as an own key, so `Object.entries` drops it.
- FinanceStore.LoadTransactions: a stored value that parses to a non-array is, in the source, kept as state and written back, and it fails only at the first array operation a page applies. The model treats it as a failed load, like an unparsable value.
- Planning's income field and its input handlers only call `setBaseIncome`, which is modelled.
- The projection-months selector only sets the loop bound, which is a parameter.
