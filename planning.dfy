/** The budget-planning page: this month's spending per category, the total
    allocated against the base income, what remains, the over-allocation
    flag, the allocation pie chart and the percentage slider. */
module Planning {
  import opened Seqs
  import opened FinanceTypes
  import opened Ledger
  import opened Aggregation
  import opened Budget
  import FinanceStore
  import Dashboard

  /** `categorySpending`: this month's expenses folded into a record keyed by
      category name. A name is a key exactly when some expense of this month
      carries it, and its value is the same month spending the dashboard
      shows for that category. */
  method CategorySpending(transactions: seq<Transaction>, now: Date) returns (spending: map<string, int>)
    ensures forall c :: c in spending <==>
              exists i :: 0 <= i < |transactions| && transactions[i].kind == Expense &&
                          SameMonth(transactions[i].date, now) && transactions[i].category == c
    ensures forall c :: c in spending ==> spending[c] == MonthSpent(transactions, c, now)
  {
    var monthly := Filter(transactions, IsMonthExpense(now));
    var keys;
    keys, spending := Tally(monthly);
    forall c | c in spending ensures spending[c] == MonthSpent(transactions, c, now) {
      MonthSpentByTwoFilters(transactions, c, now);
    }
    forall c ensures c in spending <==>
              exists i :: 0 <= i < |transactions| && transactions[i].kind == Expense &&
                          SameMonth(transactions[i].date, now) && transactions[i].category == c
    {
      MonthExpenseCategory(transactions, now, c);
    }
  }

  /** A name occurs among this month's expenses exactly when some expense of
      this month carries it. */
  lemma MonthExpenseCategory(transactions: seq<Transaction>, now: Date, c: string)
    ensures c in Names(Filter(transactions, IsMonthExpense(now))) <==>
            exists i :: 0 <= i < |transactions| && transactions[i].kind == Expense &&
                        SameMonth(transactions[i].date, now) && transactions[i].category == c
  {
    var monthly := Filter(transactions, IsMonthExpense(now));
    NamesMembers(monthly);
    FilterMembers(transactions, IsMonthExpense(now));
    if c in Names(monthly) {
      var j :| 0 <= j < |monthly| && monthly[j].category == c;
      assert IsMonthExpense(now)(monthly[j]);
      var i :| 0 <= i < |transactions| && transactions[i] == monthly[j];
    }
    if exists i :: 0 <= i < |transactions| && transactions[i].kind == Expense &&
                   SameMonth(transactions[i].date, now) && transactions[i].category == c {
      var i :| 0 <= i < |transactions| && transactions[i].kind == Expense &&
               SameMonth(transactions[i].date, now) && transactions[i].category == c;
      assert IsMonthExpense(now)(transactions[i]);
      var j :| 0 <= j < |monthly| && monthly[j] == transactions[i];
      assert monthly[j].category == c;
    }
  }

  /** The `reduce` that adds up the allocations of a sequence of categories. */
  function SumAllocations(cs: seq<Category>, income: real): real
  {
    if cs == [] then 0.0 else Allocation(cs[0], income) + SumAllocations(cs[1..], income)
  }

  /** `totalAllocated` over the expense categories, with the income coerced
      by `Number(baseIncome) || 0`. */
  function TotalAllocated(categories: seq<Category>, baseIncome: Num): real
  {
    SumAllocations(ExpenseCategories(categories), OrZero(baseIncome))
  }

  /** `Math.max(0, income - totalAllocated)` */
  function RemainingBudget(categories: seq<Category>, baseIncome: Num): real
  {
    var left := OrZero(baseIncome) - TotalAllocated(categories, baseIncome);
    if left > 0.0 then left else 0.0
  }

  /** `totalAllocated > income` */
  predicate IsOverBudget(categories: seq<Category>, baseIncome: Num)
  {
    TotalAllocated(categories, baseIncome) > OrZero(baseIncome)
  }

  /** What remains is never negative; when over budget nothing remains, and
      otherwise the allocations and the remainder add up to the income. */
  lemma RemainingAccountsForIncome(categories: seq<Category>, baseIncome: Num)
    ensures RemainingBudget(categories, baseIncome) >= 0.0
    ensures IsOverBudget(categories, baseIncome) ==> RemainingBudget(categories, baseIncome) == 0.0
    ensures !IsOverBudget(categories, baseIncome) ==>
              TotalAllocated(categories, baseIncome) + RemainingBudget(categories, baseIncome) == OrZero(baseIncome)
    ensures RemainingBudget(categories, baseIncome) > 0.0 ==> !IsOverBudget(categories, baseIncome)
  {
  }

  lemma {:induction false} SumAllocationsAppend(a: seq<Category>, b: seq<Category>, income: real)
    ensures SumAllocations(a + b, income) == SumAllocations(a, income) + SumAllocations(b, income)
  {
    if a == [] {
      assert a + b == b;
    } else {
      assert (a + b)[1..] == a[1..] + b;
      SumAllocationsAppend(a[1..], b, income);
    }
  }

  lemma {:induction false} SumAllocationsNonNegative(cs: seq<Category>, income: real)
    requires income >= 0.0
    requires forall i :: 0 <= i < |cs| ==> Limit(cs[i]) >= 0.0
    ensures SumAllocations(cs, income) >= 0.0
  {
    if cs != [] {
      SumAllocationsNonNegative(cs[1..], income);
      AllocationRule(cs[0], income);
    }
  }

  /** Adding a category (at the end, as the store does) raises the total by
      its allocation when it is an expense category and leaves it alone
      otherwise. */
  lemma TotalAllocatedAfterAdd(categories: seq<Category>, c: Category, baseIncome: Num)
    ensures TotalAllocated(categories + [c], baseIncome)
         == TotalAllocated(categories, baseIncome) + (if c.kind == Expense then Allocation(c, OrZero(baseIncome)) else 0.0)
  {
    FilterAppend(categories, [c], IsCategoryKind(Expense));
    SumAllocationsAppend(ExpenseCategories(categories), Filter([c], IsCategoryKind(Expense)), OrZero(baseIncome));
  }

  function RowAllocations(rows: seq<Dashboard.BudgetRow>): real
  {
    if rows == [] then 0.0 else rows[0].allocation + RowAllocations(rows[1..])
  }

  lemma {:induction false} RowAllocationsOfCategories(cs: seq<Category>, transactions: seq<Transaction>, baseIncome: Num, now: Date)
    ensures RowAllocations(Map(cs, (c: Category) => Dashboard.Row(c, transactions, baseIncome, now)))
         == SumAllocations(cs, OrZero(baseIncome))
  {
    var f := (c: Category) => Dashboard.Row(c, transactions, baseIncome, now);
    if cs != [] {
      RowAllocationsOfCategories(cs[1..], transactions, baseIncome, now);
      assert Map(cs, f)[1..] == Map(cs[1..], f);
    }
  }

  /** The planning total is the sum of the allocations the dashboard shows,
      one per expense category: the two pages apply one rule. */
  lemma TotalAllocatedMatchesDashboard(categories: seq<Category>, transactions: seq<Transaction>, baseIncome: Num, now: Date)
    ensures TotalAllocated(categories, baseIncome)
         == RowAllocations(Dashboard.Overview(categories, transactions, baseIncome, now))
  {
    RowAllocationsOfCategories(ExpenseCategories(categories), transactions, baseIncome, now);
  }

  /** `handlePercentageChange`: the update it sends for a category. */
  function PercentagePatch(percentage: real): CategoryPatch
  {
    CategoryPatch(None, None, None, None, Some(percentage), Some(Percentage))
  }

  /** The slider turns the category into a percentage budget with the new
      limit and leaves every other field as it was; with a positive income
      the allocation is that share of the income. */
  lemma PercentageChangeEffect(c: Category, percentage: real, income: real)
    ensures Merge(c, PercentagePatch(percentage)) == c.(budgetLimit := Some(percentage), budgetType := Some(Percentage))
    ensures income > 0.0 ==> Allocation(Merge(c, PercentagePatch(percentage)), income) == income * percentage / 100.0
  {
  }

  /** `handlePercentageChange(cat, value)` applied through the store. */
  method HandlePercentageChange(store: FinanceStore.Store, cat: Category, percentage: real)
    requires store.Valid()
    modifies store
    ensures store.Valid()
    ensures store.categories == FinanceStore.UpdateCategoryById(old(store.categories), cat.id, PercentagePatch(percentage))
    ensures store.transactions == old(store.transactions) && store.baseIncome == old(store.baseIncome)
  {
    store.UpdateCategory(cat.id, PercentagePatch(percentage));
  }

  /** One wedge of the allocation pie chart. */
  datatype Slice = Slice(name: string, value: real, color: string)

  function SliceOf(c: Category, income: real): Slice
  {
    Slice(c.name, Allocation(c, income), if c.color == "" then "#cbd5e1" else c.color)
  }

  function HasValue(s: Slice): bool
  {
    s.value > 0.0
  }

  /** The wedges of the expense categories with a positive allocation, in order. */
  function CategorySlices(categories: seq<Category>, baseIncome: Num): seq<Slice>
  {
    var income := OrZero(baseIncome);
    Filter(Map(ExpenseCategories(categories), (c: Category) => SliceOf(c, income)), HasValue)
  }

  function RemainingSlice(categories: seq<Category>, baseIncome: Num): Slice
  {
    Slice("Remaining", RemainingBudget(categories, baseIncome), "#334155")
  }

  /** `chartData`: the category wedges and the remainder, keeping only
      positive values. */
  function ChartData(categories: seq<Category>, baseIncome: Num): seq<Slice>
  {
    Filter(CategorySlices(categories, baseIncome) + [RemainingSlice(categories, baseIncome)], HasValue)
  }

  /** Every wedge is positive; the chart is the positive category wedges in
      category order followed by the remainder exactly when something
      remains, so the remainder, if present, is last. */
  lemma ChartDataShape(categories: seq<Category>, baseIncome: Num)
    ensures forall i :: 0 <= i < |ChartData(categories, baseIncome)| ==> ChartData(categories, baseIncome)[i].value > 0.0
    ensures ChartData(categories, baseIncome)
         == CategorySlices(categories, baseIncome)
            + (if RemainingBudget(categories, baseIncome) > 0.0 then [RemainingSlice(categories, baseIncome)] else [])
  {
    var cs := CategorySlices(categories, baseIncome);
    FilterMembers(Map(ExpenseCategories(categories), (c: Category) => SliceOf(c, OrZero(baseIncome))), HasValue);
    FilterAppend(cs, [RemainingSlice(categories, baseIncome)], HasValue);
    FilterKeepsAll(cs, HasValue);
  }

  /** `showChart`: the chart shows when there is at least one wedge. */
  predicate ShowChart(categories: seq<Category>, baseIncome: Num)
  {
    var data := ChartData(categories, baseIncome);
    |data| > 0 && exists i :: 0 <= i < |data| && data[i].value > 0.0
  }

  /** With any income left unallocated there is always a chart; with none
      left, the chart shows exactly when some category has a positive
      allocation. */
  lemma ShowChartWhen(categories: seq<Category>, baseIncome: Num)
    ensures ShowChart(categories, baseIncome)
        <==> RemainingBudget(categories, baseIncome) > 0.0 || |CategorySlices(categories, baseIncome)| > 0
  {
    ChartDataShape(categories, baseIncome);
    var data := ChartData(categories, baseIncome);
    if |data| > 0 {
      assert data[0].value > 0.0;
    }
  }
}
