/** The budget rules that the dashboard and the planning page both apply to
    a category: its limit, its allocation against the base income, and the
    current-month spending it is measured against. */
module Budget {
  import opened Seqs
  import opened FinanceTypes
  import opened Ledger

  /** `Number(cat.budgetLimit || 0)` and `Number(cat.budgetLimit) || 0`: an
      absent limit counts as 0. */
  function Limit(c: Category): real
  {
    match c.budgetLimit
    case None => 0.0
    case Some(v) => v
  }

  /** The amount allocated to a category: a percentage limit is read against
      the income when the income is positive; otherwise, and for fixed
      budgets, the limit itself is the allocation. */
  function Allocation(c: Category, income: real): real
  {
    if c.budgetType == Some(Percentage) && income > 0.0 then income * (Limit(c) / 100.0)
    else Limit(c)
  }

  /** The rule as a whole, including the fallback to the raw limit for a
      percentage budget when there is no income. */
  lemma AllocationRule(c: Category, income: real)
    ensures c.budgetType != Some(Percentage) ==> Allocation(c, income) == Limit(c)
    ensures c.budgetType == Some(Percentage) && income > 0.0 ==> Allocation(c, income) == income * Limit(c) / 100.0
    ensures c.budgetType == Some(Percentage) && income <= 0.0 ==> Allocation(c, income) == Limit(c)
    ensures Limit(c) >= 0.0 && income >= 0.0 ==> Allocation(c, income) >= 0.0
  {
  }

  /** A percentage budget of at most 100% never allocates more than the
      income, and a higher income never allocates less. */
  lemma PercentageWithinIncome(c: Category, income: real, more: real)
    requires c.budgetType == Some(Percentage) && 0.0 <= Limit(c) <= 100.0
    requires 0.0 < income <= more
    ensures 0.0 <= Allocation(c, income) <= income
    ensures Allocation(c, income) <= Allocation(c, more)
  {
    var f := Limit(c) / 100.0;
    assert 0.0 <= f <= 1.0;
    assert income * f <= income * 1.0;
    assert income * f <= more * f;
  }

  function IsCategoryKind(k: TxType): Category -> bool
  {
    (c: Category) => c.kind == k
  }

  /** `categories.filter(c => c.type === k)` */
  function CategoriesOfKind(cats: seq<Category>, k: TxType): seq<Category>
  {
    Filter(cats, IsCategoryKind(k))
  }

  function ExpenseCategories(cats: seq<Category>): seq<Category>
  {
    CategoriesOfKind(cats, Expense)
  }

  /** Whether `t` counts towards category `name`'s spending in the month of `now`. */
  function SpentIn(name: string, now: Date): Transaction -> bool
  {
    (t: Transaction) => t.category == name && t.kind == Expense && SameMonth(t.date, now)
  }

  /** The expense amounts filed under `name` in the calendar month of `now`. */
  function MonthSpent(txs: seq<Transaction>, name: string, now: Date): int
  {
    SumAmounts(Filter(txs, SpentIn(name, now)))
  }

  /** Whether `t` is an expense dated in the calendar month of `now`. */
  function IsMonthExpense(now: Date): Transaction -> bool
  {
    (t: Transaction) => t.kind == Expense && SameMonth(t.date, now)
  }

  /** Taking the month's expenses first and then one category gives the
      same sum as `MonthSpent`. */
  lemma MonthSpentByTwoFilters(txs: seq<Transaction>, name: string, now: Date)
    ensures CategoryTotal(Filter(txs, IsMonthExpense(now)), name) == MonthSpent(txs, name, now)
  {
    FilterFilter(txs, IsMonthExpense(now), InCategory(name), SpentIn(name, now));
  }
}
