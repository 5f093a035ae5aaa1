/** The dashboard's derived views: the running-balance chart, the
    per-category budget overview for the current month, and the five most
    recent transactions. */
module Dashboard {
  import opened Seqs
  import opened FinanceTypes
  import opened Ledger
  import opened StableSort
  import opened Budget

  /** One point of the balance chart: the signed amount, the absolute
      amount, and the balance after it. */
  datatype ChartPoint = ChartPoint(date: Date, amount: int, value: int, balance: int)

  /** The chart data: transactions oldest first, each with the running
      balance after it. The balance is accumulated in a loop, as the page
      does with `let runningBalance`. */
  method BalanceChart(transactions: seq<Transaction>) returns (chart: seq<ChartPoint>)
    ensures |chart| == |transactions|
    ensures forall k :: 0 <= k < |chart| ==>
              chart[k].date == OldestFirst(transactions)[k].date &&
              chart[k].amount == Signed(OldestFirst(transactions)[k]) &&
              chart[k].value == OldestFirst(transactions)[k].amount &&
              chart[k].balance == SignedSum(OldestFirst(transactions)[..k + 1])
    ensures forall i, j :: 0 <= i < j < |chart| ==> Ordinal(chart[i].date) <= Ordinal(chart[j].date)
    ensures |chart| > 0 ==> chart[|chart| - 1].balance == TotalIncome(transactions) - TotalExpense(transactions)
  {
    chart := RunningBalances(OldestFirst(transactions));
    OldestFirstFacts(transactions);
  }

  /** The `forEach` over the sorted items that accumulates `runningBalance`. */
  method RunningBalances(items: seq<Transaction>) returns (chart: seq<ChartPoint>)
    ensures |chart| == |items|
    ensures forall k :: 0 <= k < |items| ==>
              chart[k] == ChartPoint(items[k].date, Signed(items[k]), items[k].amount, SignedSum(items[..k + 1]))
    ensures |chart| > 0 ==> chart[|chart| - 1].balance == SignedSum(items)
  {
    var runningBalance := 0;
    chart := [];
    var i := 0;
    while i < |items|
      invariant 0 <= i <= |items|
      invariant |chart| == i
      invariant runningBalance == SignedSum(items[..i])
      invariant forall k :: 0 <= k < i ==>
                  chart[k] == ChartPoint(items[k].date, Signed(items[k]), items[k].amount, SignedSum(items[..k + 1]))
    {
      RunningBalanceStep(items, i);
      runningBalance := runningBalance + Signed(items[i]);
      chart := chart + [ChartPoint(items[i].date, Signed(items[i]), items[i].amount, runningBalance)];
      i := i + 1;
    }
    assert items[..|items|] == items;
  }

  lemma RunningBalanceStep(items: seq<Transaction>, i: nat)
    requires i < |items|
    ensures SignedSum(items[..i + 1]) == SignedSum(items[..i]) + Signed(items[i])
  {
    SignedSumAppend(items[..i], [items[i]]);
    assert items[..i + 1] == items[..i] + [items[i]];
  }

  /** Oldest first is in date order and ends on the balance. */
  lemma OldestFirstFacts(transactions: seq<Transaction>)
    ensures forall i, j :: 0 <= i < j < |OldestFirst(transactions)| ==>
              Ordinal(OldestFirst(transactions)[i].date) <= Ordinal(OldestFirst(transactions)[j].date)
    ensures SignedSum(OldestFirst(transactions)) == TotalIncome(transactions) - TotalExpense(transactions)
  {
    SortBySorted(transactions, DateKey);
    SignedSumSort(transactions, DateKey);
    SignedSumIsBalance(transactions);
  }

  /** One card of the budget overview. */
  datatype BudgetRow = BudgetRow(category: Category, allocation: real, spent: int, percentage: real, overBudget: bool)

  /** `allocated > 0 ? Math.min(100, (spent / allocated) * 100) : 0` */
  function Utilisation(spent: int, budget: real): (p: real)
    ensures p <= 100.0
    ensures spent >= 0 ==> p >= 0.0
    ensures budget > 0.0 && spent as real > budget ==> p == 100.0
    ensures budget > 0.0 && spent as real <= budget ==> p == spent as real / budget * 100.0
    ensures budget <= 0.0 ==> p == 0.0
  {
    if budget > 0.0 then
      var ratio := spent as real / budget * 100.0;
      if spent as real > budget then
        assert ratio > 100.0 by { DivAboveOne(spent as real, budget); }
        100.0
      else
        assert ratio <= 100.0 by { DivAtMostOne(spent as real, budget); }
        if ratio < 100.0 then ratio else 100.0
    else 0.0
  }

  lemma DivAboveOne(x: real, y: real)
    requires y > 0.0 && x > y
    ensures x / y * 100.0 > 100.0
  {
    assert x / y > 1.0;
  }

  lemma DivAtMostOne(x: real, y: real)
    requires y > 0.0 && x <= y
    ensures x / y * 100.0 <= 100.0
    ensures x >= 0.0 ==> x / y >= 0.0
  {
    assert x / y <= 1.0;
  }

  /** The card for one expense category in the month of `now`. */
  function Row(cat: Category, transactions: seq<Transaction>, baseIncome: Num, now: Date): (r: BudgetRow)
    ensures r.category == cat
    ensures r.allocation == Allocation(cat, OrZero(baseIncome))
    ensures r.spent == MonthSpent(transactions, cat.name, now)
    ensures r.overBudget <==> r.spent as real > r.allocation
    ensures r.percentage == Utilisation(r.spent, r.allocation)
  {
    var budget := Allocation(cat, OrZero(baseIncome));
    var spent := MonthSpent(transactions, cat.name, now);
    BudgetRow(cat, budget, spent, Utilisation(spent, budget), spent as real > budget)
  }

  /** What a card tells its reader: the spending is what the planning page
      counts for the category this month, the card is over budget exactly
      when that exceeds the allocation, and the bar shows 0 with nothing
      allocated and otherwise the spent share of the allocation, capped at
      100 and never negative for non-negative amounts. */
  lemma RowMeaning(cat: Category, transactions: seq<Transaction>, baseIncome: Num, now: Date)
    ensures Row(cat, transactions, baseIncome, now).spent == CategoryTotal(Filter(transactions, IsMonthExpense(now)), cat.name)
    ensures Row(cat, transactions, baseIncome, now).allocation == Allocation(cat, OrZero(baseIncome))
    ensures Row(cat, transactions, baseIncome, now).overBudget <==>
              CategoryTotal(Filter(transactions, IsMonthExpense(now)), cat.name) as real > Allocation(cat, OrZero(baseIncome))
    ensures Allocation(cat, OrZero(baseIncome)) <= 0.0 ==> Row(cat, transactions, baseIncome, now).percentage == 0.0
    ensures Row(cat, transactions, baseIncome, now).overBudget && Allocation(cat, OrZero(baseIncome)) > 0.0 ==>
              Row(cat, transactions, baseIncome, now).percentage == 100.0
    ensures !Row(cat, transactions, baseIncome, now).overBudget && Allocation(cat, OrZero(baseIncome)) > 0.0 ==>
              Row(cat, transactions, baseIncome, now).percentage
                == MonthSpent(transactions, cat.name, now) as real / Allocation(cat, OrZero(baseIncome)) * 100.0
    ensures AllNonNegative(transactions) ==>
              Row(cat, transactions, baseIncome, now).spent >= 0 &&
              0.0 <= Row(cat, transactions, baseIncome, now).percentage <= 100.0
  {
    MonthSpentByTwoFilters(transactions, cat.name, now);
    if AllNonNegative(transactions) {
      SumOfFilterNonNegative(transactions, SpentIn(cat.name, now));
    }
  }

  /** The budget overview: one row per expense category, in category order. */
  function Overview(categories: seq<Category>, transactions: seq<Transaction>, baseIncome: Num, now: Date): (rows: seq<BudgetRow>)
    ensures |rows| == |ExpenseCategories(categories)|
    ensures forall i :: 0 <= i < |rows| ==> rows[i] == Row(ExpenseCategories(categories)[i], transactions, baseIncome, now)
  {
    Map(ExpenseCategories(categories), (c: Category) => Row(c, transactions, baseIncome, now))
  }

  /** Exactly the expense categories get a card, as many cards as there are
      expense categories, and each card is its own category's row. */
  lemma OverviewCoversExpenseCategories(categories: seq<Category>, transactions: seq<Transaction>, baseIncome: Num, now: Date)
    ensures |Overview(categories, transactions, baseIncome, now)| == |CategoriesOfKind(categories, Expense)|
    ensures forall r :: r in Overview(categories, transactions, baseIncome, now) ==>
              r.category in categories && r.category.kind == Expense
    ensures forall r :: r in Overview(categories, transactions, baseIncome, now) ==>
              r == Row(r.category, transactions, baseIncome, now)
    ensures forall c :: c in categories && c.kind == Expense ==>
              exists r :: r in Overview(categories, transactions, baseIncome, now) && r.category == c
  {
    var rows := Overview(categories, transactions, baseIncome, now);
    var ex := ExpenseCategories(categories);
    FilterMembers(categories, IsCategoryKind(Expense));
    forall c | c in categories && c.kind == Expense
      ensures exists r :: r in rows && r.category == c
    {
      var k :| 0 <= k < |categories| && categories[k] == c;
      var j :| 0 <= j < |ex| && ex[j] == c;
      assert rows[j].category == c;
    }
    forall r | r in rows
      ensures r.category in categories && r.category.kind == Expense
      ensures r == Row(r.category, transactions, baseIncome, now)
    {
      var j :| 0 <= j < |rows| && rows[j] == r;
      assert r.category == ex[j];
    }
  }

  /** With non-negative amounts, every row's spending is non-negative and its
      percentage lies within 0..100; over budget with a positive allocation
      shows 100, and with nothing allocated any spending is over budget. */
  lemma OverviewRowBounds(categories: seq<Category>, transactions: seq<Transaction>, baseIncome: Num, now: Date)
    requires AllNonNegative(transactions)
    ensures forall r :: r in Overview(categories, transactions, baseIncome, now) ==>
              r.spent >= 0 && 0.0 <= r.percentage <= 100.0 &&
              (r.overBudget && r.allocation > 0.0 ==> r.percentage == 100.0) &&
              (r.allocation == 0.0 && r.spent > 0 ==> r.overBudget)
  {
    var rows := Overview(categories, transactions, baseIncome, now);
    var ex := ExpenseCategories(categories);
    forall r | r in rows ensures r.spent >= 0 {
      var j :| 0 <= j < |rows| && rows[j] == r;
      SumOfFilterNonNegative(transactions, SpentIn(ex[j].name, now));
    }
  }

  /** The five most recent transactions, newest first. */
  function Recent(transactions: seq<Transaction>): seq<Transaction>
  {
    Take(NewestFirst(transactions), 5)
  }

  /** At most five entries, newest first, all drawn from the transactions,
      and none older than any transaction left out. */
  lemma RecentProperties(transactions: seq<Transaction>)
    ensures |Recent(transactions)| <= 5
    ensures |transactions| <= 5 ==> |Recent(transactions)| == |transactions|
    ensures IsNewestFirst(Recent(transactions))
    ensures multiset(Recent(transactions)) <= multiset(transactions)
    ensures forall i, j :: 0 <= i < |Recent(transactions)| && |Recent(transactions)| <= j < |transactions| ==>
              Ordinal(Recent(transactions)[i].date) >= Ordinal(NewestFirst(transactions)[j].date)
  {
    var s := NewestFirst(transactions);
    NewestFirstOrdered(transactions);
    var r := Recent(transactions);
    assert r == s[..|r|];
    assert s == r + s[|r|..];
    assert multiset(s) == multiset(r) + multiset(s[|r|..]);
  }
}
